/**
  The exceptions the server sees and `handle_pcp_error`, which turns any of
  them into the ToolError reported to the MCP client.
*/
module Errors {
  import opened Strings

  /**
    The exception kinds the core distinguishes. `msg` is what `str(e)` gives.
    An HTTP status error also carries the response's status code and body text.
  */
  datatype PyError =
    | ConnectError(msg: string)
    | HttpStatus(code: int, text: string, msg: string)
    | Timeout(msg: string)
    | PcpConnection(msg: string)
    | PcpMetricNotFound(msg: string)
    | ToolError(msg: string)
    | Other(kind: string, msg: string)

  const CannotConnect := "Cannot connect to pmproxy. Is it running? (systemctl start pmproxy)"

  /** `t` occurs in `s` starting at index `i`. */
  ghost predicate OccursAt(s: string, t: string, i: int)
  {
    0 <= i <= |s| - |t| && s[i..i + |t|] == t
  }

  /** `t` occurs in `s` as a contiguous piece (Python's `t in s`). */
  ghost predicate Contains(s: string, t: string)
  {
    exists i :: OccursAt(s, t, i)
  }

  lemma ContainsSuffix(p: string, t: string)
    ensures Contains(p + t, t)
  {
    assert OccursAt(p + t, t, |p|);
  }

  lemma ContainsMiddle(p: string, t: string, q: string)
    ensures Contains(p + t + q, t)
  {
    assert (p + t + q)[|p|..|p| + |t|] == t;
    assert OccursAt(p + t + q, t, |p|);
  }

  /** `handle_pcp_error(e, operation)`: the ToolError for an exception, chosen by the first matching case. */
  function HandlePcpError(e: PyError, operation: string): (r: PyError)
    ensures r.ToolError?
    ensures e.ConnectError? ==> r.msg == CannotConnect
    ensures e.PcpConnection? ==> r.msg == e.msg
  {
    match e
    case ConnectError(_) => ToolError(CannotConnect)
    case HttpStatus(code, text, _) =>
      if code == 400 then ToolError("Bad request during " + operation + ": " + text)
      else if code == 404 then ToolError("Metric not found during " + operation)
      else ToolError("pmproxy error (" + IntToDecimal(code) + "): " + text)
    case Timeout(_) => ToolError("Request timed out during " + operation)
    case PcpConnection(m) => ToolError(m)
    case PcpMetricNotFound(m) => ToolError("Metric not found: " + m)
    case _ => ToolError("Error during " + operation + ": " + e.msg)
  }

  /**
    The failed operation is named in the message for a 400 or 404 response,
    a timeout, and every exception outside the pmproxy-specific kinds.
  */
  lemma OperationNamed(e: PyError, operation: string)
    requires (e.HttpStatus? && (e.code == 400 || e.code == 404)) || e.Timeout? || e.ToolError? || e.Other?
    ensures Contains(HandlePcpError(e, operation).msg, operation)
  {
    if e.HttpStatus? && e.code == 400 {
      ContainsMiddle("Bad request during ", operation, ": " + e.text);
      assert "Bad request during " + operation + ": " + e.text == "Bad request during " + operation + (": " + e.text);
    } else if e.HttpStatus? {
      ContainsSuffix("Metric not found during ", operation);
    } else if e.Timeout? {
      ContainsSuffix("Request timed out during ", operation);
    } else {
      ContainsMiddle("Error during ", operation, ": " + e.msg);
      assert "Error during " + operation + ": " + e.msg == "Error during " + operation + (": " + e.msg);
    }
  }

  /** The response body reaches the caller for every HTTP status except 404. */
  lemma BodyReported(code: int, text: string, m: string, operation: string)
    requires code != 404
    ensures Contains(HandlePcpError(HttpStatus(code, text, m), operation).msg, text)
  {
    if code == 400 {
      ContainsSuffix("Bad request during " + operation + ": ", text);
    } else {
      ContainsSuffix("pmproxy error (" + IntToDecimal(code) + "): ", text);
    }
  }

  /** A status other than 400 and 404 is reported with its code, and that code can be read back from the message. */
  lemma StatusCodeReported(code: int, text: string, m: string, operation: string)
    requires code != 400 && code != 404
    ensures Contains(HandlePcpError(HttpStatus(code, text, m), operation).msg, IntToDecimal(code))
  {
    ContainsMiddle("pmproxy error (", IntToDecimal(code), "): " + text);
    assert "pmproxy error (" + IntToDecimal(code) + "): " + text == "pmproxy error (" + IntToDecimal(code) + ("): " + text);
  }

  /** A 404 message depends only on the operation: neither the body nor the exception text shows. */
  lemma NotFoundIgnoresBody(t1: string, m1: string, t2: string, m2: string, operation: string)
    ensures HandlePcpError(HttpStatus(404, t1, m1), operation) == HandlePcpError(HttpStatus(404, t2, m2), operation)
  {
  }

  /** Messages of a metric-not-found error and of an unclassified error keep the original text. */
  lemma ExceptionTextKept(e: PyError, operation: string)
    requires e.PcpConnection? || e.PcpMetricNotFound? || e.ToolError? || e.Other?
    ensures Contains(HandlePcpError(e, operation).msg, e.msg)
  {
    if e.PcpConnection? {
      assert OccursAt(e.msg, e.msg, 0);
    } else if e.PcpMetricNotFound? {
      ContainsSuffix("Metric not found: ", e.msg);
    } else {
      ContainsSuffix("Error during " + operation + ": ", e.msg);
    }
  }
}
