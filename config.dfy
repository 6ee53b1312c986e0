/**
  The server settings of `config.py` and the two values derived from them:
  the pmproxy URL and the HTTP basic-auth pair. Loading the fields from the
  environment is not modelled; a `Settings` value is the loaded result.
*/
module Config {
  import opened Wrappers
  import opened Strings

  /** The fields of `PCPMCPSettings`; absent credentials are None. */
  datatype Settings = Settings(host: string, port: int, useTls: bool, timeout: real, targetHost: string,
                               username: Option<string>, password: Option<string>)

  /** The settings when nothing is configured. */
  const Defaults := Settings("localhost", 44322, false, 30.0, "localhost", None, None)

  /** "https" when TLS is on, otherwise "http". */
  function Scheme(s: Settings): string
  {
    if s.useTls then "https" else "http"
  }

  /** `base_url`: scheme, host and port. */
  function BaseUrl(s: Settings): string
  {
    Scheme(s) + "://" + s.host + ":" + IntToDecimal(s.port)
  }

  /**
    The URL can be read back: it starts with "https://" exactly when TLS is
    on, the host sits between "://" and the last ':', and a non-negative port
    is the decimal number after that ':'.
  */
  lemma BaseUrlReadBack(s: Settings)
    ensures s.useTls <==> "https://" <= BaseUrl(s)
    ensures !s.useTls <==> "http://" <= BaseUrl(s)
    ensures s.port >= 0 ==>
              var url, digits := BaseUrl(s), NatToDecimal(s.port);
              var start := |Scheme(s)| + 3;
              && |url| == start + |s.host| + 1 + |digits|
              && url[start..start + |s.host|] == s.host
              && url[start + |s.host|] == ':'
              && url[start + |s.host| + 1..] == digits
              && DecimalValue(url[start + |s.host| + 1..]) == s.port
  {
    var url := BaseUrl(s);
    var rest := s.host + ":" + IntToDecimal(s.port);
    if s.useTls {
      assert url == "https://" + rest;
      assert url[..8] == "https://";
    } else {
      assert url == "http://" + rest;
      assert url[..7] == "http://";
      assert url[4] == ':';
      assert "https://"[4] == 's';
    }
    if s.port >= 0 {
      var digits := NatToDecimal(s.port);
      assert |Scheme(s) + "://"| == |Scheme(s)| + 3;
      HostAndPort(Scheme(s) + "://", s.host, digits);
      DecimalRoundTrip(s.port);
    }
  }

  /** Where host and port sit in `prefix + host + ":" + digits`. */
  lemma HostAndPort(prefix: string, host: string, digits: string)
    ensures var url, start := prefix + host + ":" + digits, |prefix|;
      && |url| == start + |host| + 1 + |digits|
      && url[start..start + |host|] == host
      && url[start + |host|] == ':'
      && url[start + |host| + 1..] == digits
  {
    var url := prefix + host + ":" + digits;
    assert url == (prefix + host) + (":" + digits);
    assert url[|prefix| + |host|..] == ":" + digits;
    assert (prefix + host)[|prefix|..] == host;
  }

  /** With no configuration the server talks plain HTTP to the local pmproxy on port 44322. */
  lemma DefaultBaseUrl()
    ensures BaseUrl(Defaults) == "http://localhost:44322"
    ensures Auth(Defaults).None?
  {
    DefaultPortText();
    assert Scheme(Defaults) == "http";
  }

  /** `str(44322)`. */
  lemma DefaultPortText()
    ensures IntToDecimal(44322) == "44322"
  {
    assert Digit(2) == '2' && Digit(3) == '3' && Digit(4) == '4';
    assert NatToDecimal(4) == "4";
    assert NatToDecimal(44) == "44" by {
      assert NatToDecimal(44) == NatToDecimal(4) + [Digit(4)];
    }
    assert NatToDecimal(443) == "443" by {
      assert NatToDecimal(443) == NatToDecimal(44) + [Digit(3)];
    }
    assert NatToDecimal(4432) == "4432" by {
      assert NatToDecimal(4432) == NatToDecimal(443) + [Digit(2)];
    }
    assert NatToDecimal(44322) == "44322" by {
      assert NatToDecimal(44322) == NatToDecimal(4432) + [Digit(2)];
    }
  }

  /** Python truthiness of an optional string: present and non-empty. */
  predicate Given(v: Option<string>)
  {
    v.Some? && v.value != ""
  }

  /** `auth`: the credentials pair when both are given, otherwise None. */
  function Auth(s: Settings): (r: Option<(string, string)>)
    ensures r.Some? <==> Given(s.username) && Given(s.password)
    ensures r.Some? ==> r.value == (s.username.value, s.password.value) && r.value.0 != "" && r.value.1 != ""
  {
    if Given(s.username) && Given(s.password) then Some((s.username.value, s.password.value)) else None
  }
}
