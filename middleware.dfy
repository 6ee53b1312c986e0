/**
  `MetricCacheMiddleware` of `middleware.py`: answers repeated calls of the
  two metadata tools from a cache keyed by tool name and sorted arguments.
  The next handler of the chain is outside the model: each call takes the
  result it would return, or the exception it would raise, and reports
  whether it was called.
*/
module Middleware {
  import opened Wrappers
  import opened Values
  import opened Errors
  import opened KeySort

  /** The tools whose results are cached. */
  const CacheableTools: set<string> := {"describe_metric", "search_metrics"}

  /** The arguments of a tool call, a dict from argument name to JSON value. */
  type Arguments = seq<(string, Value)>

  /** The result of a tool call, as the next handler returns it. */
  datatype ToolResult = ToolResult(content: seq<string>)

  /** The name of an argument, its sort key. */
  function ArgName(item: (string, Value)): string
  {
    item.0
  }

  /** `_make_cache_key`: the tool name with `sorted((arguments or {}).items())`. */
  datatype CacheKey = CacheKey(tool: string, items: Arguments)

  function MakeCacheKey(tool: string, arguments: Option<Arguments>): (key: CacheKey)
    ensures key.tool == tool
  {
    CacheKey(tool, SortByKey(arguments.GetOr([]), ArgName))
  }

  /** Missing arguments and empty arguments share one key. */
  lemma NoArgumentsKey(tool: string)
    ensures MakeCacheKey(tool, None) == MakeCacheKey(tool, Some([]))
    ensures MakeCacheKey(tool, None).items == []
  {
  }

  /** The key does not depend on the order in which the arguments were given. */
  lemma KeyIgnoresOrder(tool: string, a: Arguments, b: Arguments)
    requires KeysUnique(a, ArgName) && KeysUnique(b, ArgName)
    requires forall item :: item in a <==> item in b
    ensures MakeCacheKey(tool, Some(a)) == MakeCacheKey(tool, Some(b))
  {
    var sa, sb := SortByKey(a, ArgName), SortByKey(b, ArgName);
    SortByKeySorted(a, ArgName);
    SortByKeySorted(b, ArgName);
    SortByKeyElements(a, ArgName);
    SortByKeyElements(b, ArgName);
    SortedUnique(sa, sb, ArgName);
  }

  /** Calls share a key only when they name the same tool with the same arguments. */
  lemma KeySeparatesCalls(tool1: string, a: Arguments, tool2: string, b: Arguments)
    requires KeysUnique(a, ArgName) && KeysUnique(b, ArgName)
    requires MakeCacheKey(tool1, Some(a)) == MakeCacheKey(tool2, Some(b))
    ensures tool1 == tool2
    ensures forall item :: item in a <==> item in b
  {
    SortByKeyElements(a, ArgName);
    SortByKeyElements(b, ArgName);
  }

  /** `arguments and arguments.get("host")`: a host argument that is present and truthy. */
  predicate HostRequested(arguments: Option<Arguments>)
  {
    arguments.Some? && Get(arguments.value, "host").Some? && Truthy(Get(arguments.value, "host").value)
  }

  /** Whether the cache handles the call: a cacheable tool without a requested host. */
  predicate UsesCache(tool: string, arguments: Option<Arguments>)
  {
    tool in CacheableTools && !HostRequested(arguments)
  }

  class MetricCacheMiddleware {
    /** `_cache`: the stored result of each key. */
    var cache: map<CacheKey, ToolResult>

    /** Every stored key is that of a cacheable tool. */
    ghost predicate Valid()
      reads this
    {
      forall key | key in cache :: key.tool in CacheableTools
    }

    constructor()
      ensures cache == map[] && Valid()
    {
      cache := map[];
    }

    /**
      `on_call_tool`: other tools and calls naming a host go straight to the
      next handler and leave the cache alone; a stored result is returned
      without calling it; otherwise the next handler runs once and its result
      is stored under the call's key, unless it raised, in which case the
      exception propagates and nothing is stored.
    */
    method OnCallTool(tool: string, arguments: Option<Arguments>, next: Result<ToolResult, PyError>)
      returns (result: Result<ToolResult, PyError>, forwarded: bool)
      requires Valid()
      modifies this
      ensures Valid()
      ensures !UsesCache(tool, arguments) ==> result == next && forwarded && cache == old(cache)
      ensures UsesCache(tool, arguments) && MakeCacheKey(tool, arguments) in old(cache) ==>
                result == Ok(old(cache)[MakeCacheKey(tool, arguments)]) && !forwarded && cache == old(cache)
      ensures UsesCache(tool, arguments) && MakeCacheKey(tool, arguments) !in old(cache) && next.Ok? ==>
                result == next && forwarded && cache == old(cache)[MakeCacheKey(tool, arguments) := next.value]
      ensures UsesCache(tool, arguments) && MakeCacheKey(tool, arguments) !in old(cache) && next.Err? ==>
                result == next && forwarded && cache == old(cache)
    {
      if tool !in CacheableTools {
        return next, true;
      }
      if arguments.Some? && |arguments.value| > 0 && Get(arguments.value, "host").Some?
         && Truthy(Get(arguments.value, "host").value) {
        return next, true;
      }
      var key := MakeCacheKey(tool, arguments);
      if key in cache {
        return Ok(cache[key]), false;
      }
      forwarded := true;
      var stored :- next;
      cache := cache[key := stored];
      result := Ok(stored);
    }

    /** `cache_size`: the number of stored entries. */
    function CacheSize(): (n: nat)
      reads this
      ensures n == 0 <==> cache == map[]
    {
      |cache|
    }

    /** `clear_cache`: forgets every entry. */
    method ClearCache()
      modifies this
      ensures cache == map[] && Valid()
    {
      cache := map[];
    }
  }

  /**
    The same `describe_metric` call made twice reaches the next handler
    once; both calls give its result and one entry is stored.
  */
  method RepeatedCall(arguments: Arguments, next1: ToolResult, next2: Result<ToolResult, PyError>)
    returns (first: Result<ToolResult, PyError>, second: Result<ToolResult, PyError>, calls: nat, size: nat)
    requires Get(arguments, "host").None?
    ensures first == Ok(next1) && second == Ok(next1)
    ensures calls == 1 && size == 1
  {
    var m := new MetricCacheMiddleware();
    var forwarded1, forwarded2;
    first, forwarded1 := m.OnCallTool("describe_metric", Some(arguments), Ok(next1));
    second, forwarded2 := m.OnCallTool("describe_metric", Some(arguments), next2);
    calls := (if forwarded1 then 1 else 0) + (if forwarded2 then 1 else 0);
    size := m.CacheSize();
  }

  /**
    A `describe_metric` call whose next handler raises is not cached: the
    exception reaches the caller, and the same call made again reaches the
    next handler again and gives its new outcome.
  */
  method FailedCallRetried(arguments: Arguments, failure: PyError, next2: Result<ToolResult, PyError>)
    returns (first: Result<ToolResult, PyError>, second: Result<ToolResult, PyError>, calls: nat, size: nat)
    requires Get(arguments, "host").None?
    ensures first == Err(failure) && second == next2
    ensures calls == 2
    ensures size == (if next2.Ok? then 1 else 0)
  {
    var m := new MetricCacheMiddleware();
    var forwarded1, forwarded2;
    first, forwarded1 := m.OnCallTool("describe_metric", Some(arguments), Err(failure));
    second, forwarded2 := m.OnCallTool("describe_metric", Some(arguments), next2);
    calls := (if forwarded1 then 1 else 0) + (if forwarded2 then 1 else 0);
    size := m.CacheSize();
  }

  /** Two calls with different arguments each reach the next handler and take one entry each. */
  method DistinctCalls(a: Arguments, b: Arguments, next1: ToolResult, next2: ToolResult)
    returns (calls: nat, size: nat)
    requires KeysUnique(a, ArgName) && KeysUnique(b, ArgName)
    requires Get(a, "host").None? && Get(b, "host").None?
    requires exists item :: item in a && item !in b
    ensures calls == 2 && size == 2
  {
    var m := new MetricCacheMiddleware();
    var r1, forwarded1 := m.OnCallTool("search_metrics", Some(a), Ok(next1));
    if MakeCacheKey("search_metrics", Some(a)) == MakeCacheKey("search_metrics", Some(b)) {
      KeySeparatesCalls("search_metrics", a, "search_metrics", b);
    }
    var r2, forwarded2 := m.OnCallTool("search_metrics", Some(b), Ok(next2));
    calls := (if forwarded1 then 1 else 0) + (if forwarded2 then 1 else 0);
    size := m.CacheSize();
  }
}
