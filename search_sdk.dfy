/** elastic_search_sdk.py: the search-parameter builders, the syntax and
    paginator lookups, and the two paginators. The Elasticsearch client is a
    `Cluster` object that replays a scripted `Backend` and logs every call it
    receives. */
module ElasticSearchSdk {
  import opened PyValues

  // =====================================================================
  // Query-parameter builders (SQLQuery, DSLQuery, ParamsHandlerFactory)

  datatype Syntax = Sql | Dsl

  /** The config tag that selects each syntax. */
  function SyntaxTag(s: Syntax): string {
    match s
    case Sql => "sql"
    case Dsl => "dsl"
  }

  /** The parameter under which each syntax sends the query. */
  function QueryKey(s: Syntax): string {
    match s
    case Sql => "q"
    case Dsl => "query"
  }

  const DefaultSize := 10000
  const DefaultTimeoutSeconds := 60
  const DefaultBatchedReduceSize := 20
  const DefaultKeepAliveMinutes := 5
  const DefaultScroll := "5m"

  /** `SQLQuery.build_params` (syntax Sql) and `DSLQuery.build_params`
      (syntax Dsl): the config's index and query, the size (default 10000),
      the timeout in seconds rendered with an `s` (default 60), the reduce
      hint (default 20) and min_score (default None). */
  function BuildParams(syntax: Syntax, configs: Record): (r: Result<Record>)
    ensures r.Ok? <==> "index" in configs && "query" in configs
    ensures "index" !in configs ==> r == Err(KeyError("index"))
    ensures "index" in configs && "query" !in configs ==> r == Err(KeyError("query"))
    ensures r.Ok? ==>
      && r.value.Keys == {"index", "size", QueryKey(syntax), "timeout", "batched_reduce_size", "min_score"}
      && r.value["index"] == configs["index"]
      && r.value[QueryKey(syntax)] == configs["query"]
      && r.value["size"] == (if "size" in configs then configs["size"] else Int(DefaultSize))
      && r.value["batched_reduce_size"]
         == (if "batched_reduce_size" in configs then configs["batched_reduce_size"] else Int(DefaultBatchedReduceSize))
      && r.value["min_score"] == (if "min_score" in configs then configs["min_score"] else Null)
      && r.value["timeout"].Str? && EndsWith(r.value["timeout"].s, "s")
    ensures r.Ok? && "timeout" !in configs ==> r.value["timeout"] == Str("60s")
    ensures r.Ok? && "timeout" in configs && configs["timeout"].Str? ==>
      r.value["timeout"] == Str(configs["timeout"].s + "s")
  {
    if "index" !in configs then Err(KeyError("index"))
    else if "query" !in configs then Err(KeyError("query"))
    else
      Ok(map[
        "index" := configs["index"],
        "size" := Get(configs, "size", Int(DefaultSize)),
        QueryKey(syntax) := configs["query"],
        "timeout" := Str(Render(Get(configs, "timeout", Int(DefaultTimeoutSeconds))) + "s"),
        "batched_reduce_size" := Get(configs, "batched_reduce_size", Int(DefaultBatchedReduceSize)),
        "min_score" := Get(configs, "min_score", Null)
      ])
  }

  /** A non-negative timeout of `t` seconds (60 when unset) is sent as the digits of `t`
      followed by `s`, from which `t` can be read back. */
  lemma TimeoutReadsBack(syntax: Syntax, configs: Record, t: nat)
    requires "index" in configs && "query" in configs
    requires Get(configs, "timeout", Int(DefaultTimeoutSeconds)) == Int(t)
    ensures var ts := BuildParams(syntax, configs).value["timeout"].s;
      && ts == Decimal(t) + "s"
      && |ts| >= 2 && ts[|ts| - 1] == 's'
      && (forall i :: 0 <= i < |ts| - 1 ==> IsDigit(ts[i]))
      && ParseDecimal(ts[..|ts| - 1]) == t
  {
    var ts := BuildParams(syntax, configs).value["timeout"].s;
    assert ts == Decimal(t) + "s";
    assert ts[..|ts| - 1] == Decimal(t);
    DecimalRoundTrip(t);
  }

  /** The DSL parameters are the SQL parameters with the query moved from
      key `q` to key `query`. */
  lemma {:induction false} DslIsSqlWithQueryKey(configs: Record)
    ensures BuildParams(Dsl, configs).Ok? == BuildParams(Sql, configs).Ok?
    ensures BuildParams(Sql, configs).Ok? ==>
      BuildParams(Dsl, configs).value
      == (BuildParams(Sql, configs).value - {"q"})["query" := configs["query"]]
  {
    if BuildParams(Sql, configs).Ok? {
      var sql := BuildParams(Sql, configs).value;
      var dsl := BuildParams(Dsl, configs).value;
      var moved := (sql - {"q"})["query" := configs["query"]];
      assert dsl.Keys == moved.Keys;
      forall k | k in dsl.Keys ensures dsl[k] == moved[k] {
      }
    }
  }

  /** The error `get_handler` raises for a tag it does not know. */
  function WrongSyntax(syntax: Value): Error {
    KeyError("wrong value for 'syntax' in configs expecting 'sql' or 'dsl' we got " + Render(syntax))
  }

  /** A list or dict cannot be looked up in a Python dict. */
  function Unhashable(v: Value): Error {
    TypeError(if v.List? then "unhashable type: 'list'" else "unhashable type: 'dict'")
  }

  /** `ParamsHandlerFactory.get_handler`: exactly "sql" and "dsl" select a
      builder; anything else raises. */
  function GetHandler(syntax: Value): (r: Result<Syntax>)
    ensures r.Ok? <==> syntax == Str("sql") || syntax == Str("dsl")
    ensures r.Ok? ==> syntax == Str(SyntaxTag(r.value))
    ensures r.Err? && !syntax.List? && !syntax.Obj? ==> r.error == WrongSyntax(syntax)
    ensures syntax.List? || syntax.Obj? ==> r.error.TypeError?
  {
    if syntax.List? || syntax.Obj? then Err(Unhashable(syntax))
    else if syntax == Str("sql") then Ok(Sql)
    else if syntax == Str("dsl") then Ok(Dsl)
    else Err(WrongSyntax(syntax))
  }

  // =====================================================================
  // PaginatorFactory

  datatype PaginatorKind = Scroll | PointInTime

  function PaginatorTag(p: PaginatorKind): string {
    match p
    case Scroll => "scroll"
    case PointInTime => "point_in_time"
  }

  function WrongPaginator(paginator: Value): Error {
    KeyError("wrong value paginator " + Render(paginator))
  }

  /** `PaginatorFactory.get_paginator`: exactly "scroll" and
      "point_in_time" select a paginator; anything else raises. */
  function GetPaginator(paginator: Value): (r: Result<PaginatorKind>)
    ensures r.Ok? <==> paginator == Str("scroll") || paginator == Str("point_in_time")
    ensures r.Ok? ==> paginator == Str(PaginatorTag(r.value))
    ensures r.Err? && !paginator.List? && !paginator.Obj? ==> r.error == WrongPaginator(paginator)
    ensures paginator.List? || paginator.Obj? ==> r.error.TypeError?
  {
    if paginator.List? || paginator.Obj? then Err(Unhashable(paginator))
    else if paginator == Str("scroll") then Ok(Scroll)
    else if paginator == Str("point_in_time") then Ok(PointInTime)
    else Err(WrongPaginator(paginator))
  }

  // =====================================================================
  // The search backend

  /** One answer of `service.search` under a point in time: the page of hits
      and the (possibly rotated) point-in-time id. */
  datatype Response = Response(hits: seq<Record>, pitId: string)

  /** What the backend will answer, in order: the ids `open_point_in_time`
      hands out, the responses of `search`, the hit sequences `helpers.scan`
      yields, and whether `close_point_in_time` raises. A call whose script
      is exhausted fails with TransportError. */
  datatype Backend = Backend(
    openIds: seq<string>,
    pages: seq<Response>,
    scans: seq<seq<Record>>,
    closeRaises: bool)

  /** The calls the paginators make on the client, with their arguments. */
  datatype Call =
    | OpenPit(index: Value, keepAlive: string)
    | Search(pit: string, keepAlive: string, params: Record, sort: Value)
    | ClosePit(pit: string)
    | Scan(query: Record, scroll: Value, size: Value, requestTimeout: Value)

  /** The Elasticsearch client handle. */
  class Cluster {
    var backend: Backend
    var calls: seq<Call>

    constructor (script: Backend)
      ensures backend == script && calls == []
    {
      backend := script;
      calls := [];
    }

    method OpenPointInTime(index: Value, keepAlive: string) returns (r: Result<string>)
      modifies this
      ensures calls == old(calls) + [OpenPit(index, keepAlive)]
      ensures old(backend.openIds) == [] ==> r == Err(TransportError) && backend == old(backend)
      ensures old(backend.openIds) != [] ==>
        r == Ok(old(backend.openIds[0])) && backend == old(backend.(openIds := backend.openIds[1..]))
    {
      calls := calls + [OpenPit(index, keepAlive)];
      if backend.openIds == [] {
        r := Err(TransportError);
      } else {
        r := Ok(backend.openIds[0]);
        backend := backend.(openIds := backend.openIds[1..]);
      }
    }

    method SearchPage(pit: string, keepAlive: string, params: Record, sort: Value) returns (r: Result<Response>)
      modifies this
      ensures calls == old(calls) + [Search(pit, keepAlive, params, sort)]
      ensures old(backend.pages) == [] ==> r == Err(TransportError) && backend == old(backend)
      ensures old(backend.pages) != [] ==>
        r == Ok(old(backend.pages[0])) && backend == old(backend.(pages := backend.pages[1..]))
    {
      calls := calls + [Search(pit, keepAlive, params, sort)];
      if backend.pages == [] {
        r := Err(TransportError);
      } else {
        r := Ok(backend.pages[0]);
        backend := backend.(pages := backend.pages[1..]);
      }
    }

    /** Returns whether the close raised. */
    method ClosePointInTime(pit: string) returns (raised: bool)
      modifies this
      ensures calls == old(calls) + [ClosePit(pit)]
      ensures raised == backend.closeRaises && backend == old(backend)
    {
      calls := calls + [ClosePit(pit)];
      raised := backend.closeRaises;
    }

    method ScanAll(query: Record, scroll: Value, size: Value, requestTimeout: Value) returns (r: Result<seq<Record>>)
      modifies this
      ensures calls == old(calls) + [Scan(query, scroll, size, requestTimeout)]
      ensures old(backend.scans) == [] ==> r == Err(TransportError) && backend == old(backend)
      ensures old(backend.scans) != [] ==>
        r == Ok(old(backend.scans[0])) && backend == old(backend.(scans := backend.scans[1..]))
    {
      calls := calls + [Scan(query, scroll, size, requestTimeout)];
      if backend.scans == [] {
        r := Err(TransportError);
      } else {
        r := Ok(backend.scans[0]);
        backend := backend.(scans := backend.scans[1..]);
      }
    }
  }

  // =====================================================================
  // What one pagination does, as a function of its inputs

  /** The hits a paginator yielded (before its error, if any), the calls it
      made, the final state of the caller's parameter dict and of the
      backend. */
  datatype Paged = Paged(
    records: seq<Record>,
    calls: seq<Call>,
    params: Record,
    backend: Backend,
    err: Option<Error>)

  /** `f"{configs.get('keep_alive', 5)}m"` */
  function KeepAlive(configs: Record): (r: string)
    ensures "keep_alive" !in configs ==> r == "5m"
    ensures "keep_alive" in configs && configs["keep_alive"].Str? ==> r == configs["keep_alive"].s + "m"
    ensures |r| >= 1 && r[|r| - 1] == 'm'
    ensures "keep_alive" in configs && configs["keep_alive"].Int? && configs["keep_alive"].i >= 0 ==>
      r[..|r| - 1] == Decimal(configs["keep_alive"].i)
  {
    Render(Get(configs, "keep_alive", Int(DefaultKeepAliveMinutes))) + "m"
  }

  /** `configs.get("sort")` */
  function SortSpec(configs: Record): Value {
    Get(configs, "sort", Null)
  }

  /** The parameter dict as it stands when a search is sent: the cursor is
      stored from the second call on, and only when a sort is configured. */
  function Sent(configs: Record, counter: nat, startIndex: Value, params: Record): (r: Record)
    ensures counter == 0 || !Truthy(SortSpec(configs)) ==> r == params
    ensures counter > 0 && Truthy(SortSpec(configs)) ==> r == params["search_after" := startIndex]
  {
    if counter > 0 && Truthy(SortSpec(configs)) then params["search_after" := startIndex] else params
  }

  /** The `while True` loop of `PointInTimePaginator.paginate`, entered with
      the current handle id, call counter, cursor and parameter dict. */
  function PitLoop(configs: Record, keepAlive: string, pitId: string, counter: nat,
                   startIndex: Value, params: Record, b: Backend): (r: Paged)
    ensures |r.calls| >= 1 && r.calls[0].Search?
    ensures r.err == None ==> r.calls[|r.calls| - 1].ClosePit?
    decreases |b.pages|
  {
    var sent := Sent(configs, counter, startIndex, params);
    var call := Search(pitId, keepAlive, sent, SortSpec(configs));
    if b.pages == [] then Paged([], [call], sent, b, Some(TransportError))
    else
      var response := b.pages[0];
      var b' := b.(pages := b.pages[1..]);
      if response.hits == [] then
        Paged([], [call, ClosePit(response.pitId)], sent, b', None)
      else
        var last := response.hits[|response.hits| - 1];
        if "sort" !in last then Paged(response.hits, [call], sent, b', Some(KeyError("sort")))
        else
          var rest := PitLoop(configs, keepAlive, response.pitId, counter + 1, last["sort"], sent, b');
          Paged(response.hits + rest.records, [call] + rest.calls, rest.params, rest.backend, rest.err)
  }

  /** The loop only ever adds or moves the cursor in the parameter dict. */
  lemma {:induction false} PitLoopKeepsParams(configs: Record, keepAlive: string, pitId: string, counter: nat,
                                              startIndex: Value, params: Record, b: Backend)
    ensures PitLoop(configs, keepAlive, pitId, counter, startIndex, params, b).params - {"search_after"}
            == params - {"search_after"}
    decreases |b.pages|
  {
    var sent := Sent(configs, counter, startIndex, params);
    assert sent - {"search_after"} == params - {"search_after"};
    if b.pages != [] {
      var response := b.pages[0];
      if response.hits != [] {
        var last := response.hits[|response.hits| - 1];
        if "sort" in last {
          PitLoopKeepsParams(configs, keepAlive, response.pitId, counter + 1, last["sort"], sent, b.(pages := b.pages[1..]));
        }
      }
    }
  }

  /** The loop only consumes pages: every page it takes is the next one, at
      least one is taken when any is left, and nothing else of the backend
      changes. */
  lemma {:induction false} PitLoopConsumesPages(configs: Record, keepAlive: string, pitId: string, counter: nat,
                                                startIndex: Value, params: Record, b: Backend)
    ensures var r := PitLoop(configs, keepAlive, pitId, counter, startIndex, params, b);
      && r.backend == b.(pages := r.backend.pages)
      && |r.backend.pages| <= |b.pages| && r.backend.pages == b.pages[|b.pages| - |r.backend.pages|..]
      && (b.pages != [] ==> |r.backend.pages| < |b.pages|)
    decreases |b.pages|
  {
    if b.pages != [] {
      var response := b.pages[0];
      if response.hits != [] {
        var last := response.hits[|response.hits| - 1];
        if "sort" in last {
          var sent := Sent(configs, counter, startIndex, params);
          PitLoopUnfold(configs, keepAlive, pitId, counter, startIndex, params, b);
          PitLoopConsumesPages(configs, keepAlive, response.pitId, counter + 1, last["sort"], sent, b.(pages := b.pages[1..]));
        }
      }
    }
  }

  /** `PointInTimePaginator.paginate`, from the caller's configs, parameter
      dict and backend. The handle is opened before `index` is removed from
      the parameters, so a missing `index` there leaves it open. */
  function PitRun(configs: Record, params: Record, b: Backend): (r: Paged)
    ensures "index" !in configs ==> r.err == Some(KeyError("index")) && r.calls == []
    ensures "index" in configs && b.openIds != [] && "index" !in params ==>
      r.err == Some(KeyError("index")) && r.records == []
      && r.calls == [OpenPit(configs["index"], KeepAlive(configs))]
    ensures !("index" in configs && "index" in params && b.openIds != []) ==> r.params == params
    ensures "index" in configs && "index" in params && b.openIds != [] ==>
      && r.calls != [] && r.calls[0] == OpenPit(configs["index"], KeepAlive(configs))
      && "index" !in r.params
      && r.params - {"search_after"} == params - {"index", "search_after"}
  {
    if "index" !in configs then Paged([], [], params, b, Some(KeyError("index")))
    else
      var open := OpenPit(configs["index"], KeepAlive(configs));
      if b.openIds == [] then Paged([], [open], params, b, Some(TransportError))
      else
        var b1 := b.(openIds := b.openIds[1..]);
        if "index" !in params then Paged([], [open], params, b1, Some(KeyError("index")))
        else
          var rest := PitLoop(configs, KeepAlive(configs), b.openIds[0], 0, List([]), params - {"index"}, b1);
          PitLoopKeepsParams(configs, KeepAlive(configs), b.openIds[0], 0, List([]), params - {"index"}, b1);
          assert "index" !in rest.params - {"search_after"};
          rest.(calls := [open] + rest.calls)
  }

  /** `ScrollPaginator.paginate`: one scan, whose hits are passed on in the
      order the scan yields them. */
  function ScrollRun(configs: Record, params: Record, b: Backend): (r: Paged)
    ensures r.params == params
    ensures |r.calls| == 1 && r.calls[0].Scan? && r.calls[0].query == params
    ensures "scroll" !in configs ==> r.calls[0].scroll == Str(DefaultScroll)
    ensures "size" !in configs ==> r.calls[0].size == Int(DefaultSize)
    ensures "timeout" !in configs ==> r.calls[0].requestTimeout == Int(DefaultTimeoutSeconds)
    ensures r.err == None <==> b.scans != []
    ensures r.err == None ==> r.records == b.scans[0] && r.backend == b.(scans := b.scans[1..])
    ensures r.err != None ==> r.err == Some(TransportError) && r.records == [] && r.backend == b
  {
    var call := Scan(params, Get(configs, "scroll", Str(DefaultScroll)),
                     Get(configs, "size", Int(DefaultSize)),
                     Get(configs, "timeout", Int(DefaultTimeoutSeconds)));
    if b.scans == [] then Paged([], [call], params, b, Some(TransportError))
    else Paged(b.scans[0], [call], params, b.(scans := b.scans[1..]), None)
  }

  /** The run of the paginator the factory chose. Only point-in-time paging
      changes the caller's parameter dict: `index` goes, and `search_after`
      may come. */
  function PaginateRun(kind: PaginatorKind, configs: Record, params: Record, b: Backend): (r: Paged)
    ensures kind == Scroll ==> r.params == params && |r.calls| == 1 && r.calls[0].Scan?
    ensures kind == PointInTime && "index" in configs ==> r.calls != [] && r.calls[0].OpenPit?
    ensures kind == PointInTime && "index" in configs && "index" in params && b.openIds != [] ==>
      && "index" !in r.params
      && r.params - {"search_after"} == params - {"index", "search_after"}
  {
    match kind
    case Scroll => ScrollRun(configs, params, b)
    case PointInTime => PitRun(configs, params, b)
  }

  // =====================================================================
  // The paginators

  /** `PointInTimePaginator.start_pit` */
  method StartPit(service: Cluster, index: Value, keepAlive: string) returns (r: Result<string>)
    modifies service
    ensures service.calls == old(service.calls) + [OpenPit(index, keepAlive)]
    ensures old(service.backend.openIds) == [] ==> r == Err(TransportError) && service.backend == old(service.backend)
    ensures old(service.backend.openIds) != [] ==>
      r == Ok(old(service.backend.openIds[0]))
      && service.backend == old(service.backend.(openIds := service.backend.openIds[1..]))
  {
    r := service.OpenPointInTime(index, keepAlive);
  }

  /** `PointInTimePaginator.stop_pit`: closes the handle and reports whether
      that worked; a failing close is swallowed, never raised. */
  method StopPit(service: Cluster, pitId: string) returns (ok: bool)
    modifies service
    ensures ok == !old(service.backend.closeRaises)
    ensures service.calls == old(service.calls) + [ClosePit(pitId)]
    ensures service.backend == old(service.backend)
  {
    var raised := service.ClosePointInTime(pitId);
    ok := !raised;
  }

  /** `PointInTimePaginator.paginate`: yields the hits of every page up to
      the first empty one, then closes the handle. The caller's parameter
      dict is changed in place. */
  method PointInTimePaginate(service: Cluster, configs: Record, searchParams: Dict)
    returns (records: seq<Record>, err: Option<Error>)
    modifies service, searchParams
    ensures var r := PitRun(configs, old(searchParams.entries), old(service.backend));
      && records == r.records && err == r.err
      && searchParams.entries == r.params
      && service.backend == r.backend
      && service.calls == old(service.calls) + r.calls
  {
    if "index" !in configs {
      return [], Some(KeyError("index"));
    }
    var index := configs["index"];
    var keepAlive := KeepAlive(configs);
    var handle := StartPit(service, index, keepAlive);
    if handle.Err? {
      return [], Some(handle.error);
    }
    var removed := searchParams.Pop("index");
    if removed.Err? {
      return [], Some(removed.error);
    }
    PitRunEntersLoop(configs, old(searchParams.entries), old(service.backend));
    records, err := PitPages(service, configs, keepAlive, handle.value, searchParams);
  }

  /** The `while True` loop of `PointInTimePaginator.paginate`, from the
      opened handle id with call counter 0 and an empty cursor. */
  method PitPages(service: Cluster, configs: Record, keepAlive: string, pit0: string, searchParams: Dict)
    returns (records: seq<Record>, err: Option<Error>)
    modifies service, searchParams
    ensures var r := PitLoop(configs, keepAlive, pit0, 0, List([]), old(searchParams.entries), old(service.backend));
      && records == r.records && err == r.err
      && searchParams.entries == r.params
      && service.backend == r.backend
      && service.calls == old(service.calls) + r.calls
  {
    ghost var whole := PitLoop(configs, keepAlive, pit0, 0, List([]), searchParams.entries, service.backend);
    ghost var calls0 := service.calls;
    var pitId := pit0;
    var counter: nat := 0;
    var startIndex := List([]);
    records := [];
    ghost var rest := whole;
    while true
      invariant rest == PitLoop(configs, keepAlive, pitId, counter, startIndex, searchParams.entries, service.backend)
      invariant LoopAgrees(whole, records, calls0, service.calls, rest)
      decreases |service.backend.pages|
    {
      ghost var b := service.backend;
      ghost var p := searchParams.entries;
      ghost var pit := pitId;
      ghost var sent := Sent(configs, counter, startIndex, p);
      ghost var calls1 := service.calls;
      ghost var done := records;
      ghost var call := Search(pit, keepAlive, sent, SortSpec(configs));
      PitRoundEnds(whole, done, calls0, calls1, configs, keepAlive, pit, counter, startIndex, p, b);
      if counter > 0 && Truthy(SortSpec(configs)) {
        searchParams.Set("search_after", startIndex);
      }
      assert searchParams.entries == sent;
      var response := service.SearchPage(pitId, keepAlive, searchParams.entries, SortSpec(configs));
      assert service.calls == calls1 + [call];
      if response.Err? {
        return records, Some(response.error);
      }
      var hits := response.value.hits;
      pitId := response.value.pitId;
      if hits == [] {
        var closed := StopPit(service, pitId);
        return records, None;
      }
      records := records + hits;
      var last := hits[|hits| - 1];
      if "sort" !in last {
        return records, Some(KeyError("sort"));
      }
      PitRoundContinues(whole, done, calls0, calls1, configs, keepAlive, pit, counter, startIndex, p, b);
      assert response.value == b.pages[0] && service.backend == b.(pages := b.pages[1..]);
      startIndex := last["sort"];
      counter := counter + 1;
      rest := PitLoop(configs, keepAlive, pitId, counter, startIndex, searchParams.entries, service.backend);
    }
  }

  /** The three ways a round ends the loop, and what the whole run then
      amounts to. */
  lemma PitRoundEnds(whole: Paged, records: seq<Record>, calls0: seq<Call>, calls: seq<Call>,
                     configs: Record, keepAlive: string, pitId: string, counter: nat,
                     startIndex: Value, params: Record, b: Backend)
    requires LoopAgrees(whole, records, calls0, calls, PitLoop(configs, keepAlive, pitId, counter, startIndex, params, b))
    ensures var sent := Sent(configs, counter, startIndex, params);
      var call := Search(pitId, keepAlive, sent, SortSpec(configs));
      && (b.pages == [] ==>
            && whole.records == records && calls0 + whole.calls == calls + [call]
            && whole.params == sent && whole.backend == b && whole.err == Some(TransportError))
      && (b.pages != [] && b.pages[0].hits == [] ==>
            && whole.records == records && calls0 + whole.calls == calls + [call, ClosePit(b.pages[0].pitId)]
            && whole.params == sent && whole.backend == b.(pages := b.pages[1..]) && whole.err == None)
      && (b.pages != [] && b.pages[0].hits != [] && "sort" !in b.pages[0].hits[|b.pages[0].hits| - 1] ==>
            && whole.records == records + b.pages[0].hits && calls0 + whole.calls == calls + [call]
            && whole.params == sent && whole.backend == b.(pages := b.pages[1..])
            && whole.err == Some(KeyError("sort")))
  {
    PitLoopExits(configs, keepAlive, pitId, counter, startIndex, params, b);
  }

  /** A round that finds hits ending in a sort key goes on with the next
      round, and the loop's account stays whole. */
  lemma PitRoundContinues(whole: Paged, records: seq<Record>, calls0: seq<Call>, calls: seq<Call>,
                          configs: Record, keepAlive: string, pitId: string, counter: nat,
                          startIndex: Value, params: Record, b: Backend)
    requires b.pages != [] && b.pages[0].hits != []
    requires "sort" in b.pages[0].hits[|b.pages[0].hits| - 1]
    requires LoopAgrees(whole, records, calls0, calls, PitLoop(configs, keepAlive, pitId, counter, startIndex, params, b))
    ensures var sent := Sent(configs, counter, startIndex, params);
      var hits := b.pages[0].hits;
      LoopAgrees(whole, records + hits, calls0, calls + [Search(pitId, keepAlive, sent, SortSpec(configs))],
                 PitLoop(configs, keepAlive, b.pages[0].pitId, counter + 1, hits[|hits| - 1]["sort"], sent,
                         b.(pages := b.pages[1..])))
  {
    var sent := Sent(configs, counter, startIndex, params);
    var b' := b.(pages := b.pages[1..]);
    PitLoopUnfold(configs, keepAlive, pitId, counter, startIndex, params, b);
    var rest' := PitLoop(configs, keepAlive, b.pages[0].pitId, counter + 1, Cursor(b.pages[0]), sent, b');
    LoopAgreesStep(whole, records, calls0, calls, PitLoop(configs, keepAlive, pitId, counter, startIndex, params, b),
                   b.pages[0].hits, Search(pitId, keepAlive, sent, SortSpec(configs)), rest');
  }

  /** The loop has produced `records` and the calls after `calls0`, and what
      is left of it produces `rest`: together they make up `whole`. */
  ghost predicate LoopAgrees(whole: Paged, records: seq<Record>, calls0: seq<Call>, calls: seq<Call>, rest: Paged) {
    && whole.records == records + rest.records
    && calls0 + whole.calls == calls + rest.calls
    && whole.params == rest.params
    && whole.backend == rest.backend
    && whole.err == rest.err
  }


  /** `ScrollPaginator.paginate`: passes the scan's hits on unchanged and in
      order. */
  method ScrollPaginate(service: Cluster, configs: Record, searchParams: Dict)
    returns (records: seq<Record>, err: Option<Error>)
    modifies service
    ensures var r := ScrollRun(configs, searchParams.entries, old(service.backend));
      && records == r.records && err == r.err
      && service.backend == r.backend
      && service.calls == old(service.calls) + r.calls
    ensures old(service.backend.scans) != [] ==> records == old(service.backend.scans[0]) && err == None
  {
    var scanned := service.ScanAll(searchParams.entries, Get(configs, "scroll", Str(DefaultScroll)),
                                Get(configs, "size", Int(DefaultSize)),
                                Get(configs, "timeout", Int(DefaultTimeoutSeconds)));
    if scanned.Err? {
      return [], Some(scanned.error);
    }
    records := [];
    for i := 0 to |scanned.value|
      invariant records == scanned.value[..i]
    {
      records := records + [scanned.value[i]];
    }
    err := None;
  }

  /** `paginator_engine.paginate(...)` for the engine the factory chose. */
  method Paginate(kind: PaginatorKind, service: Cluster, configs: Record, searchParams: Dict)
    returns (records: seq<Record>, err: Option<Error>)
    modifies service, searchParams
    ensures var r := PaginateRun(kind, configs, old(searchParams.entries), old(service.backend));
      && records == r.records && err == r.err
      && searchParams.entries == r.params
      && service.backend == r.backend
      && service.calls == old(service.calls) + r.calls
  {
    match kind
    case Scroll =>
      records, err := ScrollPaginate(service, configs, searchParams);
    case PointInTime =>
      records, err := PointInTimePaginate(service, configs, searchParams);
  }

  // =====================================================================
  // Properties of point-in-time paging

  /** One round of the loop on a page that has hits, the last of which
      carries a sort key: the search, then the rest of the loop from the
      next page, with that key as cursor. */
  lemma PitLoopUnfold(configs: Record, keepAlive: string, pitId: string, counter: nat,
                      startIndex: Value, params: Record, b: Backend)
    requires b.pages != [] && b.pages[0].hits != []
    requires "sort" in b.pages[0].hits[|b.pages[0].hits| - 1]
    ensures
      var sent := Sent(configs, counter, startIndex, params);
      var rest := PitLoop(configs, keepAlive, b.pages[0].pitId, counter + 1, Cursor(b.pages[0]), sent,
                          b.(pages := b.pages[1..]));
      PitLoop(configs, keepAlive, pitId, counter, startIndex, params, b)
      == Paged(b.pages[0].hits + rest.records, [Search(pitId, keepAlive, sent, SortSpec(configs))] + rest.calls,
               rest.params, rest.backend, rest.err)
  {
  }

  lemma LoopAgreesStep(whole: Paged, records: seq<Record>, calls0: seq<Call>, calls: seq<Call>, rest: Paged,
                       hits: seq<Record>, call: Call, rest': Paged)
    requires LoopAgrees(whole, records, calls0, calls, rest)
    requires rest == Paged(hits + rest'.records, [call] + rest'.calls, rest'.params, rest'.backend, rest'.err)
    ensures LoopAgrees(whole, records + hits, calls0, calls + [call], rest')
  {
    assert records + (hits + rest'.records) == (records + hits) + rest'.records;
    assert calls + ([call] + rest'.calls) == (calls + [call]) + rest'.calls;
  }

  /** Every round starts with a search from the current state. */
  lemma PitLoopFirstCall(configs: Record, keepAlive: string, pitId: string, counter: nat,
                         startIndex: Value, params: Record, b: Backend)
    ensures var r := PitLoop(configs, keepAlive, pitId, counter, startIndex, params, b);
      && |r.calls| >= 1
      && r.calls[0] == Search(pitId, keepAlive, Sent(configs, counter, startIndex, params), SortSpec(configs))
  {
  }

  /** The three ways one round of the loop can end it. */
  lemma PitLoopExits(configs: Record, keepAlive: string, pitId: string, counter: nat,
                     startIndex: Value, params: Record, b: Backend)
    ensures
      var sent := Sent(configs, counter, startIndex, params);
      var call := Search(pitId, keepAlive, sent, SortSpec(configs));
      var r := PitLoop(configs, keepAlive, pitId, counter, startIndex, params, b);
      && (b.pages == [] ==> r == Paged([], [call], sent, b, Some(TransportError)))
      && (b.pages != [] && b.pages[0].hits == [] ==>
            r == Paged([], [call, ClosePit(b.pages[0].pitId)], sent, b.(pages := b.pages[1..]), None))
      && (b.pages != [] && b.pages[0].hits != [] && "sort" !in b.pages[0].hits[|b.pages[0].hits| - 1] ==>
            r == Paged(b.pages[0].hits, [call], sent, b.(pages := b.pages[1..]), Some(KeyError("sort"))))
  {
  }

  /** Once the handle is open and `index` removed, the run is the loop
      started from the opened id, counter 0 and an empty cursor. */
  lemma PitRunEntersLoop(configs: Record, params: Record, b: Backend)
    requires "index" in configs && "index" in params && b.openIds != []
    ensures
      var loop := PitLoop(configs, KeepAlive(configs), b.openIds[0], 0, List([]), params - {"index"},
                          b.(openIds := b.openIds[1..]));
      PitRun(configs, params, b) == loop.(calls := [OpenPit(configs["index"], KeepAlive(configs))] + loop.calls)
  {
  }

  /** The paging script ends cleanly at page `k`: page `k` is empty, and
      every earlier page has hits whose last hit carries a sort key. */
  ghost predicate ClosesAt(pages: seq<Response>, k: nat) {
    && k < |pages|
    && pages[k].hits == []
    && forall j :: 0 <= j < k ==>
         pages[j].hits != [] && "sort" in pages[j].hits[|pages[j].hits| - 1]
  }

  lemma ClosesAtTail(pages: seq<Response>, k: nat)
    requires k > 0 && ClosesAt(pages, k)
    ensures ClosesAt(pages[1..], k - 1)
  {
    forall j | 0 <= j < k - 1
      ensures pages[1..][j].hits != [] && "sort" in pages[1..][j].hits[|pages[1..][j].hits| - 1]
    {
      assert pages[1..][j] == pages[j + 1];
    }
  }

  lemma ClosesAtCons(pages: seq<Response>, k: nat)
    requires pages != [] && pages[0].hits != [] && "sort" in pages[0].hits[|pages[0].hits| - 1]
    requires ClosesAt(pages[1..], k)
    ensures ClosesAt(pages, k + 1)
  {
    forall j | 0 <= j < k + 1
      ensures pages[j].hits != [] && "sort" in pages[j].hits[|pages[j].hits| - 1]
    {
      if j > 0 {
        assert pages[j] == pages[1..][j - 1];
      }
    }
  }

  /** The hits of `pages`, concatenated in order. */
  function AllHits(pages: seq<Response>): seq<Record> {
    if pages == [] then [] else pages[0].hits + AllHits(pages[1..])
  }

  lemma AllHitsPrefix(pages: seq<Response>, k: nat)
    requires 0 < k <= |pages|
    ensures AllHits(pages[..k]) == pages[0].hits + AllHits(pages[1..][..k - 1])
  {
    assert pages[..k][1..] == pages[1..][..k - 1];
  }

  /** The sort key of a page's last hit: the cursor for the next page. */
  function Cursor(page: Response): Value {
    if page.hits == [] then Null else Get(page.hits[|page.hits| - 1], "sort", Null)
  }

  /** The handle id the `i`-th search uses: the opened one, then the one
      from the previous response. */
  function PitIdBefore(pit0: string, pages: seq<Response>, i: nat): string
    requires i <= |pages|
  {
    if i == 0 then pit0 else pages[i - 1].pitId
  }

  /** The parameters the `i`-th search of a loop sends. */
  function ParamsBefore(configs: Record, counter: nat, startIndex: Value, params: Record,
                        pages: seq<Response>, i: nat): Record
    requires i <= |pages|
  {
    if i == 0 then Sent(configs, counter, startIndex, params)
    else if Truthy(SortSpec(configs)) then params["search_after" := Cursor(pages[i - 1])]
    else params
  }

  lemma ParamsBeforeShift(configs: Record, counter: nat, startIndex: Value, params: Record,
                          pages: seq<Response>, i: nat)
    requires 1 <= i <= |pages|
    ensures ParamsBefore(configs, counter + 1, Cursor(pages[0]), Sent(configs, counter, startIndex, params), pages[1..], i - 1)
            == ParamsBefore(configs, counter, startIndex, params, pages, i)
  {
    var sent := Sent(configs, counter, startIndex, params);
    if Truthy(SortSpec(configs)) {
      var x := Cursor(pages[i - 1]);
      if i > 1 {
        assert pages[1..][i - 2] == pages[i - 1];
      }
      assert sent["search_after" := x] == params["search_after" := x];
    }
  }

  /** A loop that reaches the empty page `k` ends without error after
      yielding the hits of pages 0 to k-1, with `k + 1` searches followed by
      one close with the id of the empty page. */
  lemma {:induction false} PitLoopClosesAt(configs: Record, keepAlive: string, pitId: string, counter: nat,
                                           startIndex: Value, params: Record, b: Backend, k: nat)
    requires ClosesAt(b.pages, k)
    ensures var r := PitLoop(configs, keepAlive, pitId, counter, startIndex, params, b);
      && r.err == None
      && r.records == AllHits(b.pages[..k])
      && r.backend == b.(pages := b.pages[k + 1..])
      && |r.calls| == k + 2
      && r.calls[k + 1] == ClosePit(b.pages[k].pitId)
      && r.params == ParamsBefore(configs, counter, startIndex, params, b.pages, k)
    decreases k
  {
    if k == 0 {
      assert b.pages[..0] == [];
    } else {
      var p := b.pages[0];
      var b' := b.(pages := b.pages[1..]);
      var sent := Sent(configs, counter, startIndex, params);
      PitLoopUnfold(configs, keepAlive, pitId, counter, startIndex, params, b);
      ClosesAtTail(b.pages, k);
      PitLoopClosesAt(configs, keepAlive, p.pitId, counter + 1, Cursor(p), sent, b', k - 1);
      AllHitsPrefix(b.pages, k);
      assert b'.pages[k..] == b.pages[k + 1..];
      assert b'.pages[k - 1] == b.pages[k];
      ParamsBeforeShift(configs, counter, startIndex, params, b.pages, k);
    }
  }

  /** The `i`-th call of a loop that reaches the empty page `k` is a search
      under the previous response's handle id, with the parameters of
      `ParamsBefore`. */
  lemma {:induction false} PitLoopSearches(configs: Record, keepAlive: string, pitId: string, counter: nat,
                                           startIndex: Value, params: Record, b: Backend, k: nat, i: nat)
    requires ClosesAt(b.pages, k) && i <= k
    ensures var r := PitLoop(configs, keepAlive, pitId, counter, startIndex, params, b);
      && i < |r.calls|
      && r.calls[i] == Search(PitIdBefore(pitId, b.pages, i), keepAlive,
                              ParamsBefore(configs, counter, startIndex, params, b.pages, i),
                              SortSpec(configs))
    decreases i
  {
    if i == 0 {
      PitLoopFirstCall(configs, keepAlive, pitId, counter, startIndex, params, b);
    } else {
      var p := b.pages[0];
      var b' := b.(pages := b.pages[1..]);
      var sent := Sent(configs, counter, startIndex, params);
      PitLoopUnfold(configs, keepAlive, pitId, counter, startIndex, params, b);
      ClosesAtTail(b.pages, k);
      PitLoopSearches(configs, keepAlive, p.pitId, counter + 1, Cursor(p), sent, b', k - 1, i - 1);
      ParamsBeforeShift(configs, counter, startIndex, params, b.pages, i);
      assert PitIdBefore(p.pitId, b'.pages, i - 1) == PitIdBefore(pitId, b.pages, i);
    }
  }

  /** A loop whose script never reaches a clean empty page fails, and never
      closes the handle. */
  lemma {:induction false} PitLoopFails(configs: Record, keepAlive: string, pitId: string, counter: nat,
                                        startIndex: Value, params: Record, b: Backend)
    requires forall k: nat :: !ClosesAt(b.pages, k)
    ensures var r := PitLoop(configs, keepAlive, pitId, counter, startIndex, params, b);
      && r.err.Some?
      && forall i :: 0 <= i < |r.calls| ==> !r.calls[i].ClosePit?
    decreases |b.pages|
  {
    if b.pages != [] {
      var p := b.pages[0];
      var b' := b.(pages := b.pages[1..]);
      if p.hits == [] {
        assert ClosesAt(b.pages, 0);
      } else if "sort" in p.hits[|p.hits| - 1] {
        forall k: nat ensures !ClosesAt(b'.pages, k) {
          if ClosesAt(b'.pages, k) {
            ClosesAtCons(b.pages, k);
          }
        }
        var sent := Sent(configs, counter, startIndex, params);
        PitLoopUnfold(configs, keepAlive, pitId, counter, startIndex, params, b);
        PitLoopFails(configs, keepAlive, p.pitId, counter + 1, Cursor(p), sent, b');
      }
    }
  }

  /** Point-in-time paging, once the handle is open, ends without error
      exactly when the script reaches an empty page with a sort key on the
      last hit of every earlier page; otherwise it fails and never closes
      the handle. */
  lemma PitRunSucceedsIffCloses(configs: Record, params: Record, b: Backend)
    requires "index" in configs && "index" in params && b.openIds != []
    ensures PitRun(configs, params, b).err == None <==> exists k: nat :: ClosesAt(b.pages, k)
    ensures (forall k: nat :: !ClosesAt(b.pages, k)) ==>
      var r := PitRun(configs, params, b);
      forall i :: 0 <= i < |r.calls| ==> !r.calls[i].ClosePit?
  {
    var keepAlive := KeepAlive(configs);
    var b1 := b.(openIds := b.openIds[1..]);
    var p0 := params - {"index"};
    var r := PitRun(configs, params, b);
    var loop := PitLoop(configs, keepAlive, b.openIds[0], 0, List([]), p0, b1);
    assert r == loop.(calls := [OpenPit(configs["index"], keepAlive)] + loop.calls);
    if exists k: nat :: ClosesAt(b.pages, k) {
      var k: nat :| ClosesAt(b.pages, k);
      PitLoopClosesAt(configs, keepAlive, b.openIds[0], 0, List([]), p0, b1, k);
    } else {
      PitLoopFails(configs, keepAlive, b.openIds[0], 0, List([]), p0, b1);
      forall i | 0 <= i < |r.calls| ensures !r.calls[i].ClosePit? {
        if i > 0 {
          assert r.calls[i] == loop.calls[i - 1];
        }
      }
    }
  }

  /** A paging run that reaches the empty page `k` yields the hits of the
      pages before it, in order, opens once, makes `k + 1` searches, and
      closes once, with the id of the empty page, as its last call; the
      backend is left with the pages after `k`. */
  lemma PitRunCloses(configs: Record, params: Record, b: Backend, k: nat)
    requires "index" in configs && "index" in params && b.openIds != []
    requires ClosesAt(b.pages, k)
    ensures var r := PitRun(configs, params, b);
      && r.err == None
      && r.records == AllHits(b.pages[..k])
      && (forall j :: 0 <= j < k ==> b.pages[j].hits != [])
      && |r.calls| == k + 3
      && r.calls[0] == OpenPit(configs["index"], KeepAlive(configs))
      && r.calls[k + 2] == ClosePit(b.pages[k].pitId)
      && r.backend == b.(openIds := b.openIds[1..], pages := b.pages[k + 1..])
  {
    var keepAlive := KeepAlive(configs);
    var b1 := b.(openIds := b.openIds[1..]);
    var p0 := params - {"index"};
    var loop := PitLoop(configs, keepAlive, b.openIds[0], 0, List([]), p0, b1);
    assert PitRun(configs, params, b) == loop.(calls := [OpenPit(configs["index"], keepAlive)] + loop.calls);
    PitLoopClosesAt(configs, keepAlive, b.openIds[0], 0, List([]), p0, b1, k);
    assert b1.(pages := b.pages[k + 1..]) == b.(openIds := b.openIds[1..], pages := b.pages[k + 1..]);
  }

  /** In a paging run that reaches the empty page `k`, search number `i`
      uses the handle id of the previous response (the opened one first),
      never sends `index`, and sends `search_after` exactly from the second
      search on when a sort is configured, holding the sort key of the
      previous page's last hit. */
  lemma PitRunSearch(configs: Record, params: Record, b: Backend, k: nat, i: nat)
    requires "index" in configs && "index" in params && b.openIds != []
    requires "search_after" !in params
    requires ClosesAt(b.pages, k) && i <= k
    ensures var r := PitRun(configs, params, b);
      && i + 1 < |r.calls|
      && r.calls[i + 1].Search?
      && r.calls[i + 1].pit == PitIdBefore(b.openIds[0], b.pages, i)
      && r.calls[i + 1].keepAlive == KeepAlive(configs)
      && "index" !in r.calls[i + 1].params
      && ("search_after" in r.calls[i + 1].params <==> i > 0 && Truthy(SortSpec(configs)))
      && (i > 0 && Truthy(SortSpec(configs)) ==>
            r.calls[i + 1].params["search_after"] == Cursor(b.pages[i - 1]))
  {
    var keepAlive := KeepAlive(configs);
    var b1 := b.(openIds := b.openIds[1..]);
    var p0 := params - {"index"};
    var loop := PitLoop(configs, keepAlive, b.openIds[0], 0, List([]), p0, b1);
    assert PitRun(configs, params, b) == loop.(calls := [OpenPit(configs["index"], keepAlive)] + loop.calls);
    PitLoopSearches(configs, keepAlive, b.openIds[0], 0, List([]), p0, b1, k, i);
  }
}
