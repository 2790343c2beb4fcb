/** readers.py: the Elasticsearch reader. It flattens every hit and walks
    the date windows, recording one ledger entry per window and yielding one
    batch per non-empty window. */
module Readers {
  import opened PyValues
  import opened Ledgers
  import opened ElasticSearchSdk

  /** What `run_query` yields for a non-empty window. */
  datatype Batch = Batch(date: string, index: Value, data: seq<Value>)

  /** The dictionary `run_query` yields for a batch. */
  function BatchRecord(b: Batch): (r: Record)
    ensures r.Keys == {"date", "index", "data"}
    ensures r["date"] == Str(b.date) && r["index"] == b.index && r["data"] == List(b.data)
  {
    map["date" := Str(b.date), "index" := b.index, "data" := List(b.data)]
  }

  // =====================================================================
  // Flattening one hit

  /** The value `nomalize` returns for `record`: its `field` entry, a dict,
      with `metadata` bound to the rest of the record. A missing field is a
      KeyError; a payload that is not a dict has no `update`. */
  function Flatten(record: Record, field: string): (r: Result<Value>)
    ensures field !in record ==> r == Err(KeyError(field))
    ensures field in record && !record[field].Obj? ==> r == Err(AttributeError("update"))
    ensures r.Ok? <==> field in record && record[field].Obj?
    ensures r.Ok? ==>
      && r.value.Obj?
      && r.value.fields.Keys == record[field].fields.Keys + {"metadata"}
      && r.value.fields["metadata"] == Obj(record - {field})
      && forall k :: k in record[field].fields && k != "metadata" ==>
           r.value.fields[k] == record[field].fields[k]
  {
    if field !in record then Err(KeyError(field))
    else
      match record[field]
      case Obj(payload) => Ok(Obj(payload["metadata" := Obj(record - {field})]))
      case _ => Err(AttributeError("update"))
  }

  /** Puts a flattened hit back together: the payload (without `metadata`)
      under `field`, beside the fields kept under `metadata`. */
  function Unflatten(flat: Value, field: string): (r: Option<Record>)
    ensures r.Some? <==> flat.Obj? && "metadata" in flat.fields && flat.fields["metadata"].Obj?
    ensures r.Some? ==> field in r.value && r.value[field] == Obj(flat.fields - {"metadata"})
  {
    if flat.Obj? && "metadata" in flat.fields && flat.fields["metadata"].Obj? then
      Some(flat.fields["metadata"].fields[field := Obj(flat.fields - {"metadata"})])
    else None
  }

  /** Flattening loses nothing when the payload has no `metadata` key of
      its own: the hit can be rebuilt from the result. */
  lemma FlattenRoundTrip(record: Record, field: string)
    requires field in record && record[field].Obj?
    requires "metadata" !in record[field].fields
    ensures Flatten(record, field).Ok?
    ensures Unflatten(Flatten(record, field).value, field) == Some(record)
  {
    var payload := record[field].fields;
    var flat := payload["metadata" := Obj(record - {field})];
    assert flat - {"metadata"} == payload;
    var rebuilt := (record - {field})[field := Obj(payload)];
    assert rebuilt == record;
  }

  /** `configs["data_field"]`, as the key `nomalize` pops: a string is used
      as is; a list or dict cannot be a key; any other value is never a key
      of a hit, whose keys are strings. */
  function DataField(configs: Record): (r: Result<string>)
    ensures "data_field" !in configs ==> r == Err(KeyError("data_field"))
    ensures r.Ok? <==> "data_field" in configs && configs["data_field"].Str?
    ensures r.Ok? ==> r.value == configs["data_field"].s
    ensures "data_field" in configs && (configs["data_field"].List? || configs["data_field"].Obj?) ==>
      r == Err(Unhashable(configs["data_field"])) && r.error.TypeError?
    ensures "data_field" in configs && (configs["data_field"].Null? || configs["data_field"].Bool? || configs["data_field"].Int?) ==>
      r == Err(KeyError(Render(configs["data_field"])))
  {
    if "data_field" !in configs then Err(KeyError("data_field"))
    else
      var v := configs["data_field"];
      if v.Str? then Ok(v.s)
      else if v.List? || v.Obj? then Err(Unhashable(v))
      else Err(KeyError(Render(v)))
  }

  /** The list comprehension of `run_query`: every hit flattened, in order.
      The field is looked up once per hit, so an empty list never looks at
      it; the first failure wins. */
  function NormalizeAll(records: seq<Record>, field: Result<string>): (r: Result<seq<Value>>)
    ensures records == [] ==> r == Ok([])
    ensures records != [] && field.Err? ==> r == Err(field.error)
    ensures r.Ok? ==> |r.value| == |records|
    decreases |records|
  {
    if records == [] then Ok([])
    else if field.Err? then Err(field.error)
    else
      match Flatten(records[0], field.value)
      case Err(e) => Err(e)
      case Ok(first) =>
        var rest := NormalizeAll(records[1..], field);
        if rest.Err? then Err(rest.error) else Ok([first] + rest.value)
  }

  /** Flattening a list succeeds exactly when every hit flattens, and then
      holds each hit's flattening at the hit's position; otherwise it fails
      with the error of the first hit that does not flatten. */
  lemma {:induction false} NormalizeAllMeaning(records: seq<Record>, field: string)
    ensures var r := NormalizeAll(records, Ok(field));
      && (r.Ok? <==> forall i :: 0 <= i < |records| ==> Flatten(records[i], field).Ok?)
      && (r.Ok? ==> forall i :: 0 <= i < |records| ==> Flatten(records[i], field) == Ok(r.value[i]))
      && (r.Err? ==>
            exists i :: 0 <= i < |records| && Flatten(records[i], field) == Err(r.error)
              && forall j :: 0 <= j < i ==> Flatten(records[j], field).Ok?)
    decreases |records|
  {
    if records != [] {
      NormalizeAllMeaning(records[1..], field);
      assert forall j :: 1 <= j < |records| ==> records[1..][j - 1] == records[j];
      var r := NormalizeAll(records, Ok(field));
      var rest := NormalizeAll(records[1..], Ok(field));
      if Flatten(records[0], field).Ok? && rest.Err? {
        var i :| 0 <= i < |records[1..]| && Flatten(records[1..][i], field) == Err(rest.error)
          && forall j :: 0 <= j < i ==> Flatten(records[1..][j], field).Ok?;
        assert Flatten(records[i + 1], field) == Err(r.error);
      }
    }
  }

  /** One step of the flattening of `records[i..]`. */
  lemma NormalizeAllStep(records: seq<Record>, i: nat, field: string)
    requires i < |records|
    ensures NormalizeAll(records[i..], Ok(field))
      == (match Flatten(records[i], field)
          case Err(e) => Err(e)
          case Ok(v) => Prepend([v], NormalizeAll(records[i + 1..], Ok(field))))
  {
    assert records[i..][0] == records[i];
    assert records[i..][1..] == records[i + 1..];
  }

  /** `self.configs["index"][0]`: the first element of a list, the first
      character of a string. */
  function FirstItem(index: Value): (r: Result<Value>)
    ensures r.Ok? <==> (index.List? && index.items != []) || (index.Str? && index.s != [])
    ensures r.Ok? && index.List? ==> r.value == index.items[0]
    ensures r.Ok? && index.Str? ==> r.value == Str(index.s[..1])
    ensures (index.List? && index.items == []) || (index.Str? && index.s == []) ==> r == Err(IndexError)
    ensures index.Obj? ==> r == Err(KeyError("0"))
    ensures !index.List? && !index.Str? && !index.Obj? ==> r.Err? && r.error.TypeError?
  {
    match index
    case List(xs) => if xs == [] then Err(IndexError) else Ok(xs[0])
    case Str(s) => if s == [] then Err(IndexError) else Ok(Str(s[..1]))
    case Obj(_) => Err(KeyError("0"))
    case _ => Err(TypeError("object is not subscriptable"))
  }

  // =====================================================================
  // What a run yields, as a function of its inputs

  /** One date window: the ledger entries it appends (none when it stops
      before deciding), the batches it yields, the backend calls it makes,
      the backend's final state, and the error that stops the run, if any. */
  datatype Window = Window(
    entries: seq<bool>,
    yielded: seq<Batch>,
    calls: seq<Call>,
    backend: Backend,
    err: Option<Error>)

  /** One turn of the window loop of `run_query`: fresh parameters, paging,
      flattening; then a failure entry for an empty window, or a success
      entry followed by the window's batch. Flattening failures come first,
      as the flattening of every hit yielded precedes a paging failure. */
  function WindowStep(configs: Record, kind: PaginatorKind, syntax: Syntax,
                      window: string, b: Backend): (w: Window)
    ensures |w.entries| <= 1 && |w.yielded| <= |w.entries|
    ensures w.yielded != [] ==> w.entries == [true]
    ensures w.err == None ==> |w.entries| == 1 && (w.entries[0] <==> w.yielded != [])
    ensures w.yielded != [] ==>
      && w.yielded[0].date == RemoveAll(window, '-')
      && w.yielded[0].data != []
      && "index" in configs && FirstItem(configs["index"]) == Ok(w.yielded[0].index)
  {
    match BuildParams(syntax, configs)
    case Err(e) => Window([], [], [], b, Some(e))
    case Ok(params) =>
      var paged := PaginateRun(kind, configs, params, b);
      match NormalizeAll(paged.records, DataField(configs))
      case Err(e) => Window([], [], paged.calls, paged.backend, Some(e))
      case Ok(dataset) =>
        if paged.err.Some? then Window([], [], paged.calls, paged.backend, paged.err)
        else if dataset == [] then Window([false], [], paged.calls, paged.backend, None)
        else
          match FirstItem(configs["index"])
          case Err(e) => Window([true], [], paged.calls, paged.backend, Some(e))
          case Ok(index) =>
            Window([true], [Batch(RemoveAll(window, '-'), index, dataset)], paged.calls, paged.backend, None)
  }

  /** The entries appended to the ledger, the batches yielded (before the
      error, if any), the backend calls made and the backend's final state. */
  datatype Run = Run(
    ledger: seq<bool>,
    batches: seq<Batch>,
    calls: seq<Call>,
    backend: Backend,
    err: Option<Error>)

  /** The window loop of `run_query`, over the window labels. */
  function RunWindows(configs: Record, kind: PaginatorKind, syntax: Syntax,
                      windows: seq<string>, b: Backend): (r: Run)
    ensures windows == [] ==> r == Run([], [], [], b, None)
    ensures r.err == None ==> |r.ledger| == |windows|
    decreases |windows|
  {
    if windows == [] then Run([], [], [], b, None)
    else
      var w := WindowStep(configs, kind, syntax, windows[0], b);
      if w.err.Some? then Stopped(w)
      else Then(w, RunWindows(configs, kind, syntax, windows[1..], w.backend))
  }

  /** A run that stops in window `w`. */
  function Stopped(w: Window): Run {
    Run(w.entries, w.yielded, w.calls, w.backend, w.err)
  }

  /** Window `w` followed by the run of the later windows. */
  function Then(w: Window, rest: Run): Run {
    Run(w.entries + rest.ledger, w.yielded + rest.batches, w.calls + rest.calls, rest.backend, rest.err)
  }

  /** At most `n` ledger entries, at most one batch per success, and every
      batch holds data and the first item of the configured index. */
  ghost predicate Bounded(configs: Record, r: Run, n: nat) {
    && |r.ledger| <= n
    && |r.batches| <= CountTrue(r.ledger)
    && (forall i :: 0 <= i < |r.batches| ==> r.batches[i].data != [])
    && (r.batches != [] ==>
          "index" in configs && forall i :: 0 <= i < |r.batches| ==> FirstItem(configs["index"]) == Ok(r.batches[i].index))
  }

  /** What `WindowStep` promises about one window. */
  ghost predicate WindowShape(configs: Record, w: Window) {
    && |w.entries| <= 1 && |w.yielded| <= |w.entries|
    && (w.yielded != [] ==>
          && w.entries == [true] && w.yielded[0].data != []
          && "index" in configs && FirstItem(configs["index"]) == Ok(w.yielded[0].index))
  }

  lemma StoppedBounded(configs: Record, w: Window)
    requires WindowShape(configs, w)
    ensures Bounded(configs, Stopped(w), 1)
  {
  }

  lemma ThenBounded(configs: Record, w: Window, rest: Run, n: nat)
    requires WindowShape(configs, w) && Bounded(configs, rest, n)
    ensures Bounded(configs, Then(w, rest), n + 1)
  {
    var r := Then(w, rest);
    CountTrueConcat(w.entries, rest.ledger);
    forall i | 0 <= i < |r.batches|
      ensures r.batches[i].data != []
      ensures FirstItem(configs["index"]) == Ok(r.batches[i].index)
    {
      if i >= |w.yielded| {
        assert r.batches[i] == rest.batches[i - |w.yielded|];
      }
    }
  }

  /** Every run appends at most one ledger entry per window and yields at
      most one batch per success; every batch holds data, and its index is
      the first item of the configured index. */
  lemma {:induction false} RunWindowsBounds(configs: Record, kind: PaginatorKind, syntax: Syntax,
                                            windows: seq<string>, b: Backend)
    ensures Bounded(configs, RunWindows(configs, kind, syntax, windows, b), |windows|)
    decreases |windows|
  {
    if windows != [] {
      var w := WindowStep(configs, kind, syntax, windows[0], b);
      assert WindowShape(configs, w);
      if w.err.Some? {
        StoppedBounded(configs, w);
      } else {
        RunWindowsBounds(configs, kind, syntax, windows[1..], w.backend);
        ThenBounded(configs, w, RunWindows(configs, kind, syntax, windows[1..], w.backend), |windows| - 1);
      }
    }
  }

  /** `run_query` after authentication: the paginator and syntax tags are
      resolved before any window is looked at. */
  function RunQuerySpec(configs: Record, windows: seq<string>, b: Backend): (r: Run)
    ensures "paginator" !in configs ==> r.err == Some(KeyError("paginator"))
    ensures "paginator" in configs && GetPaginator(configs["paginator"]).Err? ==>
      r.err == Some(GetPaginator(configs["paginator"]).error)
    ensures "paginator" in configs && GetPaginator(configs["paginator"]).Ok? && "syntax" !in configs ==>
      r.err == Some(KeyError("syntax"))
    ensures ("paginator" in configs && GetPaginator(configs["paginator"]).Ok? && "syntax" in configs
             && GetHandler(configs["syntax"]).Err?) ==> r.err == Some(GetHandler(configs["syntax"]).error)
    ensures !ValidTags(configs) ==> r.ledger == [] && r.batches == [] && r.calls == [] && r.backend == b
  {
    if "paginator" !in configs then Run([], [], [], b, Some(KeyError("paginator")))
    else
      match GetPaginator(configs["paginator"])
      case Err(e) => Run([], [], [], b, Some(e))
      case Ok(kind) =>
        if "syntax" !in configs then Run([], [], [], b, Some(KeyError("syntax")))
        else
          match GetHandler(configs["syntax"])
          case Err(e) => Run([], [], [], b, Some(e))
          case Ok(syntax) => RunWindows(configs, kind, syntax, windows, b)
  }

  /** Both tags name a known paginator and syntax. */
  predicate ValidTags(configs: Record) {
    && "paginator" in configs && GetPaginator(configs["paginator"]).Ok?
    && "syntax" in configs && GetHandler(configs["syntax"]).Ok?
  }

  /** `done` in front of a successful result; a failure as it is. */
  function Prepend(done: seq<Value>, r: Result<seq<Value>>): Result<seq<Value>> {
    if r.Ok? then Ok(done + r.value) else r
  }

  lemma PrependTwice(done: seq<Value>, v: Value, r: Result<seq<Value>>)
    ensures Prepend(done, Prepend([v], r)) == Prepend(done + [v], r)
  {
    if r.Ok? {
      assert done + ([v] + r.value) == (done + [v]) + r.value;
    }
  }

  // =====================================================================
  // The reader

  class ElasticSearchReader {
    const configs: Record
    const secrets: Record
    var service: Cluster?
    const success: Ledger

    /** `__init__`, given the two loaded files: no service yet, and a ledger
        of its own, empty. */
    constructor (configs: Record, secrets: Record)
      ensures this.configs == configs && this.secrets == secrets
      ensures service == null
      ensures fresh(success) && success.entries == []
    {
      this.configs := configs;
      this.secrets := secrets;
      service := null;
      success := new Ledger();
    }

    /** `nomalize`: pops `field` from the hit (even when the payload then
        proves not to be a dict) and returns the flattened payload. */
    method Nomalize(data: Dict, field: string) returns (r: Result<Value>)
      modifies data
      ensures r == Flatten(old(data.entries), field)
      ensures data.entries == old(data.entries) - {field}
    {
      var popped := data.Pop(field);
      if popped.Err? {
        return Err(popped.error);
      }
      match popped.value
      case Obj(payload) =>
        r := Ok(Obj(payload["metadata" := Obj(data.entries)]));
      case _ =>
        r := Err(AttributeError("update"));
    }

    /** The list comprehension of `run_query`: each hit, as its own dict,
        goes through `nomalize`, and the data field is looked up again for
        every hit. */
    method NormalizeRecords(records: seq<Record>) returns (dataset: Result<seq<Value>>)
      ensures dataset == NormalizeAll(records, DataField(configs))
    {
      var done: seq<Value> := [];
      assert records[0..] == records;
      ghost var all := NormalizeAll(records, DataField(configs));
      if all.Ok? {
        assert [] + all.value == all.value;
      }
      for i := 0 to |records|
        invariant all == Prepend(done, NormalizeAll(records[i..], DataField(configs)))
      {
        var field := DataField(configs);
        if field.Err? {
          return Err(field.error);
        }
        var hit := new Dict(records[i]);
        var flat := Nomalize(hit, field.value);
        NormalizeAllStep(records, i, field.value);
        if flat.Err? {
          return Err(flat.error);
        }
        PrependTwice(done, flat.value, NormalizeAll(records[i + 1..], DataField(configs)));
        done := done + [flat.value];
      }
      assert records[|records|..] == [];
      assert done + [] == done;
      return Ok(done);
    }

    /** `_query_handler`: passes on what the paginator yields. */
    method QueryHandler(kind: PaginatorKind, searchParams: Dict)
      returns (records: seq<Record>, err: Option<Error>)
      requires service != null
      modifies service, searchParams
      ensures var r := PaginateRun(kind, configs, old(searchParams.entries), old(service.backend));
        && records == r.records && err == r.err
        && searchParams.entries == r.params
        && service.backend == r.backend
        && service.calls == old(service.calls) + r.calls
    {
      records, err := Paginate(kind, service, configs, searchParams);
    }

    /** `run_query`, with the authenticated client and the window labels
        given: returns the batches yielded before the run stopped and the
        error that stopped it, if any. */
    method RunQuery(auth: Cluster, windows: seq<string>) returns (batches: seq<Batch>, err: Option<Error>)
      modifies this, success, auth
      ensures service == auth
      ensures var r := RunQuerySpec(configs, windows, old(auth.backend));
        && batches == r.batches && err == r.err
        && success.entries == old(success.entries) + r.ledger
        && auth.backend == r.backend
        && auth.calls == old(auth.calls) + r.calls
    {
      service := auth;
      if "paginator" !in configs {
        return [], Some(KeyError("paginator"));
      }
      var paginator := GetPaginator(configs["paginator"]);
      if paginator.Err? {
        return [], Some(paginator.error);
      }
      if "syntax" !in configs {
        return [], Some(KeyError("syntax"));
      }
      var handler := GetHandler(configs["syntax"]);
      if handler.Err? {
        return [], Some(handler.error);
      }
      var kind := paginator.value;
      var syntax := handler.value;
      ghost var whole := RunWindows(configs, kind, syntax, windows, auth.backend);
      ghost var ledger0 := success.entries;
      ghost var calls0 := auth.calls;
      ghost var rest := whole;
      batches := [];
      assert windows[0..] == windows;
      for i := 0 to |windows|
        invariant service == auth
        invariant rest == RunWindows(configs, kind, syntax, windows[i..], auth.backend)
        invariant RunAgrees(whole, ledger0, success.entries, batches, calls0, auth.calls, rest)
      {
        ghost var ledger1 := success.entries;
        ghost var calls1 := auth.calls;
        ghost var done := batches;
        ghost var w := WindowStep(configs, kind, syntax, windows[i], auth.backend);
        assert windows[i..][0] == windows[i];
        assert windows[i..][1..] == windows[i + 1..];
        var yielded, stop := ProcessWindow(kind, syntax, windows[i]);
        batches := batches + yielded;
        if stop.Some? {
          RunAgreesStop(whole, ledger0, ledger1, done, calls0, calls1, rest, w);
          return batches, stop;
        }
        ghost var rest' := RunWindows(configs, kind, syntax, windows[i + 1..], auth.backend);
        RunAgreesStep(whole, ledger0, ledger1, done, calls0, calls1, rest, w, rest');
        rest := rest';
      }
      assert windows[|windows|..] == [];
      err := None;
    }

    /** One turn of the window loop of `run_query`, on the authenticated
        client: builds fresh parameters, pages, flattens, records the
        outcome and yields the batch, if any. */
    method ProcessWindow(kind: PaginatorKind, syntax: Syntax, window: string)
      returns (yielded: seq<Batch>, stop: Option<Error>)
      requires service != null
      modifies service, success
      ensures var w := WindowStep(configs, kind, syntax, window, old(service.backend));
        && yielded == w.yielded && stop == w.err
        && success.entries == old(success.entries) + w.entries
        && service.backend == w.backend
        && service.calls == old(service.calls) + w.calls
    {
      var built := BuildParams(syntax, configs);
      if built.Err? {
        return [], Some(built.error);
      }
      var searchParams := new Dict(built.value);
      var records, pageErr := QueryHandler(kind, searchParams);
      var dataset := NormalizeRecords(records);
      if dataset.Err? {
        return [], Some(dataset.error);
      }
      if pageErr.Some? {
        return [], pageErr;
      }
      if dataset.value == [] {
        success.NotSuccess();
        return [], None;
      }
      success.IsSuccess();
      var index := FirstItem(configs["index"]);
      if index.Err? {
        return [], Some(index.error);
      }
      yielded := [Batch(RemoveAll(window, '-'), index.value, dataset.value)];
      stop := None;
    }
  }

  /** The loop has appended the ledger entries after `ledger0`, yielded
      `batches` and made the calls after `calls0`; what is left of it
      produces `rest`: together they make up `whole`. */
  ghost predicate RunAgrees(whole: Run, ledger0: seq<bool>, ledger: seq<bool>, batches: seq<Batch>,
                            calls0: seq<Call>, calls: seq<Call>, rest: Run) {
    && ledger0 + whole.ledger == ledger + rest.ledger
    && whole.batches == batches + rest.batches
    && calls0 + whole.calls == calls + rest.calls
    && whole.backend == rest.backend
    && whole.err == rest.err
  }

  lemma RunAgreesStep(whole: Run, ledger0: seq<bool>, ledger: seq<bool>, batches: seq<Batch>,
                      calls0: seq<Call>, calls: seq<Call>, rest: Run, w: Window, rest': Run)
    requires RunAgrees(whole, ledger0, ledger, batches, calls0, calls, rest)
    requires rest == Run(w.entries + rest'.ledger, w.yielded + rest'.batches, w.calls + rest'.calls,
                         rest'.backend, rest'.err)
    ensures RunAgrees(whole, ledger0, ledger + w.entries, batches + w.yielded, calls0, calls + w.calls, rest')
  {
    assert ledger + (w.entries + rest'.ledger) == (ledger + w.entries) + rest'.ledger;
    assert batches + (w.yielded + rest'.batches) == (batches + w.yielded) + rest'.batches;
    assert calls + (w.calls + rest'.calls) == (calls + w.calls) + rest'.calls;
  }

  lemma RunAgreesStop(whole: Run, ledger0: seq<bool>, ledger: seq<bool>, batches: seq<Batch>,
                      calls0: seq<Call>, calls: seq<Call>, rest: Run, w: Window)
    requires RunAgrees(whole, ledger0, ledger, batches, calls0, calls, rest)
    requires rest == Run(w.entries, w.yielded, w.calls, w.backend, w.err)
    ensures ledger0 + whole.ledger == ledger + w.entries
    ensures whole.batches == batches + w.yielded
    ensures calls0 + whole.calls == calls + w.calls
    ensures whole.backend == w.backend && whole.err == w.err
  {
  }

  // =====================================================================
  // Properties of a run

  /** The labels, stripped of `-`, of the windows whose ledger entry is a
      success. */
  function KeptDates(windows: seq<string>, ledger: seq<bool>): (r: seq<string>)
    requires |windows| == |ledger|
    ensures |r| == CountTrue(ledger)
  {
    if windows == [] then []
    else (if ledger[0] then [RemoveAll(windows[0], '-')] else []) + KeptDates(windows[1..], ledger[1..])
  }

  function Dates(batches: seq<Batch>): (r: seq<string>)
    ensures |r| == |batches|
    ensures forall i :: 0 <= i < |batches| ==> r[i] == batches[i].date
  {
    if batches == [] then [] else [batches[0].date] + Dates(batches[1..])
  }

  /** A run that ends without error has one ledger entry per window and
      one batch per success, and the batches come out in window order,
      dated by their window's label without `-`. */
  lemma {:induction false} RunWindowsComplete(configs: Record, kind: PaginatorKind, syntax: Syntax,
                                              windows: seq<string>, b: Backend)
    requires RunWindows(configs, kind, syntax, windows, b).err == None
    ensures var r := RunWindows(configs, kind, syntax, windows, b);
      && |r.ledger| == |windows|
      && |r.batches| == CountTrue(r.ledger)
      && Dates(r.batches) == KeptDates(windows, r.ledger)
    decreases |windows|
  {
    if windows != [] {
      var r := RunWindows(configs, kind, syntax, windows, b);
      var w := WindowStep(configs, kind, syntax, windows[0], b);
      var rest := RunWindows(configs, kind, syntax, windows[1..], w.backend);
      RunWindowsComplete(configs, kind, syntax, windows[1..], w.backend);
      CountTrueConcat(w.entries, rest.ledger);
      assert r.ledger[0] == w.entries[0] && r.ledger[1..] == rest.ledger;
      if w.entries[0] {
        assert r.batches == [w.yielded[0]] + rest.batches;
        assert Dates(r.batches)[1..] == Dates(rest.batches);
      } else {
        assert r.batches == rest.batches;
      }
    }
  }

  /** A window whose parameters build and whose paging and flattening
      succeed: an empty window records a failure and yields nothing; a
      non-empty one records a success and then yields one batch, dated by
      the window's label without `-`, holding the flattened hits in paging order. */
  lemma WindowOutcome(configs: Record, kind: PaginatorKind, syntax: Syntax, window: string, b: Backend)
    requires BuildParams(syntax, configs).Ok?
    requires PaginateRun(kind, configs, BuildParams(syntax, configs).value, b).err == None
    requires NormalizeAll(PaginateRun(kind, configs, BuildParams(syntax, configs).value, b).records,
                          DataField(configs)).Ok?
    ensures
      var paged := PaginateRun(kind, configs, BuildParams(syntax, configs).value, b);
      var dataset := NormalizeAll(paged.records, DataField(configs)).value;
      var w := WindowStep(configs, kind, syntax, window, b);
      && w.calls == paged.calls
      && (paged.records == [] ==> w == Window([false], [], paged.calls, paged.backend, None))
      && (paged.records != [] ==> w.entries == [true])
      && (paged.records != [] && FirstItem(configs["index"]).Ok? ==>
            && w.yielded == [Batch(RemoveAll(window, '-'), FirstItem(configs["index"]).value, dataset)]
            && |dataset| == |paged.records|
            && (forall i :: 0 <= i < |dataset| ==>
                  Flatten(paged.records[i], DataField(configs).value) == Ok(dataset[i])))
  {
    var paged := PaginateRun(kind, configs, BuildParams(syntax, configs).value, b);
    if paged.records != [] {
      NormalizeAllMeaning(paged.records, DataField(configs).value);
    }
  }

  lemma RemoveAllDropsDash(x: string)
    ensures RemoveAll("-" + x, '-') == RemoveAll(x, '-')
  {
    assert ("-" + x)[1..] == x;
  }

  lemma RemoveAllDashJoin(a: string, b: string)
    ensures RemoveAll(a + "-" + b, '-') == RemoveAll(a, '-') + RemoveAll(b, '-')
  {
    assert a + "-" + b == a + ("-" + b);
    RemoveAllConcat(a, "-" + b, '-');
    RemoveAllDropsDash(b);
  }

  /** A label `year-month-day` whose parts hold no `-` gives the batch date
      `yearmonthday`. */
  lemma BatchDateOfLabel(year: string, month: string, day: string)
    requires '-' !in year && '-' !in month && '-' !in day
    ensures RemoveAll(year + "-" + month + "-" + day, '-') == year + month + day
  {
    RemoveAllDashJoin(year + "-" + month, day);
    RemoveAllDashJoin(year, month);
    RemoveAllAbsent(year, '-');
    RemoveAllAbsent(month, '-');
    RemoveAllAbsent(day, '-');
  }
}
