/** writers.py together with `BaseWriter` of base_writers.py: the
    Elasticsearch writer checks a batch, builds its partition path and hands
    non-empty data to its sink, recording one ledger entry per batch. */
module Writers {
  import opened PyValues
  import opened Effects
  import opened Ledgers
  import opened BaseWriters
  import opened Readers

  /** `f"{folder_path}/{index}/{date}"` */
  function WritePath(folderPath: string, index: Value, date: Value): (r: string)
    ensures |r| > |folderPath| && r[..|folderPath| + 1] == folderPath + "/"
    ensures EndsWith(r, "/" + Render(date))
    ensures r[|folderPath| + 1..] == Render(index) + "/" + Render(date)
  {
    folderPath + "/" + Render(index) + "/" + Render(date)
  }

  /** The partition path splits back into the folder, the index and the
      date when neither of the last two renders with a `/`. */
  lemma {:induction false} WritePathSplits(folderPath: string, index: Value, date: Value)
    requires '/' !in Render(index) && '/' !in Render(date)
    ensures var p := WritePath(folderPath, index, date);
      && RSplitLast(p, '/') == Render(date)
      && RSplitLast(RSplitHead(p, '/'), '/') == Render(index)
      && RSplitHead(RSplitHead(p, '/'), '/') == folderPath
  {
    var p := WritePath(folderPath, index, date);
    var head := folderPath + "/" + Render(index);
    assert p == head + ['/'] + Render(date);
    RSplitJoin(head, '/', Render(date));
    assert head == folderPath + ['/'] + Render(index);
    RSplitJoin(folderPath, '/', Render(index));
  }

  /** A batch yielded by the reader is accepted by the writer's check and
      carries data, so `write_data` hands it to the sink under
      `<folder>/<index>/<date>`. */
  lemma ReaderBatchIsWritable(writer: ElasticSearchWriter, b: Batch)
    requires b.data != []
    ensures writer.VerifyData(BatchRecord(b)).Ok?
    ensures writer.VerifyData(BatchRecord(b)).value == (WritePath(writer.folderPath, b.index, Str(b.date)), List(b.data))
    ensures Truthy(writer.VerifyData(BatchRecord(b)).value.1)
  {
  }

  class ElasticSearchWriter {
    const bucket: string
    const folderPath: string
    const destination: string
    const configs: Value
    const resource: Sink
    const success: Ledger

    /** `__init__`: a ledger of its own, then the sink `_get_resource`
        selects, which exists only for a known destination. */
    constructor (bucket: string, folderPath: string, destination: string, configs: Value)
      requires GetResource(destination).Ok?
      ensures this.bucket == bucket && this.folderPath == folderPath
      ensures this.destination == destination && this.configs == configs
      ensures fresh(success) && success.entries == []
      ensures fresh(resource) && resource.performed == []
      ensures resource.destination == GetResource(destination).value && resource.bucket == bucket
    {
      success := new Ledger();
      this.bucket := bucket;
      this.folderPath := folderPath;
      this.destination := destination;
      this.configs := configs;
      resource := new Sink(GetResource(destination).value, bucket);
    }

    /** `verify_data`: looks up `data`, `date` and `index` in that order and
        returns the partition path with the data unchanged; nothing else is
        checked. */
    function VerifyData(payload: Record): (r: Result<(string, Value)>)
      ensures "data" !in payload ==> r == Err(KeyError("data"))
      ensures "data" in payload && "date" !in payload ==> r == Err(KeyError("date"))
      ensures "data" in payload && "date" in payload && "index" !in payload ==> r == Err(KeyError("index"))
      ensures r.Ok? <==> "data" in payload && "date" in payload && "index" in payload
      ensures r.Ok? ==>
        && r.value.1 == payload["data"]
        && r.value.0 == WritePath(folderPath, payload["index"], payload["date"])
    {
      if "data" !in payload then Err(KeyError("data"))
      else if "date" !in payload then Err(KeyError("date"))
      else if "index" !in payload then Err(KeyError("index"))
      else Ok((WritePath(folderPath, payload["index"], payload["date"]), payload["data"]))
    }

    /** `write_data`: a payload that fails verification changes nothing;
        falsy data records a failure without calling the sink; otherwise the
        sink is called once and a success is recorded after it. */
    method WriteData(payload: Record) returns (err: Option<Error>)
      modifies resource, success
      ensures VerifyData(payload).Err? ==>
        && err == Some(VerifyData(payload).error)
        && resource.performed == old(resource.performed)
        && success.entries == old(success.entries)
      ensures VerifyData(payload).Ok? && !Truthy(VerifyData(payload).value.1) ==>
        && err == None
        && resource.performed == old(resource.performed)
        && success.entries == old(success.entries) + [false]
      ensures VerifyData(payload).Ok? && Truthy(VerifyData(payload).value.1) ==>
        && err == None
        && resource.performed
           == old(resource.performed)
              + SinkEffects(resource.destination, resource.bucket, VerifyData(payload).value.0, VerifyData(payload).value.1)
        && success.entries == old(success.entries) + [true]
    {
      var verified := VerifyData(payload);
      if verified.Err? {
        return Some(verified.error);
      }
      var (writePath, data) := verified.value;
      if !Truthy(data) {
        success.NotSuccess();
        return None;
      }
      resource.WriteToDestination(writePath, data);
      success.IsSuccess();
      err := None;
    }
  }

  /** Constructing an `ElasticSearchWriter`: raises NotImplementedError for
      an unknown destination, before any sink exists. */
  method NewElasticSearchWriter(bucket: string, folderPath: string, destination: string, configs: Value)
    returns (r: Result<ElasticSearchWriter>)
    ensures r.Err? <==> destination !in AllowedIds
    ensures r.Err? ==> r.error == NotImplementedError(WrongDestination)
    ensures r.Ok? ==>
      && fresh(r.value) && fresh(r.value.success) && fresh(r.value.resource)
      && r.value.success.entries == [] && r.value.resource.performed == []
      && DestinationId(r.value.resource.destination) == destination
      && r.value.folderPath == folderPath && r.value.bucket == bucket
  {
    var resource := GetResource(destination);
    if resource.Err? {
      return Err(resource.error);
    }
    var writer := new ElasticSearchWriter(bucket, folderPath, destination, configs);
    return Ok(writer);
  }
}
