/** base_writers.py: the destination table and the five storage sinks. A
    sink turns a partition path and a batch into the store calls that
    persist it; the bytes it encodes and the SDK calls that carry them are
    not modelled, only their targets and the data handed over. */
module BaseWriters {
  import opened PyValues
  import opened Effects

  /** The five sink classes `_get_resource` knows. */
  datatype Destination = AwsS3Json | GcpCloudStorageJson | LocalJson | LocalCsv | AwsS3Gzip

  /** The identifier that selects each sink. */
  function DestinationId(d: Destination): string {
    match d
    case AwsS3Json => "aws_s3_json"
    case GcpCloudStorageJson => "gcp_cloudstorage_json"
    case LocalJson => "local_json"
    case LocalCsv => "local_csv"
    case AwsS3Gzip => "aws_s3_gzip"
  }

  const AllowedIds: set<string> :=
    {"aws_s3_json", "gcp_cloudstorage_json", "local_json", "local_csv", "aws_s3_gzip"}

  const WrongDestination: string :=
    "writer destination is wrong! allowed values: \n"
    + "['aws_s3_json', 'gcp_cloudstorage_json', 'local_json', 'local_csv', 'aws_s3_gzip']"

  /** `BaseWriter._get_resource`: exactly the five identifiers select a
      sink; anything else raises NotImplementedError. */
  function GetResource(destination: string): (r: Result<Destination>)
    ensures r.Ok? <==> destination in AllowedIds
    ensures r.Ok? ==> DestinationId(r.value) == destination
    ensures r.Err? ==> r.error == NotImplementedError(WrongDestination)
  {
    if destination == "aws_s3_json" then Ok(AwsS3Json)
    else if destination == "gcp_cloudstorage_json" then Ok(GcpCloudStorageJson)
    else if destination == "local_json" then Ok(LocalJson)
    else if destination == "local_csv" then Ok(LocalCsv)
    else if destination == "aws_s3_gzip" then Ok(AwsS3Gzip)
    else Err(NotImplementedError(WrongDestination))
  }

  /** Every sink is selected by its own identifier, and by no other. */
  lemma GetResourceSelects(d: Destination, destination: string)
    ensures GetResource(DestinationId(d)) == Ok(d)
    ensures GetResource(destination) == Ok(d) <==> destination == DestinationId(d)
  {
  }

  /** The suffix each sink appends to the partition path. */
  function Suffix(d: Destination): string {
    match d
    case AwsS3Json => ".json"
    case GcpCloudStorageJson => ".json"
    case LocalJson => ".json"
    case LocalCsv => ".csv"
    case AwsS3Gzip => ".gzip"
  }

  predicate IsLocal(d: Destination) {
    d == LocalJson || d == LocalCsv
  }

  /** What each sink's `write_to_destination` does with a partition path and
      a batch. The cloud sinks make one store call under the path plus the
      sink's suffix (for Cloud Storage that string is the `media_body`
      argument of the insert). The local sinks first create
      `bucket/<path up to its last '/'>`, then write `bucket/<path><suffix>`. */
  function SinkEffects(d: Destination, bucket: string, writePath: string, data: Value): (effects: seq<Effect>)
    ensures |effects| == (if IsLocal(d) then 2 else 1)
    ensures !IsLocal(d) ==>
      && effects[0].PutObject?
      && effects[0].bucket == bucket && effects[0].data == data
      && effects[0].key == writePath + Suffix(d)
    ensures IsLocal(d) ==>
      && effects[0] == MakeDirs(bucket + "/" + RSplitHead(writePath, '/'))
      && effects[1].WriteFile? && effects[1].mode == "w" && effects[1].data == data
      && effects[1].path == bucket + "/" + writePath + Suffix(d)
  {
    match d
    case AwsS3Json => [PutObject(S3, bucket, writePath + ".json", Json, data)]
    case GcpCloudStorageJson => [PutObject(CloudStorage, bucket, writePath + ".json", Json, data)]
    case AwsS3Gzip => [PutObject(S3, bucket, writePath + ".gzip", GzipJson, data)]
    case LocalJson =>
      [MakeDirs(bucket + "/" + RSplitHead(writePath, '/')),
       WriteFile(bucket + "/" + writePath + ".json", "w", Json, data)]
    case LocalCsv =>
      [MakeDirs(bucket + "/" + RSplitHead(writePath, '/')),
       WriteFile(bucket + "/" + writePath + ".csv", "w", Csv, data)]
  }

  /** Where a sink call persists the batch: the key of the store call, or
      the path of the file written. */
  function Persisted(d: Destination, bucket: string, writePath: string, data: Value): string {
    var effects := SinkEffects(d, bucket, writePath, data);
    var last := effects[|effects| - 1];
    if last.PutObject? then last.key else if last.WriteFile? then last.path else ""
  }

  /** The persisted location ends with the sink's suffix, and dropping the
      suffix gives back the partition path (under `bucket/` for the local
      sinks): different partition paths never collide in one sink. */
  lemma PersistedStripsToPath(d: Destination, bucket: string, writePath: string, data: Value)
    ensures var p := Persisted(d, bucket, writePath, data);
      && EndsWith(p, Suffix(d))
      && p[..|p| - |Suffix(d)|] == (if IsLocal(d) then bucket + "/" + writePath else writePath)
  {
    var p := Persisted(d, bucket, writePath, data);
    var base := if IsLocal(d) then bucket + "/" + writePath else writePath;
    assert p == base + Suffix(d);
    assert p[|p| - |Suffix(d)|..] == Suffix(d);
    assert p[..|p| - |Suffix(d)|] == base;
  }

  lemma {:induction false} PersistedInjective(d: Destination, bucket: string, path1: string, path2: string, data: Value)
    requires Persisted(d, bucket, path1, data) == Persisted(d, bucket, path2, data)
    ensures path1 == path2
  {
    PersistedStripsToPath(d, bucket, path1, data);
    PersistedStripsToPath(d, bucket, path2, data);
    if IsLocal(d) {
      var prefix := bucket + "/";
      assert (prefix + path1)[|prefix|..] == path1;
      assert (prefix + path2)[|prefix|..] == path2;
    }
  }

  /** A local sink writes its file inside the directory it creates when the
      partition path holds a `/`: the file is that directory, a `/`, the last
      segment of the path and the suffix. */
  lemma {:induction false} LocalFileInCreatedDir(d: Destination, bucket: string, dir: string, name: string, data: Value)
    requires IsLocal(d) && '/' !in name
    ensures var effects := SinkEffects(d, bucket, dir + "/" + name, data);
      && effects[0] == MakeDirs(bucket + "/" + dir)
      && effects[1].path == effects[0].path + "/" + name + Suffix(d)
  {
    RSplitJoin(dir, '/', name);
    assert dir + "/" + name == dir + ['/'] + name;
  }

  /** A sink object (`AWSS3JSONWriter`, `GCPCloudStorageJSONWriter`,
      `LocalJSONWriter`, `LocalCSVWriter` or `AWSS3GZIPWriter`), with the
      store calls it has performed so far. */
  class Sink {
    const destination: Destination
    const bucket: string
    var performed: seq<Effect>

    constructor (destination: Destination, bucket: string)
      ensures this.destination == destination && this.bucket == bucket
      ensures performed == []
    {
      this.destination := destination;
      this.bucket := bucket;
      performed := [];
    }

    /** `write_to_destination` */
    method WriteToDestination(writePath: string, data: Value)
      modifies this
      ensures performed == old(performed) + SinkEffects(destination, bucket, writePath, data)
    {
      performed := performed + SinkEffects(destination, bucket, writePath, data);
    }
  }
}
