/** What the storage side asks the outside world to do. Physical I/O (the
    bytes written, the SDK calls that carry them) is not modelled; an effect
    records the target and the data handed over. */
module Effects {
  import opened PyValues

  /** The object stores the cloud sinks talk to. */
  datatype Store = S3 | CloudStorage

  /** The encoding a sink applies before persisting. */
  datatype Format = Json | Csv | GzipJson

  datatype Effect =
    | PutObject(store: Store, bucket: string, key: string, format: Format, data: Value)
    | MakeDirs(path: string)
    | WriteFile(path: string, mode: string, format: Format, data: Value)
}
