/** api_utilities/file_managers.py: choosing the parser for a config file,
    and planning the directory and file a local JSON dump goes to. Reading,
    parsing and writing are effects and are not modelled. */
module FileManagers {
  import opened PyValues
  import opened Effects

  datatype Parser = YamlParser | JsonParser

  /** What `load_file` returns: the given file parsed by one parser, or
      the empty dict it starts from. */
  datatype Config = Parsed(parser: Parser, path: string) | EmptyConfig

  const WrongFileType := "Wrong file type provided! Expecting only json and yaml files"

  const AcceptedExtensions: set<string> := {"json", "yml", "yaml"}

  /** `file_location.strip().rsplit(".", maxsplit=1)[-1]`: what follows the
      last `.`, or the whole stripped path when it has none. */
  function Extension(location: string): (r: string)
    ensures '.' !in r
    ensures '.' !in Strip(location) ==> r == Strip(location)
    ensures EndsWith(Strip(location), r)
  {
    RSplitLastIsSuffix(Strip(location), '.');
    RSplitLast(Strip(location), '.')
  }

  /** The two independent suffix tests `load_file` makes on the stripped
      path: `yml` selects YAML, then `json` selects JSON; a path matching
      neither keeps the empty config. */
  function ParserFor(path: string): (r: Config)
    ensures r.Parsed? ==> r.path == path
    ensures r.Parsed? && r.parser == JsonParser <==> EndsWith(path, "json")
    ensures r == EmptyConfig <==> !EndsWith(path, "json") && !EndsWith(path, "yml")
  {
    var config := if EndsWith(path, "yml") then Parsed(YamlParser, path) else EmptyConfig;
    if EndsWith(path, "json") then Parsed(JsonParser, path) else config
  }

  /** The body of `load_file` once the path is stripped and its extension
      taken: the extension check, then the suffix tests. */
  function Load(extension: string, path: string): (r: Result<Config>)
    ensures r.Ok? <==> extension in AcceptedExtensions
    ensures r.Err? ==> r.error == TypeError(WrongFileType)
    ensures r.Ok? && r.value.Parsed? ==> r.value.path == path
  {
    if extension !in AcceptedExtensions then Err(TypeError(WrongFileType))
    else Ok(ParserFor(path))
  }

  /** `load_file`, as written. A `.yaml` path passes the extension check and
      matches neither suffix test. */
  function LoadFile(location: string): (r: Result<Config>)
    ensures r.Ok? <==> Extension(location) in AcceptedExtensions
    ensures r.Err? ==> r.error == TypeError(WrongFileType)
    ensures r.Ok? && r.value.Parsed? ==> r.value.path == Strip(location)
  {
    Load(Extension(location), Strip(location))
  }

  /** The stripped path ends with its extension. */
  lemma EndsWithExtension(location: string)
    ensures EndsWith(Strip(location), Extension(location))
  {
  }

  lemma ParserForJson(path: string)
    requires EndsWith(path, "json")
    ensures ParserFor(path) == Parsed(JsonParser, path)
  {
  }

  lemma ParserForYml(path: string)
    requires EndsWith(path, "yml")
    ensures ParserFor(path) == Parsed(YamlParser, path)
  {
    assert path[|path| - 1] == 'l';
  }

  lemma ParserForYaml(path: string)
    requires EndsWith(path, "yaml")
    ensures ParserFor(path) == EmptyConfig
  {
    var n := |path|;
    assert path[n - 1] == 'l';
    assert path[n - 3] == 'a';
  }

  lemma LoadDispatch(extension: string, path: string)
    requires EndsWith(path, extension)
    ensures extension == "json" ==> Load(extension, path) == Ok(Parsed(JsonParser, path))
    ensures extension == "yml" ==> Load(extension, path) == Ok(Parsed(YamlParser, path))
    ensures extension == "yaml" ==> Load(extension, path) == Ok(EmptyConfig)
  {
    if extension == "json" {
      ParserForJson(path);
    } else if extension == "yml" {
      ParserForYml(path);
    } else if extension == "yaml" {
      ParserForYaml(path);
    }
  }

  /** An accepted path goes to the parser its extension names: `json` to
      JSON and `yml` to YAML, while `yaml` reaches no parser and yields the
      empty config. */
  lemma LoadFileDispatch(location: string)
    ensures Extension(location) == "json" ==> LoadFile(location) == Ok(Parsed(JsonParser, Strip(location)))
    ensures Extension(location) == "yml" ==> LoadFile(location) == Ok(Parsed(YamlParser, Strip(location)))
    ensures Extension(location) == "yaml" ==> LoadFile(location) == Ok(EmptyConfig)
  {
    EndsWithExtension(location);
    LoadDispatch(Extension(location), Strip(location));
  }

  /** A config named `configs.yaml` is accepted and then never read. */
  lemma LoadFileDropsYaml()
    ensures LoadFile("configs.yaml") == Ok(EmptyConfig)
  {
    var path := "configs" + ['.'] + "yaml";
    assert path == "configs.yaml";
    StripKeeps(path);
    RSplitJoin("configs", '.', "yaml");
    assert Extension(path) == "yaml";
    LoadFileDispatch(path);
  }

  /** The corrected body: `json` goes to the JSON parser, and `yml` and
      `yaml` both go to the YAML parser. */
  function LoadIntended(extension: string, path: string): (r: Result<Config>)
    ensures r.Ok? <==> extension in AcceptedExtensions
    ensures r.Err? ==> r.error == TypeError(WrongFileType)
    ensures r.Ok? ==> r.value.Parsed? && r.value.path == path
  {
    if extension !in AcceptedExtensions then Err(TypeError(WrongFileType))
    else if extension == "json" then Ok(Parsed(JsonParser, path))
    else Ok(Parsed(YamlParser, path))
  }

  /** `load_file` as its extension check evidently intends: every accepted
      file is read. */
  function LoadFileIntended(location: string): (r: Result<Config>)
    ensures r.Ok? <==> Extension(location) in AcceptedExtensions
    ensures r.Err? ==> r.error == TypeError(WrongFileType)
    ensures r.Ok? ==> r.value.Parsed? && r.value.path == Strip(location)
  {
    LoadIntended(Extension(location), Strip(location))
  }

  lemma LoadIntendedAgrees(extension: string, path: string)
    requires EndsWith(path, extension) && extension in AcceptedExtensions
    ensures LoadIntended(extension, path).Ok? && LoadIntended(extension, path).value.Parsed?
    ensures Load(extension, path).value.Parsed? ==> LoadIntended(extension, path) == Load(extension, path)
    ensures Load(extension, path).value.EmptyConfig? <==> extension == "yaml"
  {
    LoadDispatch(extension, path);
    assert extension == "json" || extension == "yml" || extension == "yaml";
  }

  /** Every accepted path is read, and the correction changes only the
      `.yaml` case: wherever `load_file` reads a file, the corrected version
      reads it with the same parser. */
  lemma LoadFileIntendedAgrees(location: string)
    requires Extension(location) in AcceptedExtensions
    ensures LoadFileIntended(location).Ok? && LoadFileIntended(location).value.Parsed?
    ensures LoadFile(location).value.Parsed? ==> LoadFileIntended(location) == LoadFile(location)
    ensures LoadFile(location).value.EmptyConfig? <==> Extension(location) == "yaml"
  {
    EndsWithExtension(location);
    LoadIntendedAgrees(Extension(location), Strip(location));
  }

  // ---------------------------------------------------------------------
  // local_json_writer

  const MissingFilename := "please proivde a destination filename"

  /** The directory `local_json_writer` writes into: the root, or
      `root/folder` when a folder is given. */
  function FileDir(rootDir: string, folderPath: Value): (dir: string)
    ensures !Truthy(folderPath) ==> dir == rootDir
    ensures Truthy(folderPath) ==> dir == rootDir + "/" + Render(folderPath)
  {
    if Truthy(folderPath) then rootDir + "/" + Render(folderPath) else rootDir
  }

  /** `local_json_writer`: the directory is created first, whatever the
      filename; then a missing or blank filename raises ValueError, and
      otherwise `<dir>/<filename>.json` is written with the payload. */
  function LocalJsonWriter(payload: Value, filename: Value, rootDir: string, folderPath: Value, mode: string)
    : (r: (seq<Effect>, Option<Error>))
    ensures |r.0| >= 1 && r.0[0] == MakeDirs(FileDir(rootDir, folderPath))
    ensures r.1.Some? <==> filename == Null || Strip(Render(filename)) == ""
    ensures r.1.Some? ==> r.1 == Some(ValueError(MissingFilename)) && |r.0| == 1
    ensures r.1.None? ==>
      && |r.0| == 2
      && r.0[1] == WriteFile(FileDir(rootDir, folderPath) + "/" + Render(filename) + ".json", mode, Json, payload)
  {
    var dir := FileDir(rootDir, folderPath);
    if filename == Null || Strip(Render(filename)) == "" then
      ([MakeDirs(dir)], Some(ValueError(MissingFilename)))
    else
      ([MakeDirs(dir), WriteFile(dir + "/" + Render(filename) + ".json", mode, Json, payload)], None)
  }

  /** The filename is refused exactly when it is None or all whitespace. */
  lemma LocalJsonWriterRefuses(payload: Value, filename: Value, rootDir: string, folderPath: Value, mode: string)
    ensures LocalJsonWriter(payload, filename, rootDir, folderPath, mode).1.Some?
            <==> filename == Null || forall i :: 0 <= i < |Render(filename)| ==> IsSpace(Render(filename)[i])
  {
    StripEmptyIffAllSpace(Render(filename));
  }

  /** An accepted filename is written inside the directory just created:
      the file path is that directory, a `/`, and the filename with `.json`. */
  lemma LocalJsonWriterTarget(payload: Value, filename: Value, rootDir: string, folderPath: Value, mode: string)
    requires LocalJsonWriter(payload, filename, rootDir, folderPath, mode).1.None?
    ensures var r := LocalJsonWriter(payload, filename, rootDir, folderPath, mode);
      var file := r.0[1].path;
      var dir := r.0[0].path;
      && file[..|dir| + 1] == dir + "/"
      && file[|dir| + 1..] == Render(filename) + ".json"
  {
    var dir := FileDir(rootDir, folderPath);
    var name := Render(filename) + ".json";
    assert dir + "/" + Render(filename) + ".json" == (dir + "/") + name;
  }
}
