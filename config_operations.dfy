/** Reading, validating and creating the configuration file:
    `mdbom/config/operations.py`.

    The file system is a map from path to file contents, the contents of an INI
    file being its sections of key/value pairs. The module-level
    `ConfigParser` is the field `parser`: reading a file merges its sections
    into the parser, and writing a configuration replaces the two sections
    `INPUT` and `OUTPUT` of the parser and then writes the whole parser to the
    file. */
module ConfigOperations {
  import opened Wrappers
  import opened ConfigTypes

  const DefaultConfigFileName := "mdbom.ini"
  const InputSection := "INPUT"
  const OutputSection := "OUTPUT"
  const BomFileKey := "bom_file"
  const BomTypeKey := "bom_type"
  const TemplateFileKey := "template_file"
  const MarkdownFileKey := "markdown_file"

  const InvalidBomFile := "Invalid BOM file"
  const InvalidTemplateFile := "Invalid template file"
  const InvalidMarkdownFile := "Invalid markdown file"
  const UnableToReadProvidedConfig := "Unable to read provided config"
  const UnableToReadDefaultConfig := "Unable to read default config"
  const ConfigFileExists := "Config file exists and no force arg provided"

  type Section = map<string, string>
  type Ini = map<string, Section>

  /** What the operations raise: a `ConfigError`, the `KeyError` of a missing
      section or key, or the `FileNotFoundError` of `os.makedirs`. */
  datatype OpError = ConfigFailure(error: ConfigError) | KeyError(key: string) | FileNotFound(path: string)

  /** `_validate_config`: the three file names must be non-empty, checked in
      the order BOM file, template file, Markdown file; the BOM type is not
      checked. */
  function ValidateConfig(config: Config): (r: Outcome<ConfigError>)
    ensures r.Pass? <==>
      config.source.bomFile != "" && config.source.templateFile != "" && config.target.markdownFile != ""
  {
    if config.source.bomFile == "" then Fail(ConfigError(InvalidBomFile))
    else if config.source.templateFile == "" then Fail(ConfigError(InvalidTemplateFile))
    else if config.target.markdownFile == "" then Fail(ConfigError(InvalidMarkdownFile))
    else Pass
  }

  /** The first empty file name decides the message. */
  lemma ValidateConfigFirstEmpty(config: Config)
    ensures config.source.bomFile == "" ==> ValidateConfig(config) == Fail(ConfigError(InvalidBomFile))
    ensures config.source.bomFile != "" && config.source.templateFile == "" ==>
      ValidateConfig(config) == Fail(ConfigError(InvalidTemplateFile))
    ensures config.source.bomFile != "" && config.source.templateFile != "" && config.target.markdownFile == "" ==>
      ValidateConfig(config) == Fail(ConfigError(InvalidMarkdownFile))
  {
  }

  /** The BOM type plays no part in validation. */
  lemma ValidateConfigIgnoresBomType(config: Config, bomType: string)
    ensures ValidateConfig(config.(source := config.source.(bomType := bomType))) == ValidateConfig(config)
  {
  }

  /** The path a configuration is read from or created at: the given one, or
      the default file name when none is given. */
  function ConfigPath(configFile: string): string
  {
    if configFile != "" then configFile else DefaultConfigFileName
  }

  /** `str.rfind("/") + 1`: the length of the part of `path` up to and
      including its last slash. */
  function LastSlashEnd(path: string): (i: nat)
    ensures i <= |path|
    ensures i > 0 ==> path[i - 1] == '/'
    ensures forall j :: i <= j < |path| ==> path[j] != '/'
  {
    if path == [] then 0
    else if path[|path| - 1] == '/' then |path|
    else LastSlashEnd(path[..|path| - 1])
  }

  /** `str.rstrip("/")`: the longest prefix that does not end in a slash. */
  function RStripSlashes(s: string): (r: string)
    ensures r <= s
    ensures forall j :: |r| <= j < |s| ==> s[j] == '/'
    ensures r == [] || r[|r| - 1] != '/'
  {
    if s != [] && s[|s| - 1] == '/' then RStripSlashes(s[..|s| - 1]) else s
  }

  /** `os.path.dirname` on a POSIX system: the part of the path before its
      last slash, with trailing slashes removed unless it is slashes only. It
      is empty exactly for a path without a slash. */
  function Dirname(path: string): (d: string)
    ensures d == "" <==> '/' !in path
    ensures d <= path && |d| <= LastSlashEnd(path)
    ensures forall j :: |d| <= j < LastSlashEnd(path) ==> path[j] == '/'
    ensures d == [] || d[|d| - 1] != '/' || forall j :: 0 <= j < |d| ==> d[j] == '/'
    ensures (forall j :: 0 <= j < LastSlashEnd(path) ==> path[j] == '/') ==> d == path[..LastSlashEnd(path)]
  {
    var head := path[..LastSlashEnd(path)];
    if head != "" && exists j :: 0 <= j < |head| && head[j] != '/' then
      var d := RStripSlashes(head);
      assert d != "" by {
        var j :| 0 <= j < |head| && head[j] != '/';
      }
      d
    else head
  }

  /** `ConfigParser.read` of a file: each of its sections is merged into the
      section of the same name, its keys overriding. */
  function ReadInto(parser: Ini, file: Ini): (r: Ini)
    ensures r.Keys == parser.Keys + file.Keys
    ensures forall s :: s in file ==> file[s].Keys <= r[s].Keys && forall k :: k in file[s] ==> r[s][k] == file[s][k]
    ensures forall s :: s in parser ==> parser[s].Keys <= r[s].Keys
    ensures forall s, k :: s in parser && k in parser[s] && (s !in file || k !in file[s]) ==> r[s][k] == parser[s][k]
    ensures forall s :: s in r ==> r[s].Keys == (if s in parser then parser[s].Keys else {}) + (if s in file then file[s].Keys else {})
  {
    map s | s in parser.Keys + file.Keys ::
      if s in file then (if s in parser then parser[s] + file[s] else file[s]) else parser[s]
  }

  /** The two sections `_write_config` stores for a configuration. */
  function ConfigSections(config: Config): Ini
  {
    map[InputSection := map[BomFileKey := config.source.bomFile,
                            BomTypeKey := config.source.bomType,
                            TemplateFileKey := config.source.templateFile],
        OutputSection := map[MarkdownFileKey := config.target.markdownFile]]
  }

  /** The parser after `_write_config` assigned its two sections: each replaces
      the section of that name. */
  function WithConfigSections(parser: Ini, config: Config): Ini
  {
    parser + ConfigSections(config)
  }

  /** The section lookups of `get_config`, in its order: `INPUT`, `OUTPUT`,
      then `bom_file`, `bom_type`, `template_file` and `markdown_file`. */
  function ConfigFromParser(parser: Ini): (r: Result<Config, OpError>)
    ensures r.Success? <==>
      && InputSection in parser && OutputSection in parser
      && BomFileKey in parser[InputSection] && BomTypeKey in parser[InputSection]
      && TemplateFileKey in parser[InputSection] && MarkdownFileKey in parser[OutputSection]
    ensures r.Success? ==>
      && r.value.source.bomFile == parser[InputSection][BomFileKey]
      && r.value.source.bomType == parser[InputSection][BomTypeKey]
      && r.value.source.templateFile == parser[InputSection][TemplateFileKey]
      && r.value.target.markdownFile == parser[OutputSection][MarkdownFileKey]
    ensures InputSection !in parser ==> r == Failure(KeyError(InputSection))
    ensures InputSection in parser && OutputSection !in parser ==> r == Failure(KeyError(OutputSection))
    ensures InputSection in parser && OutputSection in parser ==>
      var input, output := parser[InputSection], parser[OutputSection];
      && (BomFileKey !in input ==> r == Failure(KeyError(BomFileKey)))
      && (BomFileKey in input && BomTypeKey !in input ==> r == Failure(KeyError(BomTypeKey)))
      && (BomFileKey in input && BomTypeKey in input && TemplateFileKey !in input ==>
            r == Failure(KeyError(TemplateFileKey)))
      && (BomFileKey in input && BomTypeKey in input && TemplateFileKey in input && MarkdownFileKey !in output ==>
            r == Failure(KeyError(MarkdownFileKey)))
  {
    if InputSection !in parser then Failure(KeyError(InputSection))
    else if OutputSection !in parser then Failure(KeyError(OutputSection))
    else
      var input, output := parser[InputSection], parser[OutputSection];
      if BomFileKey !in input then Failure(KeyError(BomFileKey))
      else if BomTypeKey !in input then Failure(KeyError(BomTypeKey))
      else if TemplateFileKey !in input then Failure(KeyError(TemplateFileKey))
      else if MarkdownFileKey !in output then Failure(KeyError(MarkdownFileKey))
      else Success(Config(Input(input[BomFileKey], input[BomTypeKey], input[TemplateFileKey]),
                          Output(output[MarkdownFileKey])))
  }

  /** What `get_config` returns once the file has been read into `parser`:
      a configuration it read, and only if that configuration is valid. */
  function CheckedConfig(parser: Ini): (r: Result<Config, OpError>)
    ensures r.Success? ==> ValidateConfig(r.value) == Pass
    ensures r.Success? ==> ConfigFromParser(parser) == r
    ensures ConfigFromParser(parser).Success? && ValidateConfig(ConfigFromParser(parser).value).Pass? ==> r.Success?
  {
    match ConfigFromParser(parser)
    case Failure(e) => Failure(e)
    case Success(config) =>
      match ValidateConfig(config)
      case Fail(e) => Failure(ConfigFailure(e))
      case Pass => Success(config)
  }

  /** Round trip: a file written for `config` gives `config` back when it is
      read into any parser, whatever that parser held before. */
  lemma WriteThenRead(before: Ini, parser: Ini, config: Config)
    ensures ConfigFromParser(ReadInto(parser, WithConfigSections(before, config))) == Success(config)
  {
    var file := WithConfigSections(before, config);
    var merged := ReadInto(parser, file);
    assert file[InputSection] == ConfigSections(config)[InputSection];
    assert file[OutputSection] == ConfigSections(config)[OutputSection];
  }

  /** The configuration store: the files that exist and the module-level
      parser. */
  class ConfigStore {
    var files: map<string, Ini>
    var parser: Ini

    /** `os.path.exists`: only files are modelled. */
    predicate Exists(path: string)
      reads this
    {
      path in files
    }

    /** A store over the given files, with a parser that has read nothing. */
    constructor (files: map<string, Ini>)
      ensures this.files == files && parser == map[]
    {
      this.files := files;
      parser := map[];
    }

    /** `get_config(config_file)`: refuses a given path that does not exist
        and, without a path, a missing `mdbom.ini`; otherwise merges that file
        into the parser and returns the validated configuration the parser
        then holds. */
    method GetConfig(configFile: string) returns (r: Result<Config, OpError>)
      modifies this`parser
      ensures configFile != "" && !old(Exists(configFile)) ==>
        r == Failure(ConfigFailure(ConfigError(UnableToReadProvidedConfig))) && parser == old(parser)
      ensures configFile == "" && !old(Exists(DefaultConfigFileName)) ==>
        r == Failure(ConfigFailure(ConfigError(UnableToReadDefaultConfig))) && parser == old(parser)
      ensures old(Exists(ConfigPath(configFile))) ==>
        parser == ReadInto(old(parser), files[ConfigPath(configFile)]) && r == CheckedConfig(parser)
      ensures r.Success? ==> ValidateConfig(r.value) == Pass
    {
      if configFile != "" {
        if Exists(configFile) {
          parser := ReadInto(parser, files[configFile]);
        } else {
          return Failure(ConfigFailure(ConfigError(UnableToReadProvidedConfig)));
        }
      } else {
        if Exists(DefaultConfigFileName) {
          parser := ReadInto(parser, files[DefaultConfigFileName]);
        } else {
          return Failure(ConfigFailure(ConfigError(UnableToReadDefaultConfig)));
        }
      }
      var read := ConfigFromParser(parser);
      if read.Failure? {
        return Failure(read.error);
      }
      var config := read.value;
      var valid := ValidateConfig(config);
      if valid.Fail? {
        return Failure(ConfigFailure(valid.error));
      }
      return Success(config);
    }

    /** The effect of a successful write of `config` to `fileName`: the
        parser gets the configuration's sections, the file gets the parser,
        and reading that file back into any parser gives the configuration. */
    twostate predicate Stored(config: Config, fileName: string)
      reads this
    {
      && parser == WithConfigSections(old(parser), config)
      && files == old(files)[fileName := parser]
      && forall p: Ini :: ConfigFromParser(ReadInto(p, files[fileName])) == Success(config)
    }

    /** The effect of `_write_config(config, fileName)` as written: a path
        without a directory part fails in `os.makedirs("")` and changes
        nothing; any other path is stored. */
    twostate predicate Written(config: Config, fileName: string, new r: Outcome<OpError>)
      reads this
    {
      if Dirname(fileName) == "" then
        r == Fail(FileNotFound("")) && files == old(files) && parser == old(parser)
      else
        r == Pass && Stored(config, fileName)
    }

    /** `_write_config(config, file_name)` as written. */
    method WriteConfig(config: Config, fileName: string) returns (r: Outcome<OpError>)
      modifies this
      ensures Written(config, fileName, r)
    {
      var directory := Dirname(fileName);
      if directory == "" {
        // os.path.exists("") is false, and os.makedirs("") raises
        // FileNotFoundError, whose errno is not EEXIST.
        return Fail(FileNotFound(directory));
      }
      StoreConfig(config, fileName);
      return Pass;
    }

    /** `_write_config` as evidently intended: the directory is created only
        when there is one, so every path is stored. Past the directory step
        the two versions agree, and `WriteConfig` calls this for that part. */
    method StoreConfig(config: Config, fileName: string)
      modifies this
      ensures Stored(config, fileName)
    {
      ghost var before := parser;
      parser := WithConfigSections(parser, config);
      files := files[fileName := parser];
      forall p: Ini
        ensures ConfigFromParser(ReadInto(p, files[fileName])) == Success(config)
      {
        WriteThenRead(before, p, config);
      }
    }

    /** `create_config(config, config_file, force)`: validates first, then
        writes to the given path or `mdbom.ini`, unless that path exists and
        `force` is not set. */
    method CreateConfig(config: Config, configFile: string, force: bool) returns (r: Outcome<OpError>)
      modifies this
      ensures ValidateConfig(config).Fail? ==>
        r == Fail(ConfigFailure(ValidateConfig(config).error)) && unchanged(this)
      ensures ValidateConfig(config).Pass? && old(Exists(ConfigPath(configFile))) && !force ==>
        r == Fail(ConfigFailure(ConfigError(ConfigFileExists))) && unchanged(this)
      ensures ValidateConfig(config).Pass? && (!old(Exists(ConfigPath(configFile))) || force) ==>
        Written(config, ConfigPath(configFile), r)
    {
      var target, proceed := CreateTarget(config, configFile, force);
      if proceed.Fail? {
        return proceed;
      }
      r := WriteConfig(config, target);
    }

    /** `create_config` with the write as evidently intended: the same checks,
        and then the target, `mdbom.ini` included, is always stored. */
    method CreateConfigIntended(config: Config, configFile: string, force: bool) returns (r: Outcome<OpError>)
      modifies this
      ensures ValidateConfig(config).Fail? ==>
        r == Fail(ConfigFailure(ValidateConfig(config).error)) && unchanged(this)
      ensures ValidateConfig(config).Pass? && old(Exists(ConfigPath(configFile))) && !force ==>
        r == Fail(ConfigFailure(ConfigError(ConfigFileExists))) && unchanged(this)
      ensures ValidateConfig(config).Pass? && (!old(Exists(ConfigPath(configFile))) || force) ==>
        r == Pass && Stored(config, ConfigPath(configFile))
    {
      var target, proceed := CreateTarget(config, configFile, force);
      if proceed.Fail? {
        return proceed;
      }
      StoreConfig(config, target);
      return Pass;
    }

    /** The checks `create_config` makes before it writes: validation, the
        default path, and an existing target without `force`. */
    method CreateTarget(config: Config, configFile: string, force: bool) returns (target: string, r: Outcome<OpError>)
      ensures target == ConfigPath(configFile)
      ensures ValidateConfig(config).Fail? ==> r == Fail(ConfigFailure(ValidateConfig(config).error))
      ensures ValidateConfig(config).Pass? && Exists(target) && !force ==>
        r == Fail(ConfigFailure(ConfigError(ConfigFileExists)))
      ensures ValidateConfig(config).Pass? && (!Exists(target) || force) ==> r == Pass
    {
      target := ConfigPath(configFile);
      var valid := ValidateConfig(config);
      if valid.Fail? {
        return target, Fail(ConfigFailure(valid.error));
      }
      if Exists(target) && !force {
        return target, Fail(ConfigFailure(ConfigError(ConfigFileExists)));
      }
      return target, Pass;
    }
  }

  /** As written, creating a valid configuration at the default path in a
      directory without `mdbom.ini` fails in `os.makedirs("")`. */
  method CreateDefaultAsWritten(config: Config, files: map<string, Ini>) returns (r: Outcome<OpError>, stored: bool)
    requires ValidateConfig(config).Pass?
    requires DefaultConfigFileName !in files
    ensures r == Fail(FileNotFound("")) && !stored
  {
    var store := new ConfigStore(files);
    // `mdbom.ini` has no directory part.
    assert Dirname(ConfigPath("")) == "";
    r := store.CreateConfig(config, "", false);
    stored := store.Exists(DefaultConfigFileName);
  }

  /** As intended, the same call creates `mdbom.ini`, and `get_config` without
      a path then reads the configuration back. */
  method CreateDefaultIntended(config: Config, files: map<string, Ini>) returns (r: Outcome<OpError>, read: Result<Config, OpError>)
    requires ValidateConfig(config).Pass?
    requires DefaultConfigFileName !in files
    ensures r == Pass && read == Success(config)
  {
    var store := new ConfigStore(files);
    r := store.CreateConfigIntended(config, "", false);
    read := store.GetConfig("");
  }
}
