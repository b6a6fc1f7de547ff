/** config.py: the versioned settings document and its default-log setting. */
module Configuration {
  import opened Wrappers
  import opened Settings

  const CurrentConfigVersion := 1
  const DefaultLogPath := Home + "/daily.log"
  const VersionKey := "version"
  const DefaultLogKey := "default_log"

  /** A scalar of a loaded document: the shapes the settings and cache files hold. */
  datatype Value = IntVal(i: int) | StrVal(s: string)

  /** A settings document as loaded from YAML: key to scalar. */
  type Document = map<string, Value>

  /** `config.get("version", 0)`: a missing version counts as 0. */
  function Version(doc: Document): Value {
    if VersionKey in doc then doc[VersionKey] else IntVal(0)
  }

  datatype ConfigError = UnknownVersion(version: Value)

  /** `update_config`: raises for any version but the current one, else returns the document as it is. */
  function UpdateConfig(doc: Document): (r: Result<Document, ConfigError>)
    ensures r.Success? <==> Version(doc) == IntVal(CurrentConfigVersion)
    ensures r.Success? ==> r.value == doc
    ensures r.Failure? ==> r.error == UnknownVersion(Version(doc))
  {
    var version := Version(doc);
    if version != IntVal(CurrentConfigVersion) then Failure(UnknownVersion(version)) else Success(doc)
  }

  /** `_load_config` applied to the loaded document: the version gate. */
  function LoadConfig(doc: Document): Result<Document, ConfigError> {
    if Version(doc) != IntVal(CurrentConfigVersion) then UpdateConfig(doc) else Success(doc)
  }

  /** Loading accepts exactly the version-1 documents, unchanged, and so only yields version 1. */
  lemma LoadConfigIsVersionGate(doc: Document)
    ensures LoadConfig(doc) == UpdateConfig(doc)
    ensures LoadConfig(doc).Success? ==> Version(LoadConfig(doc).value) == IntVal(CurrentConfigVersion)
  {
  }

  /** The document `__init__` writes when there is no settings file. */
  function FreshDocument(): Document {
    map[VersionKey := IntVal(CurrentConfigVersion), DefaultLogKey := StrVal(DefaultLogPath)]
  }

  /** `config.get("default_log", CONST_DEFAULT_LOG)`. */
  function DefaultLogOf(doc: Document): (v: Value)
    ensures DefaultLogKey in doc ==> v == doc[DefaultLogKey]
    ensures DefaultLogKey !in doc ==> v == StrVal(DefaultLogPath)
  {
    if DefaultLogKey in doc then doc[DefaultLogKey] else StrVal(DefaultLogPath)
  }

  /** A fresh document is at the current version and logs to the built-in default. */
  lemma FreshDocumentDefaults()
    ensures Version(FreshDocument()) == IntVal(CurrentConfigVersion)
    ensures DefaultLogOf(FreshDocument()) == StrVal(DefaultLogPath)
  {
  }

  /**
   * What the file system says about a log path: whether it exists, is a regular
   * file and is writable, and whether its parent is a directory and writable.
   */
  datatype PathFacts = PathFacts(
    present: bool,
    isFile: bool,
    writable: bool,
    parentIsDir: bool,
    parentWritable: bool)

  /**
   * The two `FileNotFoundError`s (not a file, directory not found) and the two
   * `FilePermError`s (the file, or its directory, not writable).
   */
  datatype PathError = NotAFile | DirectoryNotFound | FileNotWritable | DirectoryNotWritable {
    predicate IsFileNotFound() {
      NotAFile? || DirectoryNotFound?
    }
  }

  /** `validate_existing_path`: a regular file first, then writable. */
  function ValidateExistingPath(facts: PathFacts): (r: Outcome<PathError>)
    ensures r.Pass? <==> facts.isFile && facts.writable
    ensures !facts.isFile ==> r == Fail(NotAFile)
    ensures facts.isFile && !facts.writable ==> r == Fail(FileNotWritable)
  {
    if !facts.isFile then Fail(NotAFile)
    else if !facts.writable then Fail(FileNotWritable)
    else Pass
  }

  /**
   * `validate_path`: an existing path must be a writable regular file; a missing
   * one needs a parent that is a directory and then writable.
   */
  function ValidatePath(facts: PathFacts): (r: Outcome<PathError>)
    ensures r.Pass? <==>
              if facts.present then facts.isFile && facts.writable
              else facts.parentIsDir && facts.parentWritable
    ensures facts.present ==> r == ValidateExistingPath(facts)
    ensures !facts.present && !facts.parentIsDir ==> r == Fail(DirectoryNotFound)
    ensures !facts.present && facts.parentIsDir && !facts.parentWritable ==> r == Fail(DirectoryNotWritable)
    ensures r.Fail? ==> (r.error.IsFileNotFound() <==>
              if facts.present then !facts.isFile else !facts.parentIsDir)
  {
    if facts.present then ValidateExistingPath(facts)
    else if !facts.parentIsDir then Fail(DirectoryNotFound)
    else if !facts.parentWritable then Fail(DirectoryNotWritable)
    else Pass
  }

  /**
   * The settings object: the options it was built from, the document in memory,
   * and (ghost) the document persisted in the settings file, which every change
   * rewrites in full.
   */
  class Config {
    const options: Options
    var config: Document
    ghost var saved: Document

    /** Write-through, and only current-version documents are ever held. */
    ghost predicate Valid()
      reads this
    {
      saved == config && Version(config) == IntVal(CurrentConfigVersion)
    }

    /** `__init__` with no settings file: a fresh document, saved at once. */
    constructor Fresh(options: Options)
      ensures Valid()
      ensures this.options == options && config == FreshDocument()
      ensures DefaultLog() == StrVal(DefaultLogPath)
    {
      this.options := options;
      config := FreshDocument();
      saved := FreshDocument();
    }

    /** `__init__` with a settings file that passed the version gate; nothing is written. */
    constructor Loaded(options: Options, doc: Document)
      requires LoadConfig(doc).Success?
      ensures Valid()
      ensures this.options == options && config == doc
    {
      this.options := options;
      config := doc;
      saved := doc;
    }

    /**
     * `__init__`: create a fresh document when there is no file (`onDisk` is None),
     * otherwise load the file's document through the version gate.
     */
    static method Open(options: Options, onDisk: Option<Document>) returns (r: Result<Config, ConfigError>)
      ensures onDisk.None? ==> r.Success? && r.value.config == FreshDocument()
      ensures onDisk.Some? ==> (r.Success? <==> LoadConfig(onDisk.value).Success?)
      ensures onDisk.Some? && r.Failure? ==> r.error == UnknownVersion(Version(onDisk.value))
      ensures r.Success? ==> fresh(r.value) && r.value.Valid() && r.value.options == options
      ensures r.Success? && onDisk.Some? ==> r.value.config == onDisk.value
    {
      if onDisk.None? {
        var c := new Config.Fresh(options);
        return Success(c);
      }
      var loaded := LoadConfig(onDisk.value);
      if loaded.Failure? {
        return Failure(loaded.error);
      }
      var c := new Config.Loaded(options, onDisk.value);
      r := Success(c);
    }

    /** `default_log()`. */
    function DefaultLog(): Value
      reads this
    {
      DefaultLogOf(config)
    }

    /**
     * `set_default_log`: validate the path; on failure nothing changes, otherwise
     * only `default_log` is set and the document is saved.
     */
    method SetDefaultLog(logFn: string, facts: PathFacts) returns (r: Outcome<PathError>)
      requires Valid()
      modifies this
      ensures Valid()
      ensures r == ValidatePath(facts)
      ensures r.Fail? ==> config == old(config) && saved == old(saved)
      ensures r.Pass? ==> config == old(config)[DefaultLogKey := StrVal(logFn)]
      ensures r.Pass? ==> DefaultLog() == StrVal(logFn)
      ensures r.Pass? ==> forall k :: k != DefaultLogKey ==>
                (k in config <==> k in old(config)) && (k in config ==> config[k] == old(config)[k])
    {
      r := ValidatePath(facts);
      if r.Fail? {
        return;
      }
      config := config[DefaultLogKey := StrVal(logFn)];
      saved := config;
    }
  }
}
