/** options.py: the immutable option set and its absolute-path checks. */
module Settings {
  import opened Wrappers

  /** The home directory the built-in defaults are placed under (a fixed absolute path here). */
  const Home := "/home/user"
  const CacheKey := "cache"
  const ConfigKey := "config"

  /** The built-in file locations, by option key. */
  const Defaults: map<string, string> := map[
    CacheKey := Home + "/.cache/dailylog.json",
    ConfigKey := Home + "/.config/dailylog.yaml"
  ]

  /** The `ValueError`s of `validate_fn_absolute`, naming the option key. */
  datatype OptionsError = EmptyPath(key: string) | NotAbsolute(key: string)

  /** POSIX absolute path: it starts at the root. */
  predicate IsAbsolute(path: string) {
    |path| > 0 && path[0] == '/'
  }

  /** The name after an empty one is replaced by the key's default (empty if there is none). */
  function Resolved(fileKey: string, fileName: string): string {
    if fileName != "" then fileName
    else if fileKey in Defaults then Defaults[fileKey]
    else ""
  }

  /**
   * `validate_fn_absolute`: an empty name falls back to the default for its key;
   * the result must then be non-empty and absolute, and is returned as it is.
   */
  function ValidateFnAbsolute(fileKey: string, fileName: string): (r: Result<string, OptionsError>)
    ensures fileName != "" ==> Resolved(fileKey, fileName) == fileName
    ensures r.Success? <==> IsAbsolute(Resolved(fileKey, fileName))
    ensures r.Success? ==> r.value == Resolved(fileKey, fileName) && IsAbsolute(r.value)
    ensures Resolved(fileKey, fileName) == "" ==> r == Failure(EmptyPath(fileKey))
    ensures Resolved(fileKey, fileName) != "" && !IsAbsolute(Resolved(fileKey, fileName)) ==>
              r == Failure(NotAbsolute(fileKey))
  {
    var name := Resolved(fileKey, fileName);
    if name == "" then Failure(EmptyPath(fileKey))
    else if !IsAbsolute(name) then Failure(NotAbsolute(fileKey))
    else Success(name)
  }

  /** Both built-in defaults are absolute, so a missing path is never an error. */
  lemma DefaultsAreAbsolute(fileKey: string)
    requires fileKey == CacheKey || fileKey == ConfigKey
    ensures ValidateFnAbsolute(fileKey, "") == Success(Defaults[fileKey])
  {
  }

  /** The keyword arguments of the constructor, each optional. */
  datatype OptionArgs = OptionArgs(
    debug: Option<int>,
    test: Option<bool>,
    verbose: Option<int>,
    cache: Option<string>,
    config: Option<string>)

  /** The option set, fixed once constructed. */
  datatype Options = Options(debug: int, test: bool, verbose: int, cacheFn: string, configFn: string) {
    predicate IsDebug() {
      debug > 0
    }

    predicate IsTest() {
      test
    }

    predicate IsVerbose() {
      verbose > 0
    }
  }

  /**
   * The constructor: numeric and flag options default to 0 and false, and the
   * cache path is validated before the config path.
   */
  function NewOptions(args: OptionArgs): (r: Result<Options, OptionsError>)
    ensures r.Success? <==>
              ValidateFnAbsolute(CacheKey, args.cache.GetOr("")).Success? &&
              ValidateFnAbsolute(ConfigKey, args.config.GetOr("")).Success?
    ensures ValidateFnAbsolute(CacheKey, args.cache.GetOr("")).Failure? ==>
              r == Failure(ValidateFnAbsolute(CacheKey, args.cache.GetOr("")).error)
    ensures r.Success? ==>
              && IsAbsolute(r.value.cacheFn) && IsAbsolute(r.value.configFn)
              && r.value.cacheFn == Resolved(CacheKey, args.cache.GetOr(""))
              && r.value.configFn == Resolved(ConfigKey, args.config.GetOr(""))
              && r.value.debug == args.debug.GetOr(0)
              && r.value.test == args.test.GetOr(false)
              && r.value.verbose == args.verbose.GetOr(0)
  {
    var cacheFn :- ValidateFnAbsolute(CacheKey, args.cache.GetOr(""));
    var configFn :- ValidateFnAbsolute(ConfigKey, args.config.GetOr(""));
    Success(Options(args.debug.GetOr(0), args.test.GetOr(false), args.verbose.GetOr(0), cacheFn, configFn))
  }

  /** With no arguments at all the options are the defaults: not debug, not verbose, not test. */
  lemma NoArgumentOptions()
    ensures var r := NewOptions(OptionArgs(None, None, None, None, None));
      && r.Success?
      && r.value.cacheFn == Defaults[CacheKey] && r.value.configFn == Defaults[ConfigKey]
      && !r.value.IsDebug() && !r.value.IsVerbose() && !r.value.IsTest()
  {
  }

  /** A relative path is refused whichever option it is given for; the cache path is checked first. */
  lemma RelativePathRefused(args: OptionArgs)
    ensures args.cache.Some? && args.cache.value != "" && args.cache.value[0] != '/' ==>
              NewOptions(args) == Failure(NotAbsolute(CacheKey))
    ensures ValidateFnAbsolute(CacheKey, args.cache.GetOr("")).Success? &&
            args.config.Some? && args.config.value != "" && args.config.value[0] != '/' ==>
              NewOptions(args) == Failure(NotAbsolute(ConfigKey))
  {
  }
}
