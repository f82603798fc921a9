/** qwcore/config.py: reading the per-application config file (`get_config`) and looking a
    key up in it, optionally inside a section, with a fallback default (`get_value`). */
module Config {
  import opened Wrappers

  /** A value of a parsed config file: a string, or a section of further values. */
  datatype Value = Scalar(text: string) | Section(entries: map<string, Value>)

  /** The top level of a parsed config file (the `ConfigObj`). */
  type ConfigObj = map<string, Value>

  /** The exceptions `get_config` and `get_value` let escape. The last one is the
      `TypeError` Python raises when a "section" turns out to be a plain string and is then
      subscripted with the key. */
  datatype ConfigError =
    | ConfigFileNotFoundError
    | ConfigFileParserError(message: string)
    | ConfigFileSectionNotFoundError
    | ConfigFileKeyNotFoundError
    | ScalarNotSubscriptable

  /** What is at the config path: nothing (or not a regular file), a file `configobj`
      rejects with a message, or a file it parses. */
  datatype FileState = Missing | Malformed(message: string) | Parsed(config: ConfigObj)

  /** Python's `if default:` for the values a caller passes: `None`, the empty string and
      an empty section are false. */
  predicate TruthyValue(d: Option<Value>)
  {
    d.Some? && match d.value
      case Scalar(text) => text != ""
      case Section(entries) => |entries| > 0
  }

  /** The failures a truthy default replaces. */
  predicate Defaultable(e: ConfigError)
  {
    e.ConfigFileNotFoundError? || e.ConfigFileSectionNotFoundError? || e.ConfigFileKeyNotFoundError?
  }

  /** `get_config(appname)`, over the state of the file at the application's config path:
      absent gives ConfigFileNotFoundError, unparsable gives ConfigFileParserError with the
      parser's message, and otherwise the parsed config. */
  function GetConfig(file: FileState): (r: Result<ConfigObj, ConfigError>)
    ensures r == Failure(ConfigFileNotFoundError) <==> file.Missing?
    ensures r.Failure? && r.error.ConfigFileParserError? <==> file.Malformed?
    ensures file.Malformed? ==> r.error.message == file.message
    ensures r.Success? <==> file.Parsed?
    ensures r.Success? ==> r.value == file.config
  {
    match file
    case Missing => Failure(ConfigFileNotFoundError)
    case Malformed(message) => Failure(ConfigFileParserError(message))
    case Parsed(config) => Success(config)
  }

  /** `config[key]` on a dict-like scope, with the default standing in for a missing key. */
  function LookupKey(scope: map<string, Value>, key: string, default: Option<Value>): (r: Result<Value, ConfigError>)
    ensures key in scope ==> r == Success(scope[key])
    ensures key !in scope && TruthyValue(default) ==> r == Success(default.value)
    ensures key !in scope && !TruthyValue(default) ==> r == Failure(ConfigFileKeyNotFoundError)
  {
    if key in scope then Success(scope[key])
    else if TruthyValue(default) then Success(default.value)
    else Failure(ConfigFileKeyNotFoundError)
  }

  /** `get_value(appname, key, section, default)`. */
  function GetValue(file: FileState, key: string, section: Option<string>, default: Option<Value>): (r: Result<Value, ConfigError>)
    ensures file.Missing? && TruthyValue(default) ==> r == Success(default.value)
    ensures file.Missing? && !TruthyValue(default) ==> r == Failure(ConfigFileNotFoundError)
    ensures file.Malformed? ==> r == Failure(ConfigFileParserError(file.message))
    ensures file.Parsed? && !Truthy(section) && key in file.config ==> r == Success(file.config[key])
    ensures file.Parsed? && !Truthy(section) && key !in file.config ==>
      r == (if TruthyValue(default) then Success(default.value) else Failure(ConfigFileKeyNotFoundError))
    ensures file.Parsed? && Truthy(section) && section.value !in file.config ==>
      r == (if TruthyValue(default) then Success(default.value) else Failure(ConfigFileSectionNotFoundError))
    ensures file.Parsed? && Truthy(section) && section.value in file.config ==>
      match file.config[section.value]
      case Scalar(_) => r == Failure(ScalarNotSubscriptable)
      case Section(entries) =>
        && (key in entries ==> r == Success(entries[key]))
        && (key !in entries ==>
              r == (if TruthyValue(default) then Success(default.value) else Failure(ConfigFileKeyNotFoundError)))
  {
    match GetConfig(file)
    case Failure(e) =>
      if e.ConfigFileNotFoundError? && TruthyValue(default) then Success(default.value) else Failure(e)
    case Success(config) =>
      if Truthy(section) then
        if section.value !in config then
          if TruthyValue(default) then Success(default.value) else Failure(ConfigFileSectionNotFoundError)
        else
          match config[section.value]
          case Scalar(_) => Failure(ScalarNotSubscriptable)
          case Section(entries) => LookupKey(entries, key, default)
      else
        LookupKey(config, key, default)
  }

  /** A falsy default (`None`, "" or an empty section) behaves exactly like no default. */
  lemma FalsyDefaultIsNoDefault(file: FileState, key: string, section: Option<string>, default: Option<Value>)
    requires !TruthyValue(default)
    ensures GetValue(file, key, section, default) == GetValue(file, key, section, None)
  {
  }

  /** The default is a pure fallback: a truthy default replaces exactly the three lookup
      failures (file, section or key not found) and changes nothing else; in particular a
      value that is present is returned whatever the default. */
  lemma DefaultIsFallback(file: FileState, key: string, section: Option<string>, default: Option<Value>)
    ensures var plain := GetValue(file, key, section, None);
      GetValue(file, key, section, default) ==
        if plain.Failure? && Defaultable(plain.error) && TruthyValue(default) then Success(default.value) else plain
  {
  }

  /** Without a truthy default, `get_value` fails exactly when the path to the key is
      missing or broken, and otherwise returns the stored value. */
  lemma NoDefaultFailsOnlyOnMissingPath(file: FileState, key: string, section: Option<string>)
    ensures var r := GetValue(file, key, section, None);
      r.Success? <==>
        && file.Parsed?
        && (if Truthy(section)
            then section.value in file.config && file.config[section.value].Section?
                 && key in file.config[section.value].entries
            else key in file.config)
  {
  }

  /** The cases of tests/test_config.py: a missing file, an unparsable file, and the
      lookups of `get_value` with and without a default. */
  lemma ConfigTestCases()
    ensures GetConfig(Missing) == Failure(ConfigFileNotFoundError)
    ensures GetConfig(Malformed("bad content")).Failure?
    ensures GetConfig(Malformed("bad content")).error.ConfigFileParserError?
    ensures GetConfig(Parsed(map["key" := Scalar("value")])).value["key"] == Scalar("value")
    ensures GetValue(Missing, "key", None, None) == Failure(ConfigFileNotFoundError)
    ensures GetValue(Missing, "key", None, Some(Scalar("default"))) == Success(Scalar("default"))
    ensures GetValue(Parsed(map[]), "key", Some("section"), None) == Failure(ConfigFileSectionNotFoundError)
    ensures GetValue(Parsed(map[]), "key", Some("section"), Some(Scalar("default"))) == Success(Scalar("default"))
    ensures GetValue(Parsed(map["section" := Section(map[])]), "key", Some("section"), None)
      == Failure(ConfigFileKeyNotFoundError)
    ensures GetValue(Parsed(map["section" := Section(map[])]), "key", Some("section"), Some(Scalar("default")))
      == Success(Scalar("default"))
    ensures GetValue(Parsed(map["section" := Section(map["key" := Scalar("value")])]), "key", Some("section"),
                     Some(Scalar("default")))
      == Success(Scalar("value"))
  {
  }
}
