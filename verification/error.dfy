/** The closed error taxonomy of the configuration loader and its two message
    mappings (src/config/error.rs). */
module ConfigErrors {
  import opened Paths
  import opened Wrappers

  datatype ConfigError =
    | NotFound
    | IoError
    | BadFilePath(path: Path, reason: string)
    | BadEnv(value: string)
    | BadEntry(entry: string, entryPath: Path)
    | BadType(name: string, expected: string, actual: string, typePath: Option<Path>)
    | ParseError(src: string, parsePath: Path, message: string, position: Option<(nat, nat)>)

  /** The position of the variant in the declaration: the taxonomy has exactly
      seven kinds. */
  function Kind(e: ConfigError): (k: nat)
    ensures k < 7
  {
    match e
    case NotFound => 0
    case IoError => 1
    case BadFilePath(_, _) => 2
    case BadEnv(_) => 3
    case BadEntry(_, _) => 4
    case BadType(_, _, _, _) => 5
    case ParseError(_, _, _, _) => 6
  }

  /** `Error::description`: one fixed text per kind, whatever the payload. */
  function Description(e: ConfigError): string
  {
    match e
    case NotFound => "config file was not found"
    case IoError => "there was an I/O error while reading the config file"
    case BadFilePath(_, _) => "the config file path is invalid"
    case BadEnv(_) => "the environment specified in `ROCKET_ENV` is invalid"
    case BadEntry(_, _) => "an environment specified as `[environment]` is invalid"
    case BadType(_, _, _, _) => "a key was specified with a value of the wrong type"
    case ParseError(_, _, _, _) => "the config file contains invalid TOML"
  }

  /** `Display::fmt`. The `{:?}` rendering of a path and of a string is left
      abstract: `debugPath` and `debugStr` stand for it. */
  function Display(e: ConfigError, debugPath: Path -> string, debugStr: string -> string): (r: string)
    ensures e.NotFound? || e.ParseError? ==> r == Description(e)
    ensures e.IoError? ==> r != Description(e)
  {
    match e
    case NotFound => "config file was not found"
    case IoError => "I/O error while reading the config file"
    case BadFilePath(p, _) => debugPath(p) + " is not a valid config path"
    case BadEnv(v) => debugStr(v) + " is not a valid `ROCKET_ENV` value"
    case BadEntry(entry, _) => debugStr(entry) + " is not a valid `[environment]` entry"
    case BadType(n, expected, actual, _) =>
      "type mismatch for '" + n + "'. expected " + expected + ", found " + actual
    case ParseError(_, _, _, _) => "the config file contains invalid TOML"
  }

  /** The lengths of the seven descriptions; only the I/O and the environment
      descriptions share a length. */
  lemma {:induction false} DescriptionLength(e: ConfigError)
    ensures e.NotFound? ==> |Description(e)| == 25
    ensures e.IoError? || e.BadEnv? ==> |Description(e)| == 52
    ensures e.BadFilePath? ==> |Description(e)| == 31
    ensures e.BadEntry? ==> |Description(e)| == 54
    ensures e.BadType? ==> |Description(e)| == 50
    ensures e.ParseError? ==> |Description(e)| == 37
  {
    match e
    case NotFound =>
    case IoError =>
    case BadFilePath(_, _) =>
    case BadEnv(_) =>
    case BadEntry(_, _) =>
    case BadType(_, _, _, _) =>
    case ParseError(_, _, _, _) =>
  }

  /** Errors of different kinds have different descriptions. */
  lemma {:induction false} DescriptionIdentifiesKind(a: ConfigError, b: ConfigError)
    requires Description(a) == Description(b)
    ensures Kind(a) == Kind(b)
  {
    DescriptionLength(a);
    DescriptionLength(b);
    if a.IoError? || a.BadEnv? {
      assert Description(IoError) != Description(BadEnv(""));
    }
  }

  /** Errors of the same kind share their description, whatever their payload. */
  lemma {:induction false} DescriptionIgnoresPayload(a: ConfigError, b: ConfigError)
    requires Kind(a) == Kind(b)
    ensures Description(a) == Description(b)
  {
    match a
    case NotFound => assert b.NotFound?;
    case IoError => assert b.IoError?;
    case BadFilePath(_, _) => assert b.BadFilePath?;
    case BadEnv(_) => assert b.BadEnv?;
    case BadEntry(_, _) => assert b.BadEntry?;
    case BadType(_, _, _, _) => assert b.BadType?;
    case ParseError(_, _, _, _) => assert b.ParseError?;
  }

  /** A type mismatch names the key, the expected and the actual type, in
      that order, and nothing else. */
  lemma BadTypeMessage(n: string, expected: string, actual: string, p: Option<Path>,
                       debugPath: Path -> string, debugStr: string -> string)
    ensures Display(BadType(n, expected, actual, p), debugPath, debugStr)
         == "type mismatch for '" + n + "'. expected " + expected + ", found " + actual
  {
  }

  /** An invalid file path is rendered with `{:?}` before a fixed text; the
      reason it carries does not show. */
  lemma BadFilePathMessage(p: Path, reason: string, debugPath: Path -> string, debugStr: string -> string)
    ensures Display(BadFilePath(p, reason), debugPath, debugStr) == debugPath(p) + " is not a valid config path"
  {
  }

  /** An invalid environment entry is rendered with `{:?}` before a fixed
      text; its path does not show. */
  lemma BadEntryMessage(entry: string, q: Path, debugPath: Path -> string, debugStr: string -> string)
    ensures Display(BadEntry(entry, q), debugPath, debugStr) == debugStr(entry) + " is not a valid `[environment]` entry"
  {
  }

  /** The message of a parse error is one fixed text: neither the source,
      the path, the parser's message nor the position shows in it. */
  lemma ParseErrorMessageIgnoresPayload(a: ConfigError, b: ConfigError,
                                        debugPath: Path -> string, debugStr: string -> string)
    requires a.ParseError? && b.ParseError?
    ensures Display(a, debugPath, debugStr) == Display(b, debugPath, debugStr)
    ensures Display(a, debugPath, debugStr) == Description(a)
  {
  }

  /** The messages about a bad environment value name the variable
      `ROCKET_ENV`, both in the description and after the rendered value. */
  lemma BadEnvMentionsRocketEnv(v: string, debugPath: Path -> string, debugStr: string -> string)
    ensures Description(BadEnv(v)) == "the environment specified in `" + "ROCKET_ENV" + "` is invalid"
    ensures Display(BadEnv(v), debugPath, debugStr) == debugStr(v) + " is not a valid `" + "ROCKET_ENV" + "` value"
  {
  }
}
