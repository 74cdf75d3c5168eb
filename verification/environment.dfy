/** The runtime environment and its resolution from the process variable
    `POEM_ENV` (src/environment.rs). */
module Environments {
  import opened Wrappers
  import opened ConfigErrors

  /** Name of the process variable that selects the environment; its lookup
      is the `VarLookup` given to `Active`. */
  const CONFIG_ENV: string := "POEM_ENV"

  datatype Environment = Development | Staging | Production

  /** `Environment::ALL`. */
  const ALL: seq<Environment> := [Development, Staging, Production]

  /** What `env::var(CONFIG_ENV)` reports: the value, no variable, or a value
      that is not valid Unicode. */
  datatype VarLookup = Present(value: string) | NotPresent | NotUnicode

  /** The alias table, as an independent reference for `FromStr`. */
  const Aliases: map<string, Environment> := map[
    "d" := Development, "dev" := Development, "devel" := Development, "development" := Development,
    "s" := Staging, "stage" := Staging, "staging" := Staging,
    "p" := Production, "prod" := Production, "production" := Production]

  /** `FromStr::from_str`: case-sensitive alias lookup; `None` is Rust's `Err(())`. */
  function FromStr(s: string): (r: Option<Environment>)
    ensures r == if s in Aliases then Some(Aliases[s]) else None
  {
    match s
    case "d" | "dev" | "devel" | "development" => Some(Development)
    case "s" | "stage" | "staging" => Some(Staging)
    case "p" | "prod" | "production" => Some(Production)
    case _ => None
  }

  /** `Display::fmt`: the canonical name of the variant, which is its longest
      alias. */
  function Display(e: Environment): (r: string)
    ensures r in Aliases && Aliases[r] == e
    ensures forall s :: s in Aliases && Aliases[s] == e ==> |s| <= |r|
  {
    match e
    case Development => "development"
    case Staging => "staging"
    case Production => "production"
  }

  predicate IsDev(e: Environment) { e == Development }

  predicate IsStage(e: Environment) { e == Staging }

  predicate IsProd(e: Environment) { e == Production }

  /** `Environment::active`: a present value must parse, and a value that does
      not is reported with the original string; an absent or non-Unicode
      variable falls back on the build mode (`debugBuild` stands for
      `cfg(debug_assertions)`). */
  function Active(variable: VarLookup, debugBuild: bool): (r: Result<Environment, ConfigError>)
    ensures r.Err? <==> variable.Present? && FromStr(variable.value).None?
    ensures r.Err? ==> r.error == BadEnv(variable.value)
    ensures variable.Present? && r.Ok? ==> FromStr(variable.value) == Some(r.value)
    ensures !variable.Present? ==> r == Ok(if debugBuild then Development else Production)
  {
    match variable
    case Present(s) =>
      (match FromStr(s)
       case Some(e) => Ok(e)
       case None => Err(BadEnv(s)))
    case _ => if debugBuild then Ok(Development) else Ok(Production)
  }

  /** How `Active` resolves: through the alias table when the variable is
      present, keeping the original string in the error, and by build mode
      when it is absent or not Unicode. */
  lemma ActiveResolution(variable: VarLookup, debugBuild: bool)
    ensures variable.Present? ==>
              Active(variable, debugBuild) ==
                if variable.value in Aliases then Ok(Aliases[variable.value]) else Err(BadEnv(variable.value))
    ensures !variable.Present? ==>
              Active(variable, debugBuild) == Ok(if debugBuild then Development else Production)
  {
  }

  /** Exactly these ten strings are accepted. */
  lemma AcceptedStrings(s: string)
    ensures FromStr(s).Some? <==> s in {"d", "dev", "devel", "development", "s", "stage", "staging",
                                        "p", "prod", "production"}
  {
  }

  /** Parsing the displayed name of a variant gives the variant back. */
  lemma DisplayRoundTrip(e: Environment)
    ensures FromStr(Display(e)) == Some(e)
  {
  }

  /** The examples on `from_str`, and case sensitivity. */
  lemma FromStrExamples()
    ensures FromStr("p") == Some(Production) && FromStr("prod") == Some(Production)
    ensures FromStr("x") == None && FromStr("Dev") == None && FromStr("PRODUCTION") == None
  {
  }

  /** Every variant answers exactly one of the three tests. */
  lemma ExactlyOneTest(e: Environment)
    ensures IsDev(e) || IsStage(e) || IsProd(e)
    ensures !(IsDev(e) && IsStage(e)) && !(IsDev(e) && IsProd(e)) && !(IsStage(e) && IsProd(e))
  {
  }

  /** `ALL` lists each variant exactly once. */
  lemma AllListsEachOnce(e: Environment)
    ensures |ALL| == 3 && e in ALL && multiset(ALL)[e] == 1
  {
  }
}
