/** `retrieve_cfg` and `retrieve_cfg_int`, with the process environment as a map. */
module Config {
  import opened Wrappers
  import Strings
  import Decimal

  type Env = map<string, string>

  /** The RuntimeError of a missing required value, and the ValueError of `int` on a non-number. */
  datatype CfgError = MissingRequired(key: string) | NotAnInteger(text: string)

  /** The second key tried: every '.' of the key replaced by '_'. */
  function Underscored(key: string): string {
    Strings.ReplaceAll(key, ".", "_")
  }

  /** The fallback key has the same length, with '_' exactly where the key has '.'. */
  lemma UnderscoredAt(key: string)
    ensures |Underscored(key)| == |key|
    ensures forall i :: 0 <= i < |key| ==> Underscored(key)[i] == (if key[i] == '.' then '_' else key[i])
    ensures '.' !in Underscored(key)
  {
    Strings.ReplaceCharAt(key, '.', '_');
  }

  /** `retrieve_cfg(key, default, optional)`. */
  function RetrieveCfg(env: Env, key: string, default: Option<string>, optional: bool): (r: Result<Option<string>, CfgError>)
    ensures key in env ==> r == Success(Some(env[key]))
    ensures key !in env && Underscored(key) in env ==> r == Success(Some(env[Underscored(key)]))
    ensures key !in env && Underscored(key) !in env && (default.Some? || optional) ==> r == Success(default)
    ensures r.Failure? <==> !optional && default.None? && key !in env && Underscored(key) !in env
    ensures r.Failure? ==> r.error == MissingRequired(key)
    ensures r.Success? && !optional ==> r.value.Some?
  {
    var val := if key in env then Some(env[key])
               else if Underscored(key) in env then Some(env[Underscored(key)])
               else default;
    if !optional && val.None? then Failure(MissingRequired(key)) else Success(val)
  }

  /** A key without '.' is its own fallback, so only that one key is consulted. */
  lemma DotlessKeyLookedUpOnce(env: Env, key: string, default: Option<string>, optional: bool)
    requires '.' !in key
    ensures Underscored(key) == key
    ensures RetrieveCfg(env, key, default, optional)
         == if key in env then Success(Some(env[key]))
            else if default.None? && !optional then Failure(MissingRequired(key))
            else Success(default)
  {
    Strings.ReplaceAbsentChar(key, '.', '_');
  }

  /** `retrieve_cfg_int(key, default)`: the text found (or the default rendered as text), read as an integer. */
  function RetrieveCfgInt(env: Env, key: string, default: int): (r: Result<int, CfgError>)
    ensures r.Failure? ==> r.error.NotAnInteger?
    ensures key !in env && Underscored(key) !in env ==> r == Success(default)
    ensures key in env ==>
      r == (if Decimal.Parse(env[key]).Some? then Success(Decimal.Parse(env[key]).value) else Failure(NotAnInteger(env[key])))
    ensures key !in env && Underscored(key) in env ==>
      r == (if Decimal.Parse(env[Underscored(key)]).Some? then Success(Decimal.Parse(env[Underscored(key)]).value)
            else Failure(NotAnInteger(env[Underscored(key)])))
  {
    var found := RetrieveCfg(env, key, Some(Decimal.Render(default)), false);
    assert found.Success? && found.value.Some?;
    var text := found.value.value;
    Decimal.RoundTrip(default);
    match Decimal.Parse(text)
    case None => Failure(NotAnInteger(text))
    case Some(n) => Success(n)
  }
}
