/**
 * Environment lookup with case fallback (`get_env_value`): the key as given,
 * then lower case, then upper case; an unset or empty variable does not count.
 */
module Env {
  import opened Wrappers
  import opened Ascii

  /** The process environment, taken as a parameter instead of read from the OS. */
  type Environment = map<string, string>

  /** `os.getenv(name)`. */
  function GetEnv(env: Environment, name: string): Option<string> {
    if name in env then Some(env[name]) else None
  }

  /** The variable is set to a non-empty value (truthy in Python). */
  predicate IsSet(env: Environment, name: string) {
    name in env && env[name] != ""
  }

  /** Index `i` is the first name in `names` whose variable is set. */
  ghost predicate FirstSetAt(env: Environment, names: seq<string>, i: int) {
    && 0 <= i < |names|
    && IsSet(env, names[i])
    && forall j :: 0 <= j < i ==> !IsSet(env, names[j])
  }

  /**
   * Scanning a list of names for the first set variable: the reference
   * definition against which the source's `or` chain is checked.
   */
  function FirstSet(env: Environment, names: seq<string>): (r: Option<string>)
    ensures r.Some? <==> exists i :: 0 <= i < |names| && IsSet(env, names[i])
    ensures r.Some? ==> exists i :: FirstSetAt(env, names, i) && r.value == env[names[i]]
  {
    if names == [] then None
    else if IsSet(env, names[0]) then
      assert FirstSetAt(env, names, 0);
      Some(env[names[0]])
    else
      var rest := FirstSet(env, names[1..]);
      if rest.Some? then
        assert exists i :: FirstSetAt(env, names, i) && rest.value == env[names[i]] by {
          var k :| FirstSetAt(env, names[1..], k) && rest.value == env[names[1..][k]];
          assert FirstSetAt(env, names, k + 1);
        }
        rest
      else
        assert forall i :: 1 <= i < |names| ==> names[i] == names[1..][i - 1];
        rest
  }

  /** The three spellings tried, in order. */
  function Candidates(key: string): seq<string> {
    [key, Lower(key), Upper(key)]
  }

  /** Python's `a or b` on two `os.getenv` results. */
  function Or(a: Option<string>, b: Option<string>): Option<string> {
    if a.Some? && a.value != "" then a else b
  }

  /** `get_env_value(key, default)` as written: an `or` chain, then the empty check. */
  function GetEnvValue(env: Environment, key: string, default: Option<string>): (r: Option<string>)
    ensures r == (match FirstSet(env, Candidates(key))
                  case Some(v) => Some(v)
                  case None => default)
  {
    var names := Candidates(key);
    assert names[1..] == [Lower(key), Upper(key)] && names[1..][1..] == [Upper(key)];
    assert names[1..][1..][1..] == [];
    assert FirstSet(env, names[1..][1..]) == if IsSet(env, Upper(key)) then Some(env[Upper(key)]) else None;
    assert FirstSet(env, names[1..]) == if IsSet(env, Lower(key)) then Some(env[Lower(key)]) else FirstSet(env, names[1..][1..]);
    var value := Or(Or(GetEnv(env, key), GetEnv(env, Lower(key))), GetEnv(env, Upper(key)));
    if value == None || value == Some("") then default else value
  }

  /** A set variable spelled exactly as asked wins over its other spellings. */
  lemma ExactSpellingWins(env: Environment, key: string, default: Option<string>)
    requires IsSet(env, key)
    ensures GetEnvValue(env, key, default) == Some(env[key])
  {
    assert FirstSetAt(env, Candidates(key), 0);
  }

  /** With no spelling set, the default comes back, whatever it is. */
  lemma NoSpellingSetGivesDefault(env: Environment, key: string, default: Option<string>)
    requires forall name :: name in Candidates(key) ==> !IsSet(env, name)
    ensures GetEnvValue(env, key, default) == default
  {
  }

  /** An empty value is skipped: `HTTP_PROXY=""` falls through to `http_proxy`. */
  lemma EmptyValueFallsThrough()
    ensures GetEnvValue(map["HTTP_PROXY" := "", "http_proxy" := "http://p:8080"], "HTTP_PROXY", None)
            == Some("http://p:8080")
  {
    assert Lower("HTTP_PROXY") == "http_proxy";
  }
}
