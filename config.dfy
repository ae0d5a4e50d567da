/**
 Application configuration (src/docextractors/config.py).

 The contents of the `.env` file, as `dotenv.dotenv_values` returns them, are an
 input map: a name without `=` in the file has the value `None`. The environment
 map `_env` is that map with "CONFIG_FILE" forced to ".env", and `get_config`
 looks a key up after upper-casing it.
 */
module Config {
  import opened Wrappers

  /** What `dotenv.dotenv_values` returns: names to optional values. */
  type DotEnv = map<string, Option<string>>

  /** `CONFIG_FILE`, the name of the configuration file. */
  const ConfigFile: string := ".env"

  /** The key under which the configuration file name is stored in `_env`. */
  const ConfigFileKey: string := "CONFIG_FILE"

  predicate IsLower(c: char) {
    'a' <= c <= 'z'
  }

  predicate HasLower(s: string) {
    exists i :: 0 <= i < |s| && IsLower(s[i])
  }

  /** `str.upper` on one character, restricted to ASCII letters. */
  function ToUpper(c: char): char {
    if IsLower(c) then (c as int - 32) as char else c
  }

  /** `str.upper`, restricted to ASCII letters. */
  function Upper(s: string): (r: string)
    ensures |r| == |s|
  {
    if s == [] then [] else [ToUpper(s[0])] + Upper(s[1..])
  }

  /** Upper-casing acts on each character on its own. */
  lemma {:induction false} UpperAt(s: string, i: nat)
    requires i < |s|
    ensures Upper(s)[i] == ToUpper(s[i])
  {
    if i > 0 {
      UpperAt(s[1..], i - 1);
    }
  }

  /** No lower-case letter survives upper-casing. */
  lemma {:induction false} UpperHasNoLower(s: string)
    ensures !HasLower(Upper(s))
  {
    forall i | 0 <= i < |s|
      ensures !IsLower(Upper(s)[i])
    {
      UpperAt(s, i);
    }
  }

  /** A string without lower-case letters is its own upper-case form. */
  lemma {:induction false} UpperOfNoLower(s: string)
    requires !HasLower(s)
    ensures Upper(s) == s
  {
    if s != [] {
      assert !IsLower(s[0]);
      assert !HasLower(s[1..]) by {
        forall i | 0 <= i < |s[1..]|
          ensures !IsLower(s[1..][i])
        {
          assert s[1..][i] == s[i + 1];
        }
      }
      UpperOfNoLower(s[1..]);
    }
  }

  /** Upper-casing twice is upper-casing once. */
  lemma {:induction false} UpperIdempotent(s: string)
    ensures Upper(Upper(s)) == Upper(s)
  {
    UpperHasNoLower(s);
    UpperOfNoLower(Upper(s));
  }

  /** `_env`: the `.env` values, then "CONFIG_FILE" written after them. */
  function Env(dotenv: DotEnv): (env: DotEnv)
    ensures env.Keys == dotenv.Keys + {ConfigFileKey}
    ensures env[ConfigFileKey] == Some(ConfigFile)
    ensures forall k :: k in dotenv && k != ConfigFileKey ==> env[k] == dotenv[k]
  {
    dotenv[ConfigFileKey := Some(ConfigFile)]
  }

  /** `get_config(key)`: `_env.get(key.upper())`. */
  function GetConfig(dotenv: DotEnv, key: string): (r: Option<string>)
    ensures Upper(key) == ConfigFileKey ==> r == Some(ConfigFile)
    ensures Upper(key) != ConfigFileKey && Upper(key) in dotenv ==> r == dotenv[Upper(key)]
    ensures Upper(key) != ConfigFileKey && Upper(key) !in dotenv ==> r == None
  {
    var env := Env(dotenv);
    var k := Upper(key);
    if k in env then env[k] else None
  }

  /** "CONFIG_FILE" is always ".env", whatever the `.env` file says about it. */
  lemma GetConfigFileIsFixed(dotenv: DotEnv)
    ensures GetConfig(dotenv, ConfigFileKey) == Some(ConfigFile)
  {
    assert !HasLower(ConfigFileKey);
    UpperOfNoLower(ConfigFileKey);
  }

  /** The lookup ignores the case of the key. */
  lemma GetConfigIgnoresCase(dotenv: DotEnv, key: string)
    ensures GetConfig(dotenv, key) == GetConfig(dotenv, Upper(key))
  {
    UpperIdempotent(key);
  }

  /** A `.env` entry whose name holds a lower-case letter is never looked up:
      removing it changes no answer of `get_config`. */
  lemma LowerCaseEntryUnreachable(dotenv: DotEnv, name: string, key: string)
    requires HasLower(name)
    ensures GetConfig(dotenv, key) == GetConfig(dotenv - {name}, key)
  {
    UpperHasNoLower(key);
    assert Upper(key) != name;
  }
}
