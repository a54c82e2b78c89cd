/**
 * internal/cli/cli.go: the environment-variable names a command-line flag is
 * also read from (flagName.Envs).
 */
module Cli {
  import opened Text

  const EnvPrefix := "APP_"

  /** The flag names the application declares. */
  const FlagLevel := "level"
  const FlagHttp := "http"
  const FlagConfigUrl := "config-url"

  /** One rune of the environment name: '-' becomes '_', anything else is upper-cased. */
  function EnvRune(c: char): char
  {
    if c == '-' then '_' else ToUpper(c)
  }

  /** The environment variable for flag `name`: EnvPrefix + name, rune by rune through EnvRune. */
  function EnvVar(name: string): (v: string)
    ensures |v| == |EnvPrefix + name|
    ensures forall i :: 0 <= i < |v| ==> v[i] == EnvRune((EnvPrefix + name)[i])
  {
    var chars := EnvPrefix + name;
    seq(|chars|, i requires 0 <= i < |chars| => EnvRune(chars[i]))
  }

  /** Envs: the runes of EnvPrefix + name rewritten in place, returned as the only variable name. */
  method Envs(name: string) returns (envs: seq<string>)
    ensures envs == [EnvVar(name)]
  {
    var s := EnvPrefix + name;
    var chars := new char[|s|](i requires 0 <= i < |s| => s[i]);
    for i := 0 to chars.Length
      invariant forall j :: 0 <= j < i ==> chars[j] == EnvRune(s[j])
      invariant forall j :: i <= j < chars.Length ==> chars[j] == s[j]
    {
      if chars[i] == '-' {
        chars[i] := '_';
      } else {
        chars[i] := ToUpper(chars[i]);
      }
    }
    assert chars[..] == EnvVar(name) by {
      assert forall j :: 0 <= j < |s| ==> chars[..][j] == EnvVar(name)[j];
    }
    envs := [chars[..]];
  }

  /** Every variable name starts with the application prefix. */
  lemma EnvVarHasPrefix(name: string)
    ensures |EnvVar(name)| >= |EnvPrefix| && EnvVar(name)[..|EnvPrefix|] == EnvPrefix
  {
    var v := EnvVar(name);
    assert forall i :: 0 <= i < |EnvPrefix| ==> v[i] == EnvPrefix[i];
  }

  /** Dashes map to underscores at their own position, so no dash survives. */
  lemma EnvVarHasNoDash(name: string)
    ensures forall i :: 0 <= i < |name| && name[i] == '-' ==> EnvVar(name)[|EnvPrefix| + i] == '_'
    ensures '-' !in EnvVar(name)
  {
    var v := EnvVar(name);
    forall i | 0 <= i < |name| && name[i] == '-'
      ensures v[|EnvPrefix| + i] == '_'
    {
      assert (EnvPrefix + name)[|EnvPrefix| + i] == name[i];
    }
    forall i | 0 <= i < |v|
      ensures v[i] != '-'
    {
    }
  }

  /** A name that is already upper case, with no dash, is only prefixed. */
  lemma EnvVarOfUpper(name: string)
    requires forall i :: 0 <= i < |name| ==> name[i] != '-' && !('a' <= name[i] <= 'z')
    ensures EnvVar(name) == EnvPrefix + name
  {
  }

  /** Lower-case letters become their upper-case form; every other non-dash rune is kept. */
  lemma EnvVarUpperCases(name: string, i: nat)
    requires i < |name|
    ensures 'a' <= name[i] <= 'z' ==> EnvVar(name)[|EnvPrefix| + i] == (name[i] as int - 32) as char
    ensures name[i] != '-' && !('a' <= name[i] <= 'z') ==> EnvVar(name)[|EnvPrefix| + i] == name[i]
  {
    assert (EnvPrefix + name)[|EnvPrefix| + i] == name[i];
  }

  lemma ConfigUrlEnv()
    ensures EnvVar(FlagConfigUrl) == "APP_CONFIG_URL"
  {
  }

  lemma LevelEnv()
    ensures EnvVar(FlagLevel) == "APP_LEVEL"
  {
  }

  lemma HttpEnv()
    ensures EnvVar(FlagHttp) == "APP_HTTP"
  {
  }
}
