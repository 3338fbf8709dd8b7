/**
  The `env` object: the application's settings read from the process
  environment, with their defaults, and the check that the required ones are set.
*/
module Environment {

  const DefaultRedirectUri: string := "http://localhost:5173/auth/callback"

  /** The names of the required variables, in the order `validate` reports them. */
  const RequiredVars: seq<string> :=
    ["YOUTUBE_API_KEY", "YOUTUBE_CLIENT_ID", "YOUTUBE_CLIENT_SECRET", "OPENAI_API_KEY"]

  datatype Env = Env(
    youtubeApiKey: string,
    youtubeClientId: string,
    youtubeClientSecret: string,
    youtubeRedirectUri: string,
    openaiApiKey: string,
    isDevelopment: bool,
    isProduction: bool)

  /** `process.env[name] || fallback`: an unset or empty variable gives the fallback. */
  function VarOr(procEnv: map<string, string>, name: string, fallback: string): (r: string)
    ensures name in procEnv && procEnv[name] != "" ==> r == procEnv[name]
    ensures name !in procEnv || procEnv[name] == "" ==> r == fallback
  {
    if name in procEnv && procEnv[name] != "" then procEnv[name] else fallback
  }

  /** The `env` object built from the process environment `procEnv`. */
  function LoadEnv(procEnv: map<string, string>): (e: Env)
    ensures "YOUTUBE_API_KEY" !in procEnv ==> e.youtubeApiKey == ""
    ensures "YOUTUBE_CLIENT_ID" !in procEnv ==> e.youtubeClientId == ""
    ensures "YOUTUBE_CLIENT_SECRET" !in procEnv ==> e.youtubeClientSecret == ""
    ensures "OPENAI_API_KEY" !in procEnv ==> e.openaiApiKey == ""
    ensures e.youtubeRedirectUri != ""
    ensures "YOUTUBE_REDIRECT_URI" !in procEnv ==> e.youtubeRedirectUri == DefaultRedirectUri
    ensures e.isDevelopment == !e.isProduction
    ensures e.isProduction <==> "NODE_ENV" in procEnv && procEnv["NODE_ENV"] == "production"
  {
    Env(
      VarOr(procEnv, "YOUTUBE_API_KEY", ""),
      VarOr(procEnv, "YOUTUBE_CLIENT_ID", ""),
      VarOr(procEnv, "YOUTUBE_CLIENT_SECRET", ""),
      VarOr(procEnv, "YOUTUBE_REDIRECT_URI", DefaultRedirectUri),
      VarOr(procEnv, "OPENAI_API_KEY", ""),
      !("NODE_ENV" in procEnv && procEnv["NODE_ENV"] == "production"),
      "NODE_ENV" in procEnv && procEnv["NODE_ENV"] == "production")
  }

  /** The value `env` holds for the required variable `name` ('' for any other name). */
  function Setting(e: Env, name: string): (r: string)
  {
    if name == "YOUTUBE_API_KEY" then e.youtubeApiKey
    else if name == "YOUTUBE_CLIENT_ID" then e.youtubeClientId
    else if name == "YOUTUBE_CLIENT_SECRET" then e.youtubeClientSecret
    else if name == "OPENAI_API_KEY" then e.openaiApiKey
    else ""
  }

  /** Reference definition: the names in `names` whose setting is empty, in the order of `names`. */
  function Missing(e: Env, names: seq<string>): (r: seq<string>)
  {
    if names == [] then []
    else if Setting(e, names[0]) == "" then [names[0]] + Missing(e, names[1..])
    else Missing(e, names[1..])
  }

  /** `a` can be obtained from `b` by deleting elements (greedy matching decides this). */
  predicate SubsequenceOf<T(==)>(a: seq<T>, b: seq<T>)
  {
    if a == [] then true
    else if b == [] then false
    else if a[0] == b[0] then SubsequenceOf(a[1..], b[1..])
    else SubsequenceOf(a, b[1..])
  }

  predicate NoDuplicates<T(==)>(s: seq<T>)
  {
    forall i, j :: 0 <= i < j < |s| ==> s[i] != s[j]
  }

  /** A name is reported missing iff it is one of `names` and its setting is empty. */
  lemma {:induction false} MissingMembers(e: Env, names: seq<string>, x: string)
    ensures x in Missing(e, names) <==> x in names && Setting(e, x) == ""
  {
    if names != [] {
      MissingMembers(e, names[1..], x);
      assert names == [names[0]] + names[1..];
    }
  }

  /** The report keeps the order of `names`: it is a subsequence of it. */
  lemma {:induction false} MissingIsSubsequence(e: Env, names: seq<string>)
    ensures SubsequenceOf(Missing(e, names), names)
    ensures |Missing(e, names)| <= |names|
  {
    if names != [] {
      MissingIsSubsequence(e, names[1..]);
      if Setting(e, names[0]) != "" {
        SkipHead(Missing(e, names[1..]), names);
      }
    }
  }

  /** A subsequence of the tail of `b` is a subsequence of `b`. */
  lemma {:induction false} SkipHead<T>(a: seq<T>, b: seq<T>)
    requires b != [] && SubsequenceOf(a, b[1..])
    ensures SubsequenceOf(a, b)
  {
    if a != [] && a[0] == b[0] {
      // a[1..] is a subsequence of b[1..] too, since a is one of b[1..].
      DropHead(a, b[1..]);
    }
  }

  /** Dropping the first element of a subsequence leaves a subsequence. */
  lemma {:induction false} DropHead<T>(a: seq<T>, b: seq<T>)
    requires a != [] && SubsequenceOf(a, b)
    ensures SubsequenceOf(a[1..], b)
  {
    if b != [] {
      if a[0] == b[0] {
        if a[1..] != [] {
          SkipHead(a[1..], b);
        }
      } else {
        DropHead(a, b[1..]);
        SkipHead(a[1..], b);
      }
    }
  }

  /** When `names` has no duplicates, neither has the report. */
  lemma {:induction false} MissingNoDuplicates(e: Env, names: seq<string>)
    requires NoDuplicates(names)
    ensures NoDuplicates(Missing(e, names))
  {
    if names != [] {
      MissingNoDuplicates(e, names[1..]);
      var rest := Missing(e, names[1..]);
      if Setting(e, names[0]) == "" {
        MissingMembers(e, names[1..], names[0]);
        assert names[0] !in names[1..];
        assert names[0] !in rest;
        var r := [names[0]] + rest;
        forall i, j | 0 <= i < j < |r| ensures r[i] != r[j] {
          if i == 0 {
            assert r[j] == rest[j - 1];
          } else {
            assert r[i] == rest[i - 1] && r[j] == rest[j - 1];
          }
        }
      }
    }
  }

  /** One step of the reference definition: the head is reported or not, then the tail. */
  lemma MissingStep(e: Env, names: seq<string>)
    requires names != []
    ensures Missing(e, names) == (if Setting(e, names[0]) == "" then [names[0]] else []) + Missing(e, names[1..])
  {
  }

  /** The settings of the four required names, in order. */
  lemma RequiredSettings(e: Env)
    ensures Setting(e, RequiredVars[0]) == e.youtubeApiKey
    ensures Setting(e, RequiredVars[1]) == e.youtubeClientId
    ensures Setting(e, RequiredVars[2]) == e.youtubeClientSecret
    ensures Setting(e, RequiredVars[3]) == e.openaiApiKey
  {
  }

  /** The name `name` when its setting `value` is empty, else nothing. */
  function IfEmpty(value: string, name: string): (r: seq<string>)
  {
    if value == "" then [name] else []
  }

  /** The reference report on the required names, unfolded: one optional entry per name. */
  lemma {:induction false} MissingRequired(e: Env)
    ensures Missing(e, RequiredVars)
         == IfEmpty(e.youtubeApiKey, "YOUTUBE_API_KEY") + IfEmpty(e.youtubeClientId, "YOUTUBE_CLIENT_ID")
          + IfEmpty(e.youtubeClientSecret, "YOUTUBE_CLIENT_SECRET") + IfEmpty(e.openaiApiKey, "OPENAI_API_KEY")
  {
    RequiredSettings(e);
    var r := RequiredVars;
    MissingStep(e, r);
    MissingStep(e, r[1..]);
    MissingStep(e, r[2..]);
    MissingStep(e, r[3..]);
    assert r[1..][1..] == r[2..] && r[2..][1..] == r[3..] && r[3..][1..] == [];
    assert r[1..][0] == r[1] && r[2..][0] == r[2] && r[3..][0] == r[3];
  }

  /** The `validate` helper: the required variables that are empty, pushed in the fixed order. */
  method Validate(e: Env) returns (missingVars: seq<string>)
    ensures missingVars == Missing(e, RequiredVars)
  {
    MissingRequired(e);
    missingVars := [];
    if e.youtubeApiKey == "" { missingVars := missingVars + ["YOUTUBE_API_KEY"]; }
    if e.youtubeClientId == "" { missingVars := missingVars + ["YOUTUBE_CLIENT_ID"]; }
    if e.youtubeClientSecret == "" { missingVars := missingVars + ["YOUTUBE_CLIENT_SECRET"]; }
    if e.openaiApiKey == "" { missingVars := missingVars + ["OPENAI_API_KEY"]; }
  }

  /**
    What `validate` promises: the report lists exactly the empty required
    variables, at most four, each once, in the fixed order, and it never
    mentions the redirect URI.
  */
  lemma ValidateReport(e: Env)
    ensures Missing(e, RequiredVars) == [] <==>
      e.youtubeApiKey != "" && e.youtubeClientId != "" && e.youtubeClientSecret != "" && e.openaiApiKey != ""
    ensures forall x :: x in Missing(e, RequiredVars) <==> x in RequiredVars && Setting(e, x) == ""
    ensures SubsequenceOf(Missing(e, RequiredVars), RequiredVars)
    ensures |Missing(e, RequiredVars)| <= 4
    ensures NoDuplicates(Missing(e, RequiredVars))
    ensures "YOUTUBE_REDIRECT_URI" !in Missing(e, RequiredVars)
  {
    forall x ensures x in Missing(e, RequiredVars) <==> x in RequiredVars && Setting(e, x) == "" {
      MissingMembers(e, RequiredVars, x);
    }
    MissingIsSubsequence(e, RequiredVars);
    MissingNoDuplicates(e, RequiredVars);
    assert RequiredVars[0] in RequiredVars && RequiredVars[1] in RequiredVars;
    assert RequiredVars[2] in RequiredVars && RequiredVars[3] in RequiredVars;
    if Missing(e, RequiredVars) != [] {
      var x := Missing(e, RequiredVars)[0];
      assert x in Missing(e, RequiredVars);
    }
  }

  /** The report depends only on the four required variables: the redirect URI and the mode play no part. */
  lemma {:induction false} MissingIgnoresOtherSettings(e: Env, e': Env, names: seq<string>)
    requires e.youtubeApiKey == e'.youtubeApiKey && e.youtubeClientId == e'.youtubeClientId
    requires e.youtubeClientSecret == e'.youtubeClientSecret && e.openaiApiKey == e'.openaiApiKey
    ensures Missing(e, names) == Missing(e', names)
  {
    if names != [] {
      MissingIgnoresOtherSettings(e, e', names[1..]);
    }
  }

  /** `checkEnvironment`: true iff no required variable is missing. */
  method CheckEnvironment(e: Env) returns (ok: bool)
    ensures ok <==>
      e.youtubeApiKey != "" && e.youtubeClientId != "" && e.youtubeClientSecret != "" && e.openaiApiKey != ""
  {
    var missingVars := Validate(e);
    ValidateReport(e);
    ok := !(|missingVars| > 0);
  }
}
