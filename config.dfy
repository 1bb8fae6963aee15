/** Application configuration: the start-up check that the required
    environment variables are set, and the settings record with its
    defaults. The environment is a map from variable names to values; a
    name outside the map is unset. */
module Config {
  import opened Common

  /** The variables `validate_environment` requires, in declaration order. */
  const RequiredVars: seq<string> :=
    ["SECRET_KEY", "SUPABASE_URL", "SUPABASE_KEY", "PINECONE_API_KEY", "PINECONE_ENVIRONMENT"]

  /** `not os.getenv(name)`: unset, or set to the empty string. */
  predicate Unset(env: map<string, string>, name: string) {
    name !in env || env[name] == ""
  }

  /** The names among `names` that are unset, in the order of `names`. */
  function Missing(names: seq<string>, env: map<string, string>): (m: seq<string>)
    ensures |m| <= |names|
  {
    if |names| == 0 then []
    else Missing(names[..|names| - 1], env) + (if Unset(env, names[|names| - 1]) then [names[|names| - 1]] else [])
  }

  /** A name is reported missing exactly when it is in the list and unset. */
  lemma {:induction false} MissingMembers(names: seq<string>, env: map<string, string>)
    ensures forall n :: n in Missing(names, env) <==> n in names && Unset(env, n)
  {
    if |names| > 0 {
      var init := names[..|names| - 1];
      MissingMembers(init, env);
      assert names == init + [names[|names| - 1]];
    }
  }

  /** Filtering keeps the order: the missing names of a concatenation are
      those of its first part followed by those of its second. */
  lemma {:induction false} MissingAppend(a: seq<string>, b: seq<string>, env: map<string, string>)
    ensures Missing(a + b, env) == Missing(a, env) + Missing(b, env)
  {
    if |b| == 0 {
      assert a + b == a;
    } else {
      var ab := a + b;
      var init := b[..|b| - 1];
      var last := if Unset(env, b[|b| - 1]) then [b[|b| - 1]] else [];
      assert ab[..|ab| - 1] == a + init;
      assert ab[|ab| - 1] == b[|b| - 1];
      assert Missing(ab, env) == Missing(a + init, env) + last;
      assert Missing(b, env) == Missing(init, env) + last;
      MissingAppend(a, init, env);
      assert Missing(ab, env) == (Missing(a, env) + Missing(init, env)) + last;
    }
  }

  const MissingPrefix := "\U{274C} Vari\U{E1}veis de ambiente obrigat\U{F3}rias faltando: "

  /** `validate_environment`: the loop collecting the unset names, then the
      error listing them joined by ", " when there is any. */
  method ValidateEnvironment(env: map<string, string>) returns (r: Result<(), string>)
    ensures r.Err? <==> Missing(RequiredVars, env) != []
    ensures r.Err? ==> r.error == MissingPrefix + Join(Missing(RequiredVars, env), ", ")
  {
    var missing: seq<string> := [];
    for i := 0 to |RequiredVars|
      invariant missing == Missing(RequiredVars[..i], env)
    {
      assert RequiredVars[..i + 1][..i] == RequiredVars[..i];
      var name := RequiredVars[i];
      if name !in env || env[name] == "" {
        missing := missing + [name];
      }
    }
    assert RequiredVars[..|RequiredVars|] == RequiredVars;
    if |missing| > 0 {
      return Err(MissingPrefix + Join(missing, ", "));
    }
    r := Ok(());
  }

  /** A list whose every name is set has nothing missing. */
  lemma {:induction false} NothingUnsetNothingMissing(names: seq<string>, env: map<string, string>)
    requires forall n :: n in names ==> !Unset(env, n)
    ensures Missing(names, env) == []
  {
    if |names| > 0 {
      var init := names[..|names| - 1];
      assert forall n :: n in init ==> n in names;
      NothingUnsetNothingMissing(init, env);
      assert names[|names| - 1] in names;
    }
  }

  /** An environment setting every required variable passes the check. */
  lemma CompleteEnvironmentPasses(env: map<string, string>)
    requires forall n :: n in RequiredVars ==> n in env && env[n] != ""
    ensures Missing(RequiredVars, env) == []
  {
    NothingUnsetNothingMissing(RequiredVars, env);
  }

  /** The settings record (the fields the core reads). */
  datatype Settings = Settings(
    secretKey: string, algorithm: string, accessTokenExpireMinutes: int,
    supabaseUrl: string, supabaseKey: string, supabasePassword: string, databaseUrl: string,
    pineconeApiKey: string, pineconeEnvironment: string, pineconeIndexName: string,
    confidenceThreshold: real, maxFileSize: int, uploadPath: string)
  {
    /** The service key is, for now, the public key. */
    function SupabaseServiceKey(): (k: string)
      ensures k == supabaseKey
    {
      supabaseKey
    }
  }

  /** The fields without a default, as environment names. */
  const SettingsRequired: seq<string> :=
    ["SECRET_KEY", "SUPABASE_URL", "SUPABASE_KEY", "SUPABASE_PASSWORD", "DATABASE_URL",
     "PINECONE_API_KEY", "PINECONE_ENVIRONMENT"]

  /** `Settings()` from an environment that does not override any
      defaulted field: it needs every field without a default to be
      present (an empty value is accepted). */
  function LoadSettings(env: map<string, string>): (s: Option<Settings>)
    ensures s.Some? <==> forall n :: n in SettingsRequired ==> n in env
    ensures s.Some? ==>
      && s.value.confidenceThreshold == 0.6
      && s.value.maxFileSize == 10485760 && s.value.maxFileSize == 10 * 1024 * 1024
      && s.value.accessTokenExpireMinutes == 30
      && s.value.SupabaseServiceKey() == env["SUPABASE_KEY"]
  {
    if forall n :: n in SettingsRequired ==> n in env then
      Some(Settings(env["SECRET_KEY"], "HS256", 30, env["SUPABASE_URL"], env["SUPABASE_KEY"],
                    env["SUPABASE_PASSWORD"], env["DATABASE_URL"], env["PINECONE_API_KEY"],
                    env["PINECONE_ENVIRONMENT"], "face-embeddings", 0.6, 10485760, "./uploads"))
    else None
  }

  /** The start-up check does not cover every field the settings need: an
      environment can pass the check and still fail to load the settings. */
  lemma CheckIsWeakerThanSettings()
    ensures var env := map["SECRET_KEY" := "k", "SUPABASE_URL" := "u", "SUPABASE_KEY" := "p",
                           "PINECONE_API_KEY" := "a", "PINECONE_ENVIRONMENT" := "e"];
            Missing(RequiredVars, env) == [] && LoadSettings(env) == None
  {
    var env := map["SECRET_KEY" := "k", "SUPABASE_URL" := "u", "SUPABASE_KEY" := "p",
                   "PINECONE_API_KEY" := "a", "PINECONE_ENVIRONMENT" := "e"];
    CompleteEnvironmentPasses(env);
    assert "DATABASE_URL" in SettingsRequired && "DATABASE_URL" !in env;
  }
}
