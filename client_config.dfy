/**
 * The browser client's configuration (src/lib/supabase.ts): the project URL is
 * normalised, a real client is built only when both the URL and the anonymous
 * key are present, and otherwise a production build fails to load while a
 * development build warns and exports a stub whose operations all report that
 * the provider is not configured.
 */
module ClientConfig {
  import opened Wrappers
  import opened JsValues

  /** The build-time environment: `VITE_SUPABASE_URL`, `VITE_SUPABASE_ANON_KEY` (each possibly unset) and `PROD`. */
  datatype BuildEnv = BuildEnv(viteUrl: Option<string>, viteAnonKey: Option<string>, prod: bool)

  const MissingConfigText: string := "Missing VITE_SUPABASE_URL or VITE_SUPABASE_ANON_KEY"
  const DevWarningText: string := "VITE_SUPABASE_URL or VITE_SUPABASE_ANON_KEY not set — Supabase disabled in dev."
  const NotConfiguredText: string := "Supabase not configured"

  /** `s.startsWith(prefix)`. */
  predicate StartsWith(s: string, prefix: string) {
    |prefix| <= |s| && s[..|prefix|] == prefix
  }

  /** `env.X || ''` for an environment string. */
  function OrEmpty(v: Option<string>): string {
    v.GetOr("")
  }

  /**
   * The normalised project URL: empty stays empty, a value already starting
   * with `http` is kept, anything else gets `https://` in front.
   */
  function NormaliseUrl(raw: string): (url: string)
    ensures url == "" <==> raw == ""
    ensures url != "" ==> StartsWith(url, "http")
    ensures StartsWith(raw, "http") ==> url == raw
    ensures raw != "" && !StartsWith(raw, "http") ==> url == "https://" + raw && url[8..] == raw
  {
    if raw == "" then ""
    else if StartsWith(raw, "http") then raw
    else "https://" + raw
  }

  /** Normalising an already normalised URL changes nothing. */
  lemma NormaliseIdempotent(raw: string)
    ensures NormaliseUrl(NormaliseUrl(raw)) == NormaliseUrl(raw)
  {
  }

  /** The client module-load chooses: the real provider client or the stub. */
  datatype Client = RealClient(url: string, key: string) | StubClient

  /** Loading the module either throws or yields a client, with the warning it logged, if any. */
  datatype Startup = Crash(message: string) | Loaded(client: Client, warning: Option<string>)

  /** Both configuration values are present after normalisation. */
  predicate Configured(env: BuildEnv) {
    NormaliseUrl(OrEmpty(env.viteUrl)) != "" && OrEmpty(env.viteAnonKey) != ""
  }

  /** What loading the module does for a given build environment. */
  function Load(env: BuildEnv): (s: Startup)
    ensures (s.Loaded? && s.client.RealClient?) <==> OrEmpty(env.viteUrl) != "" && OrEmpty(env.viteAnonKey) != ""
    ensures s.Loaded? && s.client.RealClient? ==>
              s.client == RealClient(NormaliseUrl(OrEmpty(env.viteUrl)), OrEmpty(env.viteAnonKey)) && s.warning == None
    ensures s.Crash? <==> env.prod && !Configured(env)
    ensures s.Crash? ==> s.message == MissingConfigText
    ensures !env.prod && !Configured(env) ==> s == Loaded(StubClient, Some(DevWarningText))
  {
    var url := NormaliseUrl(OrEmpty(env.viteUrl));
    var key := OrEmpty(env.viteAnonKey);
    if url == "" || key == "" then
      if env.prod then Crash(MissingConfigText) else Loaded(StubClient, Some(DevWarningText))
    else
      Loaded(RealClient(url, key), None)
  }

  /** The stub's `auth` operations. */
  datatype AuthCall = OnAuthStateChange | GetSession | SignInWithPassword | SignUp | SignOut

  /** The stub's per-table operations, reached through `from(table)`. */
  datatype TableCall = Select | Insert | Upsert | Update | Delete

  /** The stub's realtime operations, reached through `channel(name)`. */
  datatype ChannelCall = On | Subscribe | Unsubscribe

  const NotConfiguredError: JsValue := Obj1("message", Str(NotConfiguredText))

  /** What a stub `auth` operation resolves to (or, for `onAuthStateChange`, returns). */
  function StubAuth(call: AuthCall): (r: JsValue)
    ensures Truthy(At(r, ["error"])) <==> call == SignInWithPassword || call == SignUp
    ensures call == SignInWithPassword || call == SignUp ==> At(r, ["error", "message"]) == Str(NotConfiguredText)
    ensures call == SignUp ==> At(r, ["data", "user"]) == Null
    ensures call == SignOut ==> At(r, ["error"]) == Null && "error" in r.fields
    ensures call == GetSession ==> At(r, ["data", "session"]) == Null
    ensures call == OnAuthStateChange ==> At(r, ["data", "subscription", "unsubscribe"]) == Callable
  {
    match call
    case OnAuthStateChange => Obj1("data", Obj1("subscription", Obj1("unsubscribe", Callable)))
    case GetSession => Obj1("data", Obj1("session", Null))
    case SignInWithPassword => Obj1("error", NotConfiguredError)
    case SignUp => Obj2("data", Obj1("user", Null), "error", NotConfiguredError)
    case SignOut => Obj1("error", Null)
  }

  /** What `from(table).op()` resolves to in the stub: the table name plays no part. */
  function StubTable(table: string, call: TableCall): (r: JsValue)
    ensures At(r, ["data"]) == Null && "data" in r.fields
    ensures At(r, ["error", "message"]) == Str(NotConfiguredText)
  {
    Obj2("data", Null, "error", NotConfiguredError)
  }

  /** What `channel(name).op()` returns in the stub: an empty object. */
  function StubChannel(name: string, call: ChannelCall): (r: JsValue)
    ensures r.Obj? && r.fields == map[]
  {
    EmptyObj
  }

  /** `removeChannel()` in the stub returns nothing. */
  function StubRemoveChannel(): (r: JsValue)
    ensures !Truthy(r) && r.Undefined?
  {
    Undefined
  }
}
