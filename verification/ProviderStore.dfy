/** Runtime provider registration (pkg/server/providers.go): lanes kept in memory, projected onto a JSON file, and loaded
    back.  Writing the file is one atomic step that may fail; JSON printing and parsing of an entry is the identity. */
module ProviderStore {
  import opened Common

  // quirks.freebuff_actor at run time: absent, the marker an MCP call sends, or a working actor.
  datatype Actor = NoActor | Marker | Real(tag: string)

  datatype Quirks = Quirks(
    codingPlanPath: bool, maxTokensByModel: map<string, int>, echoReasoning: bool, modelListPassthrough: bool,
    authViaOAuthManager: bool, creditsQuotaObserver: string, authViaSupabaseRefresh: bool, freebuffActor: Actor,
    freebuffDefaultTool: bool, freebuffValidate: bool, defaultModel: string)

  // openaicompat.Config without its HTTP client and token source.
  datatype Config = Config(
    name: string, baseURL: string, apiKey: string, creds: Option<string>, quirks: Quirks,
    optOutModelListPassthrough: bool, refreshURL: string, tokenFile: string, deviceAuthURL: string, tokenURL: string)

  datatype StoredQuirks = StoredQuirks(
    codingPlanPath: bool, maxTokensByModel: map<string, int>, echoReasoning: bool, modelListPassthrough: Option<bool>,
    authViaOAuthManager: bool, creditsQuotaObserver: string, authViaSupabaseRefresh: bool, freebuffActor: bool,
    freebuffDefaultTool: bool, defaultModel: string)

  const NO_QUIRKS := StoredQuirks(false, map[], false, None, false, "", false, false, false, "")

  datatype Stored = Stored(kind: string, name: string, baseURL: string, apiKey: string, quirks: StoredQuirks)

  type Builder = Config -> Actor

  // What the daemon has installed in the store: DefaultDataDir, Creds (by identity) and ActorBuilder.
  datatype Env = Env(dataDir: string, creds: Option<string>, builder: Option<Builder>)

  const OPENAI_COMPAT := "openaicompat"

  // ---------------------------------------------------------------- projections

  function ModelListPassthroughEnabled(cfg: Config): bool {
    !cfg.optOutModelListPassthrough && cfg.quirks.freebuffActor == NoActor && !cfg.quirks.freebuffDefaultTool
  }

  function StoredPassthrough(cfg: Config): Option<bool> {
    if !cfg.optOutModelListPassthrough && !cfg.quirks.modelListPassthrough then None
    else Some(ModelListPassthroughEnabled(cfg))
  }

  function ToStored(cfg: Config): Stored {
    Stored("", cfg.name, cfg.baseURL, cfg.apiKey,
           StoredQuirks(cfg.quirks.codingPlanPath, cfg.quirks.maxTokensByModel, cfg.quirks.echoReasoning,
                        StoredPassthrough(cfg), cfg.quirks.authViaOAuthManager, cfg.quirks.creditsQuotaObserver,
                        cfg.quirks.authViaSupabaseRefresh, cfg.quirks.freebuffActor != NoActor,
                        cfg.quirks.freebuffDefaultTool, cfg.quirks.defaultModel))
  }

  // The config of a stored lane before its actor and its discovery flag are set.
  function Plain(sp: Stored): Config {
    Config(sp.name, sp.baseURL, sp.apiKey, None,
           Quirks(sp.quirks.codingPlanPath, sp.quirks.maxTokensByModel, sp.quirks.echoReasoning, false,
                  sp.quirks.authViaOAuthManager, sp.quirks.creditsQuotaObserver, sp.quirks.authViaSupabaseRefresh, NoActor,
                  sp.quirks.freebuffDefaultTool, false, sp.quirks.defaultModel),
           false, "", "", "", "")
  }

  function Build(builder: Option<Builder>, cfg: Config): Actor {
    if builder.Some? then builder.value(cfg) else NoActor
  }

  function ToConfig(sp: Stored, builder: Option<Builder>): Config {
    var cfg := Plain(sp);
    var actor := if sp.quirks.freebuffActor then Build(builder, cfg) else NoActor;
    var flag := sp.quirks.modelListPassthrough;
    cfg.(quirks := cfg.quirks.(freebuffActor := actor, modelListPassthrough := flag == Some(true)),
         optOutModelListPassthrough := flag == Some(false))
  }

  function InjectCreds(env: Env, cfg: Config): Config {
    cfg.(tokenFile := if cfg.quirks.authViaSupabaseRefresh && cfg.tokenFile == "" && env.dataDir != ""
                      then env.dataDir + "/credentials/" + cfg.name + "/augure-auth.json" else cfg.tokenFile,
         creds := if cfg.creds.None? then env.creds else cfg.creds)
  }

  function Enrich(env: Env, cfg: Config): Config {
    var injected := InjectCreds(env, cfg);
    var flagged := injected.(quirks := injected.quirks.(modelListPassthrough := ModelListPassthroughEnabled(injected)));
    if flagged.quirks.freebuffActor.Marker? && Build(env.builder, flagged) != NoActor then
      flagged.(quirks := flagged.quirks.(freebuffActor := Build(env.builder, flagged)))
    else flagged
  }

  // A config that has been filled in and whose actor the builder would not replace.
  predicate Settles(env: Env, cfg: Config) {
    && InjectCreds(env, cfg) == cfg && cfg.quirks.modelListPassthrough == ModelListPassthroughEnabled(cfg)
    && (cfg.quirks.freebuffActor.Marker? ==> !Build(env.builder, cfg).Real?)
  }

  lemma {:induction false} SettledStays(env: Env, cfg: Config)
    requires Settles(env, cfg)
    ensures Enrich(env, cfg) == cfg
  {
    assert cfg.(quirks := cfg.quirks.(modelListPassthrough := ModelListPassthroughEnabled(cfg))) == cfg;
  }

  lemma {:induction false} EnrichSettles(env: Env, cfg: Config)
    ensures Settles(env, Enrich(env, cfg))
  {
  }

  /** Enriching twice is enriching once, whatever the builder builds: a working actor is kept, and a marker it does not
      replace is offered to it again as it was. */
  lemma {:induction false} EnrichIdempotent(env: Env, cfg: Config)
    ensures Enrich(env, Enrich(env, cfg)) == Enrich(env, cfg)
  {
    EnrichSettles(env, cfg);
    SettledStays(env, Enrich(env, cfg));
  }

  // ---------------------------------------------------------------- validation

  predicate NameChar(c: char) {
    'a' <= c <= 'z' || '0' <= c <= '9'
  }

  // ^[a-z0-9][a-z0-9_-]*$
  predicate NameOk(s: string) {
    s != "" && NameChar(s[0]) && forall i :: 0 <= i < |s| ==> NameChar(s[i]) || s[i] == '_' || s[i] == '-'
  }

  predicate ConfigOk(cfg: Config) {
    && NameOk(TrimSpace(cfg.name)) && TrimSpace(cfg.baseURL) != ""
    && forall c :: c in TrimSpace(cfg.baseURL) ==> c != ' ' && c != '\t' && c != '\n'
  }

  predicate CustomOk(name: string, kind: string) {
    NameOk(TrimSpace(name)) && kind != "" && kind != OPENAI_COMPAT
  }

  // A lower-case letter or a digit, and then any number of those, hyphens and underscores.
  predicate LaneName(s: string) {
    |s| > 0 && forall i :: 0 <= i < |s| ==>
      'a' <= s[i] <= 'z' || '0' <= s[i] <= '9' || (i > 0 && (s[i] == '_' || s[i] == '-'))
  }

  // No blank, tab or line end in it.
  predicate Unbroken(s: string) {
    ' ' !in s && '\t' !in s && '\n' !in s
  }

  /** Which registrations are accepted: without the white space around them, the name is a lane name and the base URL is
      neither empty nor broken; a custom lane needs a type of its own. */
  lemma {:induction false} AcceptedIff(cfg: Config, name: string, kind: string, n: string, u: string)
    requires Stripped(cfg.name, n) && Stripped(cfg.baseURL, u)
    ensures ConfigOk(cfg) <==> LaneName(n) && u != "" && Unbroken(u)
    ensures Stripped(name, n) ==> (CustomOk(name, kind) <==> LaneName(n) && kind != "" && kind != "openaicompat")
  {
    StrippedIff(cfg.name, n);
    StrippedIff(cfg.baseURL, u);
    StrippedIff(name, n);
  }

  /** What the daemon fills in when a lane is added or loaded: its own credentials where the lane has none, the token file of a
      lane that refreshes through Supabase and names none, and the discovery flag, which a lane has unless it opted out or is a
      Freebuff lane. */
  lemma {:induction false} FilledIn(env: Env, cfg: Config)
    ensures var live := Enrich(env, cfg);
      && live.creds == (if cfg.creds.Some? then cfg.creds else env.creds)
      && live.tokenFile == (if cfg.quirks.authViaSupabaseRefresh && cfg.tokenFile == "" && env.dataDir != ""
                            then env.dataDir + "/credentials/" + cfg.name + "/augure-auth.json" else cfg.tokenFile)
      && (live.quirks.modelListPassthrough
          <==> !cfg.optOutModelListPassthrough && cfg.quirks.freebuffActor == NoActor && !cfg.quirks.freebuffDefaultTool)
      && (cfg.quirks.freebuffActor.Marker? ==> live.quirks.freebuffActor != NoActor)
      && (!cfg.quirks.freebuffActor.Marker? ==> live.quirks.freebuffActor == cfg.quirks.freebuffActor)
      && live == cfg.(creds := live.creds, tokenFile := live.tokenFile,
                      quirks := cfg.quirks.(modelListPassthrough := live.quirks.modelListPassthrough,
                                            freebuffActor := live.quirks.freebuffActor))
  {
  }

  /** The name is checked without the blanks around it but stored with them: the stored key is well formed exactly when
      there were none. */
  lemma {:induction false} StoredNameOkIff(cfg: Config)
    requires ConfigOk(cfg)
    ensures NameOk(cfg.name) <==> TrimSpace(cfg.name) == cfg.name
  {
    if NameOk(cfg.name) {
      assert TrimLeft(cfg.name) == cfg.name;
      var last := Last(cfg.name);
      assert NameChar(last) || last == '_' || last == '-';
    }
  }

  // ---------------------------------------------------------------- the store

  type File = map<string, Stored>

  /** file is None until the first write; durable is false for a store without a path. */
  datatype Store = Store(durable: bool, file: Option<File>, providers: map<string, Config>, custom: File,
                         freebuff: map<string, bool>)

  const NO_ENV := Env("", None, None)

  predicate Ordinary(sp: Stored) {
    sp.kind == "" || sp.kind == OPENAI_COMPAT
  }

  function Loaded(env: Env, file: File): Store {
    Store(true, Some(file),
          map k | k in file && Ordinary(file[k]) :: InjectCreds(env, ToConfig(file[k], env.builder)),
          map k | k in file && !Ordinary(file[k]) :: file[k],
          map k | k in file && Ordinary(file[k]) :: file[k].quirks.freebuffActor)
  }

  function Project(cfg: Config, freebuff: bool): Stored {
    var sp := ToStored(cfg).(kind := OPENAI_COMPAT);
    if freebuff then sp.(quirks := sp.quirks.(freebuffActor := true)) else sp
  }

  // What persistState writes.
  function Snapshot(s: Store): File {
    Projected(s.providers, s.freebuff) + s.custom
  }

  function Projected(providers: map<string, Config>, freebuff: map<string, bool>): File {
    map k | k in providers :: Project(providers[k], k in freebuff && freebuff[k])
  }

  function Fresh(durable: bool): Store {
    Store(durable, None, map[], map[], map[])
  }

  datatype Op =
    | Add(cfg: Config, env: Env, writable: bool)
    | AddCustom(name: string, kind: string, apiKey: string, writable: bool)
    | Remove(name: string, writable: bool)
    | Load(env: Env, readable: bool)
    | Restart(readable: bool)

  // The new maps are published only when the file could be written.
  function Persisted(s: Store, next: Store, writable: bool): Store {
    if !s.durable then next else if writable then next.(file := Some(Snapshot(next))) else s
  }

  function Added(s: Store, cfg: Config): Store {
    s.(providers := s.providers[cfg.name := cfg], custom := s.custom - {cfg.name},
       freebuff := s.freebuff[cfg.name := cfg.quirks.freebuffActor != NoActor])
  }

  function CustomAdded(s: Store, name: string, kind: string, apiKey: string): Store {
    s.(providers := s.providers - {name}, freebuff := s.freebuff - {name},
       custom := s.custom[name := Stored(kind, name, "", apiKey, NO_QUIRKS)])
  }

  function Removed(s: Store, name: string): Store {
    s.(providers := s.providers - {name}, custom := s.custom - {name}, freebuff := s.freebuff - {name})
  }

  // A missing file empties the ordinary lanes only.
  function Reload(s: Store, env: Env): Store {
    if !s.durable then s
    else if s.file.None? then s.(providers := map[], freebuff := map[])
    else Loaded(env, s.file.value)
  }

  function Reopen(s: Store, readable: bool): Store {
    if !s.durable || s.file.None? || !readable then Fresh(s.durable).(file := s.file) else Loaded(NO_ENV, s.file.value)
  }

  function Exec(s: Store, op: Op): Store {
    match op
    case Add(cfg, env, w) => if ConfigOk(cfg) then Persisted(s, Added(s, Enrich(env, cfg)), w) else s
    case AddCustom(name, kind, key, w) =>
      if CustomOk(name, kind) then Persisted(s, CustomAdded(s, TrimSpace(name), kind, key), w) else s
    case Remove(name, w) =>
      if name in s.providers || name in s.custom then Persisted(s, Removed(s, name), w) else s
    case Load(env, readable) => if readable || s.file.None? then Reload(s, env) else s
    case Restart(readable) => Reopen(s, readable)
  }

  function Run(s: Store, ops: seq<Op>): Store {
    if ops == [] then s else Exec(Run(s, DropLast(ops)), Last(ops))
  }

  // ---------------------------------------------------------------- a restart loses nothing

  /** The entry an added lane is to have: an explicit discovery decision is kept, and a lane is Freebuff when it came with
      an actor.  What the daemon has installed does not show. */
  function StoredAs(cfg: Config): Stored {
    var q := cfg.quirks;
    var decision := if cfg.optOutModelListPassthrough then Some(false)
                    else if q.freebuffActor != NoActor || q.freebuffDefaultTool then None else Some(true);
    Stored(OPENAI_COMPAT, cfg.name, cfg.baseURL, cfg.apiKey,
           StoredQuirks(q.codingPlanPath, q.maxTokensByModel, q.echoReasoning, decision, q.authViaOAuthManager,
                        q.creditsQuotaObserver, q.authViaSupabaseRefresh, q.freebuffActor != NoActor,
                        q.freebuffDefaultTool, q.defaultModel))
  }

  // The registrations that reached the disk, in order; loading and restarting do not appear in it.
  function Replay(file: File, op: Op): File {
    match op
    case Add(cfg, _, w) => if ConfigOk(cfg) && w then file[cfg.name := StoredAs(cfg)] else file
    case AddCustom(name, kind, key, w) =>
      if CustomOk(name, kind) && w then file[TrimSpace(name) := Stored(kind, TrimSpace(name), "", key, NO_QUIRKS)] else file
    case Remove(name, w) => if w then file - {name} else file
    case _ => file
  }

  function ReplayAll(ops: seq<Op>): File {
    if ops == [] then map[] else Replay(ReplayAll(DropLast(ops)), Last(ops))
  }

  // Loading the entry and writing it again gives the entry back, whatever the builder.
  predicate Settled(sp: Stored) {
    Ordinary(sp) ==>
      && sp.kind == OPENAI_COMPAT
      && (sp.quirks.modelListPassthrough == Some(true) ==> !sp.quirks.freebuffDefaultTool && !sp.quirks.freebuffActor)
  }

  ghost predicate LanesOk(s: Store) {
    && s.freebuff.Keys == s.providers.Keys && s.providers.Keys !! s.custom.Keys
    && (forall k :: k in s.custom ==> !Ordinary(s.custom[k]))
    && (forall k :: k in s.providers && s.providers[k].quirks.freebuffActor != NoActor ==> s.freebuff[k])
  }

  function Content(s: Store): File {
    if s.file.Some? then s.file.value else map[]
  }

  /** Memory projects onto file, which is what was registered. */
  ghost predicate Inv(s: Store, file: File) {
    && s.durable && LanesOk(s) && Snapshot(s) == file && Content(s) == file
    && forall k :: k in file ==> Settled(file[k])
  }

  lemma {:induction false} EnrichedProjection(env: Env, cfg: Config)
    ensures Project(Enrich(env, cfg), Enrich(env, cfg).quirks.freebuffActor != NoActor) == StoredAs(cfg)
    ensures Settled(StoredAs(cfg))
  {
  }

  // Maps put together from two with different keys.
  lemma {:induction false} PutLeft<V>(a: map<string, V>, b: map<string, V>, k: string, v: V)
    ensures a[k := v] + (b - {k}) == (a + b)[k := v]
  {
  }

  lemma {:induction false} PutRight<V>(a: map<string, V>, b: map<string, V>, k: string, v: V)
    ensures (a - {k}) + b[k := v] == (a + b)[k := v]
  {
  }

  lemma {:induction false} DropBoth<V>(a: map<string, V>, b: map<string, V>, k: string)
    ensures (a - {k}) + (b - {k}) == (a + b) - {k}
  {
  }

  lemma {:induction false} ProjectedPut(providers: map<string, Config>, freebuff: map<string, bool>, k: string, cfg: Config, f: bool)
    ensures Projected(providers[k := cfg], freebuff[k := f]) == Projected(providers, freebuff)[k := Project(cfg, f)]
  {
  }

  lemma {:induction false} ProjectedDrop(providers: map<string, Config>, freebuff: map<string, bool>, k: string)
    ensures Projected(providers - {k}, freebuff - {k}) == Projected(providers, freebuff) - {k}
  {
  }

  lemma {:induction false} AddSnapshot(s: Store, cfg: Config, env: Env)
    ensures Snapshot(Added(s, Enrich(env, cfg))) == Snapshot(s)[cfg.name := StoredAs(cfg)]
  {
    var lane := Enrich(env, cfg);
    var flag := lane.quirks.freebuffActor != NoActor;
    EnrichedProjection(env, cfg);
    ProjectedPut(s.providers, s.freebuff, cfg.name, lane, flag);
    PutLeft(Projected(s.providers, s.freebuff), s.custom, cfg.name, StoredAs(cfg));
  }

  lemma {:induction false} AddCustomSnapshot(s: Store, name: string, kind: string, apiKey: string)
    ensures Snapshot(CustomAdded(s, name, kind, apiKey)) == Snapshot(s)[name := Stored(kind, name, "", apiKey, NO_QUIRKS)]
  {
    ProjectedDrop(s.providers, s.freebuff, name);
    PutRight(Projected(s.providers, s.freebuff), s.custom, name, Stored(kind, name, "", apiKey, NO_QUIRKS));
  }

  lemma {:induction false} RemoveSnapshot(s: Store, name: string)
    ensures Snapshot(Removed(s, name)) == Snapshot(s) - {name}
  {
    ProjectedDrop(s.providers, s.freebuff, name);
    DropBoth(Projected(s.providers, s.freebuff), s.custom, name);
  }

  lemma {:induction false} LoadedSnapshot(env: Env, file: File)
    requires forall k :: k in file ==> Settled(file[k])
    ensures Snapshot(Loaded(env, file)) == file
  {
    LoadThenPersistIff(env, file);
  }

  // What writing the state just published leaves to show.
  lemma {:induction false} PersistedInv(s: Store, next: Store, file: File)
    requires s.durable && next.durable && LanesOk(next) && Snapshot(next) == file && forall k :: k in file ==> Settled(file[k])
    ensures Inv(Persisted(s, next, true), file)
  {
    assert Snapshot(next.(file := Some(file))) == Snapshot(next);
  }

  lemma {:induction false} LanesStayOk(s: Store, cfg: Config, name: string, kind: string, apiKey: string)
    requires LanesOk(s)
    ensures LanesOk(Added(s, cfg)) && LanesOk(Removed(s, name))
    ensures kind != "" && kind != OPENAI_COMPAT ==> LanesOk(CustomAdded(s, name, kind, apiKey))
  {
  }

  lemma {:induction false} LoadedInv(env: Env, file: File)
    requires forall k :: k in file ==> Settled(file[k])
    ensures Inv(Loaded(env, file), file)
  {
    LoadedSnapshot(env, file);
    LoadedLanesOk(env, file);
  }

  lemma {:induction false} LoadedLanesOk(env: Env, file: File)
    ensures LanesOk(Loaded(env, file))
  {
  }

  lemma {:induction false} AddInv(s: Store, file: File, cfg: Config, env: Env)
    requires Inv(s, file)
    ensures Inv(Persisted(s, Added(s, Enrich(env, cfg)), true), file[cfg.name := StoredAs(cfg)])
  {
    var lane := Enrich(env, cfg);
    assert lane.name == cfg.name;
    AddSnapshot(s, cfg, env);
    EnrichedProjection(env, cfg);
    LanesStayOk(s, lane, "", "", "");
    PersistedInv(s, Added(s, lane), file[cfg.name := StoredAs(cfg)]);
  }

  lemma {:induction false} AddCustomInv(s: Store, file: File, name: string, kind: string, apiKey: string)
    requires Inv(s, file) && kind != "" && kind != OPENAI_COMPAT
    ensures Inv(Persisted(s, CustomAdded(s, name, kind, apiKey), true), file[name := Stored(kind, name, "", apiKey, NO_QUIRKS)])
  {
    var sp := Stored(kind, name, "", apiKey, NO_QUIRKS);
    AddCustomSnapshot(s, name, kind, apiKey);
    LanesStayOk(s, Plain(sp), name, kind, apiKey);
    PersistedInv(s, CustomAdded(s, name, kind, apiKey), file[name := sp]);
  }

  lemma {:induction false} RemoveInv(s: Store, file: File, name: string)
    requires Inv(s, file)
    ensures Inv(Persisted(s, Removed(s, name), true), file - {name})
  {
    RemoveSnapshot(s, name);
    LanesStayOk(s, Plain(Stored("", "", "", "", NO_QUIRKS)), name, "", "");
    PersistedInv(s, Removed(s, name), file - {name});
  }

  lemma {:induction false} RemoveAbsent(s: Store, name: string)
    requires name !in s.providers && name !in s.custom
    ensures Snapshot(s) - {name} == Snapshot(s)
  {
  }

  lemma {:induction false} ExecInv(s: Store, file: File, op: Op)
    requires Inv(s, file) && op != Restart(false)
    ensures Inv(Exec(s, op), Replay(file, op))
  {
    match op
    case Add(cfg, env, w) => AddInv(s, file, cfg, env);
    case AddCustom(name, kind, key, w) =>
      if CustomOk(name, kind) {
        AddCustomInv(s, file, TrimSpace(name), kind, key);
      }
    case Remove(name, w) =>
      if name in s.providers || name in s.custom {
        RemoveInv(s, file, name);
      } else {
        RemoveAbsent(s, name);
      }
    case Load(env, _) => ReloadInv(s, file, env);
    case Restart(_) => ReloadInv(s, file, NO_ENV);
  }

  lemma {:induction false} ReloadInv(s: Store, file: File, env: Env)
    requires Inv(s, file)
    ensures Inv(Reload(s, env), file) && Inv(Reopen(s, true), file)
  {
    if s.file.Some? {
      LoadedInv(env, file);
      LoadedInv(NO_ENV, file);
    } else {
      assert s.providers.Keys + s.custom.Keys == Snapshot(s).Keys == {};
      assert s.providers == map[] && s.custom == map[] && s.freebuff == map[];
    }
  }

  /** Over any run of registrations, removals, loads and restarts, with writes failing at will and whatever is installed
      at each point, file and memory are exactly the registrations that were acknowledged, as if no load or restart had
      happened. */
  lemma {:induction false} RestartsDoNotMatter(ops: seq<Op>)
    requires forall i :: 0 <= i < |ops| ==> ops[i] != Restart(false)
    ensures Inv(Run(Fresh(true), ops), ReplayAll(ops))
    decreases |ops|
  {
    if ops != [] {
      RestartsDoNotMatter(DropLast(ops));
      ExecInv(Run(Fresh(true), DropLast(ops)), ReplayAll(DropLast(ops)), Last(ops));
    }
  }

  /** A restart that cannot read the file keeps memory in step with it only when the file holds nothing. */
  lemma {:induction false} UnreadableRestartIff(s: Store, file: File)
    requires Inv(s, file)
    ensures Inv(Reopen(s, false), file) <==> file == map[]
  {
    assert Snapshot(Reopen(s, false)) == map[];
  }

  // Loading a deleted file keeps the custom lanes only.
  lemma {:induction false} DeletedServes(s: Store, file: File, env: Env)
    requires Inv(s, file)
    ensures Snapshot(Reload(s.(file := None), env)) == s.custom
  {
    assert Projected(map[], map[]) == map[];
  }

  /** Loading a file that was deleted from outside keeps the custom lanes: memory is emptied only if there were none. */
  lemma {:induction false} DeletedFileIff(s: Store, file: File, env: Env)
    requires Inv(s, file)
    ensures Snapshot(Reload(s.(file := None), env)) == map[] <==> forall k :: k in file ==> Ordinary(file[k])
  {
    DeletedServes(s, file, env);
    SnapshotEntries(s);
    if s.custom != map[] {
      var k :| k in s.custom;
      assert k in file;
    }
  }

  lemma {:induction false} SnapshotEntries(s: Store)
    ensures forall k :: k in s.custom ==> k in Snapshot(s) && Snapshot(s)[k] == s.custom[k]
    ensures forall k :: k in Snapshot(s) && k !in s.custom ==> Snapshot(s)[k].kind == OPENAI_COMPAT
  {
  }

  // ---------------------------------------------------------------- files written by hand

  // As Settled, for the builder that is installed.
  predicate Canonical(env: Env, sp: Stored) {
    Ordinary(sp) ==>
      && sp.kind == OPENAI_COMPAT
      && (sp.quirks.modelListPassthrough == Some(true) ==>
            && !sp.quirks.freebuffDefaultTool
            && (sp.quirks.freebuffActor ==> Build(env.builder, Plain(sp)) == NoActor))
  }

  lemma {:induction false} RewritesIff(env: Env, sp: Stored)
    requires Ordinary(sp)
    ensures Project(InjectCreds(env, ToConfig(sp, env.builder)), sp.quirks.freebuffActor) == sp <==> Canonical(env, sp)
  {
    var cfg := ToConfig(sp, env.builder);
    var p := Project(InjectCreds(env, cfg), sp.quirks.freebuffActor);
    assert StoredPassthrough(InjectCreds(env, cfg)) == StoredPassthrough(cfg);
    assert p == sp.(kind := OPENAI_COMPAT, quirks := sp.quirks.(modelListPassthrough := StoredPassthrough(cfg)));
    match sp.quirks.modelListPassthrough
    case None => assert StoredPassthrough(cfg) == None;
    case Some(explicit) =>
      assert StoredPassthrough(cfg) == Some(explicit && cfg.quirks.freebuffActor == NoActor && !sp.quirks.freebuffDefaultTool);
  }

  /** Loading any file and persisting at once writes the same file exactly when every entry is canonical. */
  lemma {:induction false} LoadThenPersistIff(env: Env, file: File)
    ensures Snapshot(Loaded(env, file)) == file <==> forall k :: k in file ==> Canonical(env, file[k])
  {
    var s := Loaded(env, file);
    forall k | k in file ensures k in Snapshot(s) && (Snapshot(s)[k] == file[k] <==> Canonical(env, file[k])) {
      if Ordinary(file[k]) {
        RewritesIff(env, file[k]);
      }
    }
    assert Snapshot(s).Keys == file.Keys;
  }

  // ---------------------------------------------------------------- restored lanes

  // The config Restore registers for a lane in memory.
  function Restore(env: Env, s: Store, name: string): Config
    requires name in s.providers
  {
    var cfg := InjectCreds(env, s.providers[name]);
    if env.builder.Some? && name in s.freebuff && s.freebuff[name] && cfg.quirks.freebuffActor == NoActor then
      cfg.(quirks := cfg.quirks.(freebuffActor := env.builder.value(cfg)))
    else cfg
  }

  /** A restored lane has an actor only if it was registered as Freebuff, and then does whenever a builder that builds
      is installed, however often the store was opened without one. */
  lemma {:induction false} FreebuffSurvives(env: Env, s: Store, file: File, name: string)
    requires Inv(s, file) && name in s.providers
    ensures name in file
    ensures Restore(env, s, name).quirks.freebuffActor != NoActor ==> file[name].quirks.freebuffActor
    ensures file[name].quirks.freebuffActor && env.builder.Some? && (forall c :: env.builder.value(c) != NoActor)
            ==> Restore(env, s, name).quirks.freebuffActor != NoActor
  {
    assert Snapshot(s)[name] == Project(s.providers[name], s.freebuff[name]);
  }

  // The lane as the builder is given it when it is added, and when it is restored.
  function OfferedLive(env: Env, cfg: Config): Config {
    var injected := InjectCreds(env, cfg);
    injected.(quirks := injected.quirks.(modelListPassthrough := ModelListPassthroughEnabled(cfg)))
  }

  function OfferedRestored(env: Env, cfg: Config): Config {
    InjectCreds(env, Reread(cfg))
  }

  /** What the builder has to do: build a working actor again that the lane came with, and build the same on both offers
      where the lane came with a marker (which is kept if nothing can be built when it is added). */
  predicate ActorRecoverable(env: Env, cfg: Config) {
    match cfg.quirks.freebuffActor
    case NoActor => true
    case Real(_) => env.builder.Some? && env.builder.value(OfferedRestored(env, cfg)) == cfg.quirks.freebuffActor
    case Marker =>
      && env.builder.Some?
      && var live, restored := env.builder.value(OfferedLive(env, cfg)), env.builder.value(OfferedRestored(env, cfg));
         (live == restored && live != NoActor) || (live == NoActor && restored == Marker)
  }

  /** What a lane is added with beyond what is persisted: nothing, or what a restart fills in. */
  predicate Recoverable(env: Env, cfg: Config) {
    && cfg.refreshURL == "" && cfg.deviceAuthURL == "" && cfg.tokenURL == "" && !cfg.quirks.freebuffValidate
    && (cfg.tokenFile == "" || cfg.tokenFile == InjectCreds(env, cfg.(tokenFile := "")).tokenFile)
    && (cfg.creds.None? || cfg.creds == env.creds)
    && ActorRecoverable(env, cfg)
  }

  // The actor of a lane that is being added: one that works is kept, a marker is replaced by what the builder builds.
  function LiveActor(env: Env, cfg: Config): Actor {
    var built := Build(env.builder, OfferedLive(env, cfg));
    if cfg.quirks.freebuffActor.Marker? && built != NoActor then built else cfg.quirks.freebuffActor
  }

  // The lane cfg as a store that was opened without a builder holds it, and as Restore registers it.
  function Reopened(cfg: Config): Store {
    Loaded(NO_ENV, map[cfg.name := StoredAs(cfg)])
  }

  function Reread(cfg: Config): Config {
    Config(cfg.name, cfg.baseURL, cfg.apiKey, None,
           cfg.quirks.(modelListPassthrough := ModelListPassthroughEnabled(cfg), freebuffActor := NoActor,
                       freebuffValidate := false),
           cfg.optOutModelListPassthrough, "", "", "", "")
  }

  lemma {:induction false} StoredReadsBack(cfg: Config)
    ensures ToConfig(StoredAs(cfg), None) == Reread(cfg) && InjectCreds(NO_ENV, Reread(cfg)) == Reread(cfg)
  {
  }

  lemma {:induction false} ReopenedLane(cfg: Config)
    ensures cfg.name in Reopened(cfg).providers && cfg.name in Reopened(cfg).freebuff
    ensures Reopened(cfg).freebuff[cfg.name] == (cfg.quirks.freebuffActor != NoActor)
    ensures Reopened(cfg).providers[cfg.name] == Reread(cfg)
  {
    StoredReadsBack(cfg);
    LoadedHolds(NO_ENV, map[cfg.name := StoredAs(cfg)]);
  }

  // A lane without what is not persisted.
  function Bare(cfg: Config): Config {
    cfg.(creds := None, refreshURL := "", tokenFile := "", deviceAuthURL := "", tokenURL := "",
         quirks := cfg.quirks.(freebuffValidate := false))
  }

  lemma {:induction false} EnrichedLane(env: Env, cfg: Config)
    ensures Enrich(env, cfg)
         == InjectCreds(env, cfg).(quirks := cfg.quirks.(modelListPassthrough := ModelListPassthroughEnabled(cfg),
                                                          freebuffActor := LiveActor(env, cfg)))
  {
  }

  // The lane's quirks after a restart, with this actor.
  function RestoredQuirks(cfg: Config, actor: Actor): Quirks {
    cfg.quirks.(modelListPassthrough := ModelListPassthroughEnabled(cfg), freebuffValidate := false, freebuffActor := actor)
  }

  lemma {:induction false} RestoredLane(env: Env, cfg: Config)
    ensures cfg.name in Reopened(cfg).providers
    ensures Restore(env, Reopened(cfg), cfg.name)
         == InjectCreds(env, Bare(cfg)).(quirks := RestoredQuirks(cfg, RestoredActor(env, cfg)))
  {
    ReopenedLane(cfg);
    var lane, bare := Reread(cfg), Bare(cfg);
    RestoredFrom(env, Reopened(cfg), cfg.name);
    InjectWithQuirks(env, bare, lane.quirks);
    assert lane == bare.(quirks := lane.quirks);
  }

  lemma {:induction false} RestoredFrom(env: Env, s: Store, name: string)
    requires name in s.providers && name in s.freebuff && s.providers[name].quirks.freebuffActor == NoActor
    ensures var lane := InjectCreds(env, s.providers[name]);
      Restore(env, s, name)
      == lane.(quirks := lane.quirks.(freebuffActor := if s.freebuff[name] then Build(env.builder, lane) else NoActor))
  {
  }

  lemma {:induction false} InjectWithQuirks(env: Env, cfg: Config, q: Quirks)
    requires q.authViaSupabaseRefresh == cfg.quirks.authViaSupabaseRefresh
    ensures InjectCreds(env, cfg.(quirks := q)) == InjectCreds(env, cfg).(quirks := q)
  {
  }

  lemma {:induction false} InjectBareIff(env: Env, cfg: Config, q: Quirks)
    ensures InjectCreds(env, Bare(cfg)).(quirks := q) == InjectCreds(env, cfg).(quirks := q)
      <==> && cfg.refreshURL == "" && cfg.deviceAuthURL == "" && cfg.tokenURL == ""
           && (cfg.tokenFile == "" || cfg.tokenFile == InjectCreds(env, cfg.(tokenFile := "")).tokenFile)
           && (cfg.creds.None? || cfg.creds == env.creds)
  {
  }

  // The actor a restart gives the lane.
  function RestoredActor(env: Env, cfg: Config): Actor {
    if cfg.quirks.freebuffActor == NoActor then NoActor else Build(env.builder, OfferedRestored(env, cfg))
  }

  lemma {:induction false} ActorRecoverableIff(env: Env, cfg: Config)
    ensures RestoredActor(env, cfg) == LiveActor(env, cfg) <==> ActorRecoverable(env, cfg)
  {
  }

  /** The lane serving now is the lane a restart restores, exactly when nothing it carries is unpersisted. */
  lemma {:induction false} RestartEqualsLiveIff(env: Env, cfg: Config)
    ensures cfg.name in Reopened(cfg).providers
    ensures Restore(env, Reopened(cfg), cfg.name) == Enrich(env, cfg) <==> Recoverable(env, cfg)
  {
    var actor := RestoredActor(env, cfg);
    var live := cfg.quirks.(modelListPassthrough := ModelListPassthroughEnabled(cfg), freebuffActor := LiveActor(env, cfg));
    EnrichedLane(env, cfg);
    RestoredLane(env, cfg);
    ActorRecoverableIff(env, cfg);
    InjectBareIff(env, cfg, live);
    assert RestoredQuirks(cfg, actor) == live <==> !cfg.quirks.freebuffValidate && actor == LiveActor(env, cfg);
  }

  // ---------------------------------------------------------------- the failures, at one input each

  function LaneNamed(name: string): Config {
    Plain(Stored("", name, "u", "", NO_QUIRKS))
  }

  /** A lane name with a blank is accepted and stored. */
  lemma {:induction false} BlankNameIsStored(env: Env)
    ensures var s := Exec(Fresh(true), Add(LaneNamed(" a"), env, true));
      " a" in s.providers && !NameOk(" a")
  {
    var cfg := LaneNamed(" a");
    assert TrimLeft(" a") == "a" by {
      assert " a"[1..] == "a";
    }
    assert TrimSpace(" a") == "a";
    assert TrimSpace("u") == "u";
    assert ConfigOk(cfg);
  }

  /** The validation flag of a lane does not come back. */
  lemma {:induction false} ValidateIsLost(env: Env)
    ensures var lane := LaneNamed("a"); var cfg := lane.(quirks := lane.quirks.(freebuffValidate := true));
      && cfg.name in Reopened(cfg).providers
      && Enrich(env, cfg).quirks.freebuffValidate && !Restore(env, Reopened(cfg), cfg.name).quirks.freebuffValidate
  {
    var lane := LaneNamed("a");
    var cfg := lane.(quirks := lane.quirks.(freebuffValidate := true));
    EnrichedLane(env, cfg);
    RestoredLane(env, cfg);
  }

  // One custom lane was added.
  function OneCustom(): Store {
    var sp := Stored("codex", "a", "", "", NO_QUIRKS);
    Store(true, Some(map["a" := sp]), map[], map["a" := sp], map[])
  }

  lemma {:induction false} OneCustomIsReached()
    ensures Exec(Fresh(true), AddCustom("a", "codex", "", true)) == OneCustom()
  {
    assert TrimLeft("a") == "a" && TrimSpace("a") == "a";
    assert CustomOk("a", "codex");
    var s := CustomAdded(Fresh(true), "a", "codex", "");
    assert s.providers == map[] && s.freebuff == map[];
    assert Projected(map[], map[]) == map[];
    assert Snapshot(s) == s.custom;
  }

  /** A restart that cannot read the file serves nothing while the file still holds the lane. */
  lemma {:induction false} UnreadableRestartForgets()
    ensures var s := Exec(Exec(Fresh(true), AddCustom("a", "codex", "", true)), Restart(false));
      Snapshot(s) == map[] && "a" in Content(s)
  {
    OneCustomIsReached();
    var s := Exec(OneCustom(), Restart(false));
    assert Projected(map[], map[]) == map[];
    assert Snapshot(s) == map[];
  }

  /** A load after the file was deleted goes on serving a custom lane. */
  lemma {:induction false} DeletedFileIsServed(env: Env)
    ensures var s := Exec(Fresh(true), AddCustom("a", "codex", "", true)).(file := None);
      "a" in Exec(s, Load(env, true)).custom
  {
    OneCustomIsReached();
  }

  // ---------------------------------------------------------------- the object

  // s holds the entry sp of key k in the right map and no other.
  ghost predicate Holds(s: Store, env: Env, k: string, sp: Stored) {
    if Ordinary(sp) then
      && k in s.providers && s.providers[k] == InjectCreds(env, ToConfig(sp, env.builder)) && k !in s.custom
      && k in s.freebuff && s.freebuff[k] == sp.quirks.freebuffActor
    else k !in s.providers && k !in s.freebuff && k in s.custom && s.custom[k] == sp
  }

  ghost predicate HoldsAll(s: Store, env: Env, file: File) {
    && s.providers.Keys <= file.Keys && s.custom.Keys <= file.Keys && s.freebuff.Keys <= file.Keys
    && forall k :: k in file ==> Holds(s, env, k, file[k])
  }

  lemma {:induction false} LoadedHolds(env: Env, file: File)
    ensures HoldsAll(Loaded(env, file), env, file)
  {
  }

  // The entries of m with these names.
  function Among<V>(m: map<string, V>, names: set<string>): map<string, V> {
    map k | k in m && k in names :: m[k]
  }

  function PutIf<V>(was: map<string, V>, m: map<string, V>, k: string): map<string, V> {
    if k in m then was[k := m[k]] else was
  }

  lemma {:induction false} AmongMore<V>(was: map<string, V>, m: map<string, V>, names: set<string>, k: string)
    ensures was + Among(m, names + {k}) == PutIf(was + Among(m, names), m, k)
  {
  }

  lemma {:induction false} AmongNone<V>(was: map<string, V>, m: map<string, V>)
    ensures was + Among(m, {}) == was
  {
  }

  lemma {:induction false} AmongAll<V>(m: map<string, V>, names: set<string>)
    requires m.Keys <= names
    ensures map[] + Among(m, names) == m
  {
  }

  lemma {:induction false} MoveOne<T>(left: set<T>, visited: set<T>, x: T)
    requires x in left && left !! visited
    ensures (left - {x}) !! (visited + {x}) && (left - {x}) + (visited + {x}) == left + visited
  {
  }

  class RuntimeProviderStore {
    const durable: bool
    var file: Option<File>
    var providers: map<string, Config>
    var custom: File
    var freebuff: map<string, bool>

    function State(): Store
      reads this
    {
      Store(durable, file, providers, custom, freebuff)
    }

    /** NewRuntimeProviderStore on the file left behind by an earlier process. */
    constructor (durable: bool, file: Option<File>, readable: bool)
      ensures State() == Reopen(Fresh(durable).(file := file), readable)
    {
      this.durable, this.file, providers, custom, freebuff := durable, file, map[], map[], map[];
      new;
      if durable && file.Some? && readable {
        ApplyStored(NO_ENV, file.value);
      }
    }

    // applyStored on maps just made.
    method ApplyStored(env: Env, stored: File)
      requires durable && file == Some(stored)
      modifies this`providers, this`custom, this`freebuff
      ensures State() == Loaded(env, stored)
    {
      providers, custom, freebuff := map[], map[], map[];
      LoadedHolds(env, stored);
      VisitAll(env, stored, Loaded(env, stored));
      AmongAll(Loaded(env, stored).providers, stored.Keys);
      AmongAll(Loaded(env, stored).custom, stored.Keys);
      AmongAll(Loaded(env, stored).freebuff, stored.Keys);
    }

    // The three maps are as they were at first, with what was loaded for the names visited so far.
    ghost predicate Filled(was: Store, loaded: Store, visited: set<string>)
      reads this
    {
      && providers == was.providers + Among(loaded.providers, visited)
      && custom == was.custom + Among(loaded.custom, visited)
      && freebuff == was.freebuff + Among(loaded.freebuff, visited)
    }

    method VisitAll(env: Env, stored: File, ghost loaded: Store)
      requires HoldsAll(loaded, env, stored)
      modifies this`providers, this`custom, this`freebuff
      ensures Filled(old(State()), loaded, stored.Keys)
    {
      ghost var was := State();
      ghost var visited: set<string> := {};
      var left := stored.Keys;
      assert Filled(was, loaded, {}) by {
        AmongNone(providers, loaded.providers);
        AmongNone(custom, loaded.custom);
        AmongNone(freebuff, loaded.freebuff);
      }
      while left != {}
        invariant left !! visited && left + visited == stored.Keys
        invariant Filled(was, loaded, visited)
      {
        var name :| name in left;
        VisitNext(env, stored, name, was, loaded, visited);
        MoveOne(left, visited, name);
        left, visited := left - {name}, visited + {name};
      }
      assert visited == stored.Keys;
    }

    method VisitNext(env: Env, stored: File, name: string, ghost was: Store, ghost loaded: Store, ghost visited: set<string>)
      requires name in stored && HoldsAll(loaded, env, stored) && Filled(was, loaded, visited)
      modifies this`providers, this`custom, this`freebuff
      ensures Filled(was, loaded, visited + {name})
    {
      VisitStored(env, stored, name, loaded);
      AmongMore(was.providers, loaded.providers, visited, name);
      AmongMore(was.custom, loaded.custom, visited, name);
      AmongMore(was.freebuff, loaded.freebuff, visited, name);
    }

    // The body of applyStored's loop, for an entry of either sort.
    method VisitStored(env: Env, stored: File, name: string, ghost loaded: Store)
      requires name in stored && HoldsAll(loaded, env, stored)
      modifies this`providers, this`custom, this`freebuff
      ensures providers == PutIf(old(providers), loaded.providers, name)
      ensures custom == PutIf(old(custom), loaded.custom, name)
      ensures freebuff == PutIf(old(freebuff), loaded.freebuff, name)
    {
      var sp := stored[name];
      assert Holds(loaded, env, name, sp);
      if sp.kind != "" && sp.kind != OPENAI_COMPAT {
        custom := custom[name := sp];
      } else {
        VisitLane(env, sp, name, loaded);
      }
    }

    method VisitLane(env: Env, sp: Stored, name: string, ghost loaded: Store)
      requires Ordinary(sp) && Holds(loaded, env, name, sp)
      modifies this`providers, this`freebuff
      ensures providers == PutIf(old(providers), loaded.providers, name)
      ensures freebuff == PutIf(old(freebuff), loaded.freebuff, name)
    {
      var lane := InjectCreds(env, ToConfig(sp, env.builder));
      assert loaded.providers[name] == lane;
      providers := providers[name := lane];
      freebuff := freebuff[name := sp.quirks.freebuffActor];
    }

    method ProjectLanes(next: Store) returns (snapshot: File)
      ensures snapshot == Projected(next.providers, next.freebuff)
    {
      ghost var projected := Projected(next.providers, next.freebuff);
      ghost var visited: set<string> := {};
      snapshot := map[];
      var left := next.providers.Keys;
      AmongNone(snapshot, projected);
      while left != {}
        invariant left !! visited && left + visited == next.providers.Keys == projected.Keys
        invariant snapshot == map[] + Among(projected, visited)
      {
        var name :| name in left;
        var sp := ProjectLane(next, name);
        AmongMore(map[], projected, visited, name);
        snapshot := snapshot[name := sp];
        left, visited := left - {name}, visited + {name};
      }
      AmongAll(projected, visited);
    }

    // The body of persistState's first loop.
    method ProjectLane(next: Store, name: string) returns (sp: Stored)
      requires name in next.providers
      ensures sp == Projected(next.providers, next.freebuff)[name]
    {
      sp := ToStored(next.providers[name]).(kind := OPENAI_COMPAT);
      if name in next.freebuff && next.freebuff[name] {
        sp := sp.(quirks := sp.quirks.(freebuffActor := true));
      }
    }

    method MergeCustom(lanes: File, custom: File) returns (snapshot: File)
      ensures snapshot == lanes + custom
    {
      snapshot := lanes;
      ghost var visited: set<string> := {};
      var left := custom.Keys;
      AmongNone(lanes, custom);
      while left != {}
        invariant left !! visited && left + visited == custom.Keys
        invariant snapshot == lanes + Among(custom, visited)
      {
        var name :| name in left;
        AmongMore(lanes, custom, visited, name);
        snapshot := snapshot[name := custom[name]];
        left, visited := left - {name}, visited + {name};
      }
      assert Among(custom, visited) == custom;
    }

    // persistState; on success the caller publishes next.
    method PersistState(next: Store, writable: bool) returns (ok: bool)
      requires next.durable == durable && next.file == file
      modifies this`file
      ensures ok == (!durable || writable)
      ensures file == if ok && durable then Some(Snapshot(next)) else old(file)
    {
      if !durable {
        return true;
      }
      var snapshot := ProjectLanes(next);
      snapshot := MergeCustom(snapshot, next.custom);
      if !writable {
        return false;
      }
      file := Some(snapshot);
      return true;
    }

    // Writes the new maps and, when that worked, publishes them.
    method Commit(next: Store, writable: bool) returns (ok: bool)
      requires next.durable == durable && next.file == file
      modifies this
      ensures State() == Persisted(old(State()), next, writable) && ok == (!durable || writable)
    {
      ok := PersistState(next, writable);
      if ok {
        providers, custom, freebuff := next.providers, next.custom, next.freebuff;
      }
    }

    method Add(cfg: Config, env: Env, writable: bool) returns (ok: bool)
      modifies this
      ensures State() == Exec(old(State()), Op.Add(cfg, env, writable))
      ensures ok == (ConfigOk(cfg) && (!durable || writable))
    {
      if !ConfigOk(cfg) {
        return false;
      }
      ok := Commit(Added(State(), Enrich(env, cfg)), writable);
    }

    method AddCustom(name: string, kind: string, apiKey: string, writable: bool) returns (ok: bool)
      modifies this
      ensures State() == Exec(old(State()), Op.AddCustom(name, kind, apiKey, writable))
      ensures ok == (CustomOk(name, kind) && (!durable || writable))
    {
      if !CustomOk(name, kind) {
        return false;
      }
      ok := Commit(CustomAdded(State(), TrimSpace(name), kind, apiKey), writable);
    }

    method Remove(name: string, writable: bool) returns (ok: bool)
      modifies this
      ensures State() == Exec(old(State()), Op.Remove(name, writable))
      ensures ok == ((name in old(providers) || name in old(custom)) && (!durable || writable))
    {
      if name !in providers && name !in custom {
        return false;
      }
      ok := Commit(Removed(State(), name), writable);
    }

    method Load(env: Env, readable: bool) returns (ok: bool)
      modifies this
      ensures State() == Exec(old(State()), Op.Load(env, readable))
      ensures ok == (!durable || readable || file.None?)
    {
      if !durable {
        return true;
      }
      if file.None? {
        providers, freebuff := map[], map[];
        return true;
      }
      if !readable {
        return false;
      }
      ApplyStored(env, file.value);
      return true;
    }
  }
}
