/** Model routing (pkg/server/router.go) and the kill switch it consults (pkg/server/server.go).  Route only reads, so
    everything it reads is one value; letter case is folded for ASCII. */
module Router {
  import opened Common

  datatype Alias = Alias(provider: string, upstream: string)

  /** models holds the enabled flag of each state row; names are the registered lanes in registration order.  models and
      catalog are None when there is no state manager, or no catalog. */
  datatype Table = Table(models: Option<map<string, bool>>, names: seq<string>, catalog: Option<map<string, Alias>>)

  datatype Routed =
    | Lane(name: string)
    | Disabled
    | NoProviders
    | Unavailable(name: string)
    | UnknownModel

  function CanonicalId(a: Alias): string {
    if a.provider == "" || a.upstream == "" then "" else a.provider + "/" + a.upstream
  }

  predicate RowDisabled(models: map<string, bool>, id: string) {
    id in models && !models[id]
  }

  predicate ModelIsDisabled(models: map<string, bool>, model: string, catalog: Option<map<string, Alias>>) {
    RowDisabled(models, model) ||
    (catalog.Some? &&
      if model in catalog.value then
        CanonicalId(catalog.value[model]) != "" && RowDisabled(models, CanonicalId(catalog.value[model]))
      else exists name :: name in catalog.value && CanonicalId(catalog.value[name]) == model && RowDisabled(models, name))
  }

  predicate HasLane(model: string, name: string) {
    Lower(name) + "/" <= Lower(model)
  }

  function FirstPrefix(names: seq<string>, excluded: set<string>, model: string): (r: Routed)
    ensures !r.Disabled? && !r.NoProviders?
  {
    if names == [] then UnknownModel
    else if !HasLane(model, names[0]) then FirstPrefix(names[1..], excluded, model)
    else if names[0] !in excluded then Lane(names[0])
    else Unavailable(names[0])
  }

  function Route(t: Table, excluded: set<string>, model: string): Routed {
    if t.models.Some? && ModelIsDisabled(t.models.value, model, t.catalog) then Disabled
    else if t.names == [] then NoProviders
    else if t.catalog.Some? && model in t.catalog.value && t.catalog.value[model].provider != "" then
      var p := t.catalog.value[model].provider;
      if p !in excluded && p in t.names then Lane(p) else Unavailable(p)
    else FirstPrefix(t.names, excluded, model)
  }

  // The search loop of Route's last step.
  method FindLane(names: seq<string>, excluded: set<string>, model: string) returns (r: Routed)
    ensures r == FirstPrefix(names, excluded, model)
  {
    var i := 0;
    while i < |names|
      invariant 0 <= i <= |names|
      invariant FirstPrefix(names, excluded, model) == FirstPrefix(names[i..], excluded, model)
    {
      assert names[i..][1..] == names[i + 1..];
      if HasLane(model, names[i]) {
        if names[i] !in excluded {
          return Lane(names[i]);
        }
        return Unavailable(names[i]);
      }
      i := i + 1;
    }
    return UnknownModel;
  }

  /** The lane of the prefix search is the first registered name the id starts with; being excluded makes it unavailable,
      and never lets a later name match. */
  lemma {:induction false} PrefixIsFirstMatch(names: seq<string>, excluded: set<string>, model: string, k: nat)
    requires k < |names| && HasLane(model, names[k])
    requires forall j :: 0 <= j < k ==> !HasLane(model, names[j])
    ensures FirstPrefix(names, excluded, model) == if names[k] in excluded then Unavailable(names[k]) else Lane(names[k])
  {
    if k > 0 {
      PrefixIsFirstMatch(names[1..], excluded, model, k - 1);
    }
  }

  lemma {:induction false} NoPrefixIff(names: seq<string>, excluded: set<string>, model: string)
    ensures FirstPrefix(names, excluded, model) == UnknownModel <==> forall j :: 0 <= j < |names| ==> !HasLane(model, names[j])
  {
    if names != [] {
      NoPrefixIff(names[1..], excluded, model);
      assert forall j :: 1 <= j < |names| ==> names[j] == names[1..][j - 1];
    }
  }

  // ---------------------------------------------------------------- where an id goes

  /** The id begins with the lane's name and a slash, in any case. */
  predicate Begins(model: string, name: string) {
    |name| < |model| && model[|name|] == '/' && forall i :: 0 <= i < |name| ==> SameLetter(model[i], name[i])
  }

  lemma {:induction false} LowerSame(a: string, b: string, i: nat)
    requires i < |a| && i < |b|
    ensures Lower(a)[i] == Lower(b)[i] <==> SameLetter(a[i], b[i])
  {
  }

  lemma {:induction false} LowerSlash(a: string, i: nat)
    requires i < |a|
    ensures Lower(a)[i] == '/' <==> a[i] == '/'
  {
  }

  lemma {:induction false} HasLaneIff(model: string, name: string)
    ensures HasLane(model, name) <==> Begins(model, name)
  {
    var p, m := Lower(name) + "/", Lower(model);
    if HasLane(model, name) {
      forall i | 0 <= i < |name| ensures SameLetter(model[i], name[i]) {
        assert p[i] == m[i];
        LowerSame(model, name, i);
      }
      assert p[|name|] == m[|name|];
      LowerSlash(model, |name|);
    }
    if Begins(model, name) {
      LowerSlash(model, |name|);
      forall i | 0 <= i < |p| ensures p[i] == m[i] {
        if i < |name| {
          LowerSame(model, name, i);
        }
      }
      assert m[..|p|] == p;
    }
  }

  // An alias and the id it stands for, as lane and model name with a slash between them.
  predicate StandsFor(t: Table, alias: string, id: string) {
    && t.catalog.Some? && alias in t.catalog.value
    && var a := t.catalog.value[alias]; a.provider != "" && a.upstream != "" && id == a.provider + "/" + a.upstream
  }

  predicate StandsForNothing(t: Table, alias: string) {
    && t.catalog.Some? && alias in t.catalog.value
    && (t.catalog.value[alias].provider == "" || t.catalog.value[alias].upstream == "")
  }

  /** A name whose state row counts for the id: the id itself; what it stands for, if it is an alias; and if it is none, each
      alias that stands for it (or, for the empty id, for nothing). */
  predicate Related(t: Table, id: string, other: string) {
    || other == id
    || StandsFor(t, id, other)
    || (t.catalog.Some? && id !in t.catalog.value && (StandsFor(t, other, id) || (id == "" && StandsForNothing(t, other))))
  }

  ghost predicate Killed(t: Table, id: string) {
    t.models.Some? && exists other :: Related(t, id, other) && other in t.models.value && !t.models.value[other]
  }

  lemma {:induction false} KilledIff(t: Table, id: string)
    ensures Killed(t, id) <==> t.models.Some? && ModelIsDisabled(t.models.value, id, t.catalog)
  {
    if t.models.Some? && ModelIsDisabled(t.models.value, id, t.catalog) {
      var models := t.models.value;
      if RowDisabled(models, id) {
        assert Related(t, id, id);
      } else if id in t.catalog.value {
        assert Related(t, id, CanonicalId(t.catalog.value[id]));
      } else {
        var name :| name in t.catalog.value && CanonicalId(t.catalog.value[name]) == id && RowDisabled(models, name);
        assert Related(t, id, name);
      }
    }
    if Killed(t, id) {
      var other :| Related(t, id, other) && other in t.models.value && !t.models.value[other];
      assert RowDisabled(t.models.value, other);
      if other != id && !StandsFor(t, id, other) {
        assert CanonicalId(t.catalog.value[other]) == id;
      }
    }
  }

  // The catalog maps the id to lane p.
  predicate Lists(t: Table, id: string, p: string) {
    t.catalog.Some? && id in t.catalog.value && t.catalog.value[id].provider == p && p != ""
  }

  ghost predicate Unlisted(t: Table, id: string) {
    forall p :: !Lists(t, id, p)
  }

  // p is the first registered lane the id begins with.
  ghost predicate FirstLane(names: seq<string>, id: string, p: string) {
    exists k :: 0 <= k < |names| && names[k] == p && Begins(id, p) && forall j :: 0 <= j < k ==> !Begins(id, names[j])
  }

  /** The lane the id belongs to: the catalog's, or else that of its prefix. */
  ghost predicate Belongs(t: Table, id: string, p: string) {
    Lists(t, id, p) || (Unlisted(t, id) && FirstLane(t.names, id, p))
  }

  lemma {:induction false} FirstPrefixIff(names: seq<string>, excluded: set<string>, id: string, p: string)
    ensures FirstPrefix(names, excluded, id) == Lane(p) <==> FirstLane(names, id, p) && p !in excluded
    ensures FirstPrefix(names, excluded, id) == Unavailable(p) <==> FirstLane(names, id, p) && p in excluded
    ensures FirstPrefix(names, excluded, id) == UnknownModel <==> forall j :: 0 <= j < |names| ==> !Begins(id, names[j])
  {
    if names != [] {
      HasLaneIff(id, names[0]);
      if !HasLane(id, names[0]) {
        FirstPrefixIff(names[1..], excluded, id, p);
        FirstLaneTail(names, id, p);
        assert forall j :: 1 <= j < |names| ==> names[j] == names[1..][j - 1];
      }
    }
  }

  lemma {:induction false} FirstLaneTail(names: seq<string>, id: string, p: string)
    requires names != [] && !Begins(id, names[0])
    ensures FirstLane(names, id, p) <==> FirstLane(names[1..], id, p)
  {
    if FirstLane(names, id, p) {
      var k :| 0 <= k < |names| && names[k] == p && Begins(id, p) && forall j :: 0 <= j < k ==> !Begins(id, names[j]);
      assert names[1..][k - 1] == p && forall j :: 0 <= j < k - 1 ==> names[1..][j] == names[j + 1];
    }
    if FirstLane(names[1..], id, p) {
      var k :| 0 <= k < |names[1..]| && names[1..][k] == p && Begins(id, p) && forall j :: 0 <= j < k ==> !Begins(id, names[1..][j]);
      assert names[k + 1] == p;
      forall j | 0 <= j < k + 1 ensures !Begins(id, names[j]) {
        if j > 0 {
          assert names[j] == names[1..][j - 1];
        }
      }
    }
  }

  /** An id routes to lane p exactly when it is not disabled, belongs to p, and p is registered and not excluded. */
  lemma {:induction false} RoutesIff(t: Table, excluded: set<string>, id: string, p: string)
    ensures Route(t, excluded, id) == Lane(p) <==> !Killed(t, id) && Belongs(t, id, p) && p in t.names && p !in excluded
  {
    KilledIff(t, id);
    FirstPrefixIff(t.names, excluded, id, p);
    UnlistedIff(t, id);
  }

  lemma {:induction false} UnlistedIff(t: Table, id: string)
    ensures Unlisted(t, id) <==> !(t.catalog.Some? && id in t.catalog.value && t.catalog.value[id].provider != "")
  {
    if t.catalog.Some? && id in t.catalog.value {
      assert t.catalog.value[id].provider != "" ==> Lists(t, id, t.catalog.value[id].provider);
    }
  }

  /** And each error is given exactly when: the id is disabled; nothing is registered; the lane it belongs to is not
      registered, or excluded; it belongs to none. */
  lemma {:induction false} RouteErrorsIff(t: Table, excluded: set<string>, id: string, p: string)
    ensures Route(t, excluded, id) == Disabled <==> Killed(t, id)
    ensures Route(t, excluded, id) == NoProviders <==> !Killed(t, id) && t.names == []
    ensures Route(t, excluded, id) == Unavailable(p)
            <==> !Killed(t, id) && t.names != [] && Belongs(t, id, p) && (p !in t.names || p in excluded)
    ensures Route(t, excluded, id) == UnknownModel
            <==> !Killed(t, id) && t.names != [] && forall q :: !Belongs(t, id, q)
  {
    KilledIff(t, id);
    FirstPrefixIff(t.names, excluded, id, p);
    UnlistedIff(t, id);
    if Unlisted(t, id) {
      NoneBelongs(t, excluded, id);
    } else {
      assert Belongs(t, id, t.catalog.value[id].provider);
    }
  }

  lemma {:induction false} NoneBelongs(t: Table, excluded: set<string>, id: string)
    requires Unlisted(t, id)
    ensures FirstPrefix(t.names, excluded, id) == UnknownModel <==> forall q :: !Belongs(t, id, q)
  {
    FirstPrefixIff(t.names, excluded, id, "");
    if j :| 0 <= j < |t.names| && Begins(id, t.names[j]) {
      var k := FirstBegun(t.names, id, j);
      assert FirstLane(t.names, id, t.names[k]) && Belongs(t, id, t.names[k]);
    }
  }

  lemma {:induction false} FirstBegun(names: seq<string>, id: string, j: nat) returns (k: nat)
    requires j < |names| && Begins(id, names[j])
    ensures k < |names| && Begins(id, names[k]) && forall i :: 0 <= i < k ==> !Begins(id, names[i])
  {
    k := 0;
    while !Begins(id, names[k])
      invariant k <= j && forall i :: 0 <= i < k ==> !Begins(id, names[i])
      decreases j - k
    {
      k := k + 1;
    }
  }

  // What excluding lanes does to an answer.
  function Without(r: Routed, excluded: set<string>): Routed {
    if r.Lane? && r.name in excluded then Unavailable(r.name) else r
  }

  lemma {:induction false} PrefixExclusion(names: seq<string>, excluded: set<string>, model: string)
    ensures FirstPrefix(names, excluded, model) == Without(FirstPrefix(names, {}, model), excluded)
  {
    if names != [] {
      PrefixExclusion(names[1..], excluded, model);
    }
  }

  /** Excluding lanes turns the answer into an error or leaves it alone; it never yields another lane. */
  lemma {:induction false} ExclusionNeverDetours(t: Table, excluded: set<string>, model: string)
    ensures Route(t, excluded, model) == Without(Route(t, {}, model), excluded)
  {
    PrefixExclusion(t.names, excluded, model);
  }

  lemma {:induction false} LaneHasSlash(model: string, name: string)
    ensures HasLane(model, name) ==> '/' in model
  {
    if HasLane(model, name) {
      var k := |name|;
      assert (Lower(name) + "/")[k] == '/';
      assert Lower(model)[k] == '/' && model[k] == '/';
    }
  }

  /** A bare lane name routes nothing unless it is an alias or another lane's prefix. */
  lemma {:induction false} BareIdsNeedAnAlias(t: Table, excluded: set<string>, model: string)
    requires '/' !in model && (t.catalog.Some? ==> model !in t.catalog.value)
    ensures !Route(t, excluded, model).Lane?
  {
    forall j | 0 <= j < |t.names| ensures !HasLane(model, t.names[j]) {
      LaneHasSlash(model, t.names[j]);
    }
    NoPrefixIff(t.names, excluded, model);
  }

  /** Disabling an alias always disables it, and disables the id it stands for exactly when that id is not itself an alias
      (or is disabled on its own account). */
  lemma {:induction false} KillSwitchReach(t: Table, excluded: set<string>, name: string)
    requires t.models.Some? && t.catalog.Some? && name in t.catalog.value && RowDisabled(t.models.value, name)
    requires CanonicalId(t.catalog.value[name]) != ""
    ensures Route(t, excluded, name) == Disabled
    ensures var id := CanonicalId(t.catalog.value[name]);
            Route(t, excluded, id) == Disabled
            <==> id !in t.catalog.value || RowDisabled(t.models.value, id)
                 || (CanonicalId(t.catalog.value[id]) != "" && RowDisabled(t.models.value, CanonicalId(t.catalog.value[id])))
  {
    var id := CanonicalId(t.catalog.value[name]);
    if id !in t.catalog.value {
      assert name in t.catalog.value && CanonicalId(t.catalog.value[name]) == id && RowDisabled(t.models.value, name);
      assert ModelIsDisabled(t.models.value, id, t.catalog);
    }
  }

  /** An alias can be disabled while the id it stands for still routes. */
  lemma {:induction false} DisabledAliasStillRoutes()
    ensures var catalog := map["fast" := Alias("p", "m"), "p/m" := Alias("p", "other")];
      var t := Table(Some(map["fast" := false]), ["p"], Some(catalog));
      Route(t, {}, "fast") == Disabled && CanonicalId(catalog["fast"]) == "p/m" && Route(t, {}, "p/m") == Lane("p")
  {
    assert CanonicalId(Alias("p", "m")) == "p/m";
    assert CanonicalId(Alias("p", "other")) != "fast" && CanonicalId(Alias("p", "m")) != "fast";
  }
}
