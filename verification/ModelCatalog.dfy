/** The models in the published snapshot (syncCatalogToState and ToggleModel in pkg/server/server.go), over the committed
    operations of any interleaving. */
module ModelCatalog {
  import opened Common
  import opened State
  import opened SnapshotHeap
  import opened UpdateProtocol

  // The model shows what the catalog lists.
  predicate Shows(m: Model, id: string, a: Alias) {
    && m.id == id && m.provider == a.provider && m.contextLimit == a.contextLimit && m.maxOutput == a.maxOutput
    && m.scores == a.scores && m.pricingTag == a.pricingTag
  }

  /** After a sync each listed alias shows what the catalog lists; one that was known stays on or off, a new one is on; of the
      others exactly those that left the catalog are gone, and the rest is as it was. */
  lemma {:induction false} SyncIs(cfg: Config, s: Snapshot, gone: set<string>, aliases: map<string, Alias>, id: string)
    ensures var models := Publish(cfg, SyncCatalog(gone, aliases), s).models;
      if id in aliases then
        && id in models && Shows(models[id], id, aliases[id])
        && (models[id].enabled <==> (id !in s.models || id in gone || s.models[id].enabled))
      else
        && (id in models <==> id in s.models && id !in gone)
        && (id in models ==> models[id] == s.models[id])
  {
  }

  // The operation switches the model, or takes it out of the snapshot.
  predicate Switches(op: Op, id: string) {
    (op.ToggleModel? && op.id == id) || (op.SyncCatalog? && id in op.gone)
  }

  predicate IsSwitched(s: Snapshot, id: string, on: bool) {
    id in s.models && s.models[id].enabled == on
  }

  lemma {:induction false} StaysSwitched(cfg: Config, s: Snapshot, op: Op, id: string, on: bool)
    requires IsSwitched(s, id, on) && !Switches(op, id)
    ensures IsSwitched(Publish(cfg, op, s), id, on)
  {
    if op.SyncCatalog? {
      SyncIs(cfg, s, op.gone, op.aliases, id);
    }
  }

  lemma {:induction false} KeepsSwitched(cfg: Config, init: Snapshot, commits: seq<Commit>, lo: nat, hi: nat, id: string, on: bool)
    requires lo <= hi <= |commits| && IsSwitched(Before(cfg, init, commits, lo), id, on)
    requires forall m :: lo <= m < hi ==> !Switches(commits[m].op, id)
    ensures IsSwitched(Before(cfg, init, commits, hi), id, on)
    decreases hi
  {
    if lo < hi {
      KeepsSwitched(cfg, init, commits, lo, hi - 1, id, on);
      FoldNext(cfg, init, commits, hi - 1);
      StaysSwitched(cfg, Before(cfg, init, commits, hi - 1), commits[hi - 1].op, id, on);
    }
  }

  /** In every interleaving, a model that was switched on or off is so in the published snapshot, through any number of syncs,
      until it is switched again or leaves the catalog. */
  lemma {:induction false} SwitchStays(cfg: Config, init: Snapshot, threads: nat, s: Sys, k: nat, id: string, on: bool)
    requires Reached(cfg, init, threads, s) && k < |s.commits| && s.commits[k].op == ToggleModel(id, on)
    requires forall m :: k < m < |s.commits| ==> !Switches(s.commits[m].op, id)
    ensures s.current < |s.heap.cells| && IsSwitched(View(s.heap, s.current), id, on)
  {
    ReachedIsFold(cfg, init, threads, s);
    FoldNext(cfg, init, s.commits, k);
    KeepsSwitched(cfg, init, s.commits, k + 1, |s.commits|, id, on);
    assert s.commits[..|s.commits|] == s.commits;
  }
}
