/** Snapshots as Go lays them out (pkg/state/types.go): a struct that refers to a provider map and a model map, whose rows
    may refer to score maps: copies of their own, or the catalog's.  Clone allocates and copies; closures write the
    clone's maps in place, and syncing with the catalog (pkg/server/server.go) installs its score maps as they are. */
module SnapshotHeap {
  import opened Common
  import opened State

  type Scores = map<string, real>

  datatype ScoresRef = NoScores | Own(at: nat) | FromCatalog(at: nat)

  // A model as it sits in its map.
  datatype Row = Row(id: string, provider: string, enabled: bool, contextLimit: int, maxOutput: int, scores: ScoresRef,
                     pricingTag: string)

  datatype Cell = Cell(version: nat, providers: nat, models: nat)

  // A map in the heap, and for whom it was allocated (a snapshot cell; for scores, also a model id).
  datatype ProviderMap = ProviderMap(owner: nat, entries: map<string, Provider>)
  datatype ModelMap = ModelMap(owner: nat, rows: map<string, Row>)
  datatype ScoreMap = ScoreMap(owner: nat, model: string, entries: Scores)

  // catalog holds the catalog's score maps; they belong to no snapshot.
  datatype Heap = Heap(cells: seq<Cell>, providers: seq<ProviderMap>, models: seq<ModelMap>, scores: seq<ScoreMap>,
                       catalog: seq<Scores>)

  // ---------------------------------------------------------------- what a snapshot cell shows

  function ScoresOf(h: Heap, r: ScoresRef): Option<Scores> {
    match r
    case NoScores => None
    case Own(at) => if at < |h.scores| then Some(h.scores[at].entries) else None
    case FromCatalog(at) => if at < |h.catalog| then Some(h.catalog[at]) else None
  }

  function RowModel(h: Heap, r: Row): Model {
    Model(r.id, r.provider, r.enabled, r.contextLimit, r.maxOutput, ScoresOf(h, r.scores), r.pricingTag)
  }

  function Rows(h: Heap, c: nat): map<string, Row> {
    if c < |h.cells| && h.cells[c].models < |h.models| then h.models[h.cells[c].models].rows else map[]
  }

  function Providers(h: Heap, c: nat): map<string, Provider> {
    if c < |h.cells| && h.cells[c].providers < |h.providers| then h.providers[h.cells[c].providers].entries else map[]
  }

  function Shown(h: Heap, rows: map<string, Row>): map<string, Model> {
    map k | k in rows :: RowModel(h, rows[k])
  }

  function Models(h: Heap, c: nat): map<string, Model> {
    Shown(h, Rows(h, c))
  }

  function View(h: Heap, c: nat): Snapshot {
    Snapshot(if c < |h.cells| then h.cells[c].version else 0, Providers(h, c), Models(h, c))
  }

  // ---------------------------------------------------------------- ownership

  // The score map of row k of cell c is its own, or one of the catalog's.
  predicate ScoresOwned(h: Heap, c: nat, k: string, r: ScoresRef) {
    match r
    case NoScores => true
    case Own(at) => at < |h.scores| && h.scores[at].owner == c && h.scores[at].model == k
    case FromCatalog(at) => at < |h.catalog|
  }

  /** Every map is reached from one snapshot cell, and every score map but the catalog's from one row. */
  ghost predicate Owned(h: Heap, c: nat) {
    && c < |h.cells|
    && h.cells[c].providers < |h.providers| && h.providers[h.cells[c].providers].owner == c
    && h.cells[c].models < |h.models| && h.models[h.cells[c].models].owner == c
    && (forall k :: k in Rows(h, c) ==> ScoresOwned(h, c, k, Rows(h, c)[k].scores))
  }

  ghost predicate WellOwned(h: Heap) {
    forall c :: 0 <= c < |h.cells| ==> Owned(h, c)
  }

  // What can be reached from a snapshot cell.
  datatype Ref = ToProviders(at: nat) | ToModels(at: nat) | ToScores(at: nat) | ToCatalog(at: nat)

  // Row k of the cell refers to the catalog's map at.
  predicate Borrows(h: Heap, c: nat, k: string, at: nat) {
    k in Rows(h, c) && Rows(h, c)[k].scores == FromCatalog(at)
  }

  ghost predicate Reaches(h: Heap, c: nat, r: Ref) {
    && c < |h.cells|
    && match r
       case ToProviders(at) => at == h.cells[c].providers
       case ToModels(at) => at == h.cells[c].models
       case ToScores(at) => exists k :: k in Rows(h, c) && Rows(h, c)[k].scores == Own(at)
       case ToCatalog(at) => exists k :: Borrows(h, c, k, at)
  }

  /** The object behind r is the same in both heaps. */
  ghost predicate Untouched(h: Heap, h': Heap, r: Ref) {
    match r
    case ToProviders(at) => at < |h.providers| && at < |h'.providers| && h'.providers[at] == h.providers[at]
    case ToModels(at) => at < |h.models| && at < |h'.models| && h'.models[at] == h.models[at]
    case ToScores(at) => at < |h.scores| && at < |h'.scores| && h'.scores[at] == h.scores[at]
    case ToCatalog(at) => at < |h.catalog| && at < |h'.catalog| && h'.catalog[at] == h.catalog[at]
  }

  /** No map but the catalog's is reachable from two snapshot cells. */
  lemma {:induction false} NothingShared(h: Heap, c: nat, d: nat, r: Ref)
    requires WellOwned(h) && Reaches(h, c, r) && Reaches(h, d, r) && !r.ToCatalog?
    ensures c == d
  {
    assert Owned(h, c) && Owned(h, d);
  }

  // Only objects of snapshot cell m are written; what is allocated is extra.
  ghost predicate WritesOnly(h: Heap, h': Heap, m: nat) {
    && |h.cells| <= |h'.cells| && (forall c :: 0 <= c < |h.cells| && c != m ==> h'.cells[c] == h.cells[c])
    && |h.providers| <= |h'.providers|
    && (forall i :: 0 <= i < |h.providers| && h.providers[i].owner != m ==> h'.providers[i] == h.providers[i])
    && |h.models| <= |h'.models| && (forall i :: 0 <= i < |h.models| && h.models[i].owner != m ==> h'.models[i] == h.models[i])
    && |h.scores| <= |h'.scores| && (forall i :: 0 <= i < |h.scores| && h.scores[i].owner != m ==> h'.scores[i] == h.scores[i])
    && h.catalog <= h'.catalog
  }

  lemma {:induction false} FrameRef(h: Heap, h': Heap, m: nat, c: nat, r: Ref)
    requires Owned(h, c) && WritesOnly(h, h', m) && c != m && Reaches(h, c, r)
    ensures Untouched(h, h', r)
  {
  }

  lemma {:induction false} FrameRows(h: Heap, h': Heap, m: nat, c: nat)
    requires Owned(h, c) && WritesOnly(h, h', m) && c != m
    ensures h'.cells[c] == h.cells[c] && Providers(h', c) == Providers(h, c) && Rows(h', c) == Rows(h, c)
  {
  }

  /** Writing one snapshot's objects leaves every other snapshot as it was. */
  lemma {:induction false} FrameView(h: Heap, h': Heap, m: nat, c: nat)
    requires Owned(h, c) && WritesOnly(h, h', m) && c != m
    ensures View(h', c) == View(h, c) && Owned(h', c)
  {
    FrameRows(h, h', m, c);
    forall k | k in Rows(h, c) ensures RowModel(h', Rows(h, c)[k]) == RowModel(h, Rows(h, c)[k]) {
    }
  }

  lemma {:induction false} FrameOwned(h: Heap, h': Heap, m: nat)
    requires WellOwned(h) && WritesOnly(h, h', m) && Owned(h', m) && |h'.cells| == (if m == |h.cells| then m + 1 else |h.cells|)
    ensures WellOwned(h')
  {
    forall c | 0 <= c < |h'.cells| ensures Owned(h', c) {
      if c != m {
        FrameView(h, h', m, c);
      }
    }
  }

  // ---------------------------------------------------------------- what is the catalog's

  // The closure puts the catalog's map at into row k.
  predicate Installs(op: Op, k: string, at: nat) {
    op.SyncCatalog? && k in op.aliases && op.aliases[k].scores.Some? && op.aliases[k].at == at
  }

  // The aliases show what the catalog's maps hold.
  predicate Supplied(catalog: seq<Scores>, op: Op) {
    op.SyncCatalog? ==> forall k :: k in op.aliases && op.aliases[k].scores.Some? ==>
      op.aliases[k].at < |catalog| && catalog[op.aliases[k].at] == op.aliases[k].scores.value
  }

  // No row of the cell refers to the catalog's maps.
  ghost predicate BorrowsNothing(h: Heap, c: nat) {
    forall k, at :: !Borrows(h, c, k, at)
  }

  // The rows of the cell refer to the catalog's maps that the closure installed, and to no others.
  ghost predicate BorrowsInstalled(h: Heap, c: nat, op: Op) {
    forall k, at :: Borrows(h, c, k, at) <==> Installs(op, k, at)
  }

  // ---------------------------------------------------------------- Clone

  // The struct literal: a new cell with two new empty maps.
  function Allocate(h: Heap, cur: nat): Heap {
    var m := |h.cells|;
    Heap(h.cells + [Cell(View(h, cur).version, |h.providers|, |h.models|)], h.providers + [ProviderMap(m, map[])],
         h.models + [ModelMap(m, map[])], h.scores, h.catalog)
  }

  // The loop over the providers.
  function CopyProviders(h: Heap, cur: nat, m: nat): Heap
    requires Owned(h, m)
  {
    h.(providers := h.providers[h.cells[m].providers := ProviderMap(m, Providers(h, cur))])
  }

  // One turn of the loop over the models: the row is copied, its score map too when there is one.
  function CopyModel(h: Heap, cur: nat, m: nat, k: string): Heap
    requires Owned(h, m) && k in Rows(h, cur)
  {
    var row := Rows(h, cur)[k];
    PutRow(h, m, k, row, ScoresOf(h, row.scores))
  }

  // Stores a row under k, with a score map of its own.
  function PutRow(h: Heap, m: nat, k: string, row: Row, scores: Option<Scores>): Heap
    requires Owned(h, m)
  {
    var mine := row.(scores := if scores.Some? then Own(|h.scores|) else NoScores);
    h.(models := h.models[h.cells[m].models := ModelMap(m, Rows(h, m)[k := mine])],
       scores := if scores.Some? then h.scores + [ScoreMap(m, k, scores.value)] else h.scores)
  }

  lemma {:induction false} AllocateOk(h: Heap, cur: nat)
    requires WellOwned(h)
    ensures var h', m := Allocate(h, cur), |h.cells|;
      WritesOnly(h, h', m) && WellOwned(h') && View(h', m) == Snapshot(View(h, cur).version, map[], map[]) && Rows(h', m) == map[]
  {
    FrameOwned(h, Allocate(h, cur), |h.cells|);
  }

  lemma {:induction false} CopyProvidersOk(h: Heap, cur: nat, m: nat)
    requires WellOwned(h) && m < |h.cells| && cur != m
    ensures Owned(h, m)
    ensures var h' := CopyProviders(h, cur, m);
      && WritesOnly(h, h', m) && WellOwned(h') && View(h', m) == View(h, m).(providers := View(h, cur).providers)
      && Rows(h', m) == Rows(h, m)
  {
    assert Owned(h, m);
    var h' := CopyProviders(h, cur, m);
    assert Rows(h', m) == Rows(h, m);
    FrameOwned(h, h', m);
  }

  lemma {:induction false} PutRowWrites(h: Heap, m: nat, k: string, row: Row, scores: Option<Scores>)
    requires WellOwned(h) && Owned(h, m)
    ensures var h' := PutRow(h, m, k, row, scores);
      WritesOnly(h, h', m) && Owned(h', m) && WellOwned(h') && (BorrowsNothing(h, m) ==> BorrowsNothing(h', m))
  {
    var h' := PutRow(h, m, k, row, scores);
    var mine := row.(scores := if scores.Some? then Own(|h.scores|) else NoScores);
    assert Rows(h', m) == Rows(h, m)[k := mine];
    FrameOwned(h, h', m);
    forall j, at | Borrows(h', m, j, at) ensures Borrows(h, m, j, at) {
    }
  }

  lemma {:induction false} PutRowModels(h: Heap, m: nat, k: string, row: Row, scores: Option<Scores>)
    requires Owned(h, m)
    ensures Models(PutRow(h, m, k, row, scores), m) == Models(h, m)[k := RowModel(h, row).(scores := scores)]
  {
    var h' := PutRow(h, m, k, row, scores);
    var mine := row.(scores := if scores.Some? then Own(|h.scores|) else NoScores);
    assert Rows(h', m) == Rows(h, m)[k := mine];
    forall j | j in Rows(h, m) && j != k ensures RowModel(h', Rows(h, m)[j]) == RowModel(h, Rows(h, m)[j]) {
    }
    assert RowModel(h', mine) == RowModel(h, row).(scores := scores);
  }

  lemma {:induction false} PutRowOk(h: Heap, m: nat, k: string, row: Row, scores: Option<Scores>)
    requires WellOwned(h) && m < |h.cells|
    ensures Owned(h, m)
    ensures var h' := PutRow(h, m, k, row, scores);
      && WritesOnly(h, h', m) && WellOwned(h')
      && View(h', m) == View(h, m).(models := View(h, m).models[k := RowModel(h, row).(scores := scores)])
      && (BorrowsNothing(h, m) ==> BorrowsNothing(h', m))
  {
    assert Owned(h, m);
    PutRowWrites(h, m, k, row, scores);
    PutRowModels(h, m, k, row, scores);
    assert Providers(PutRow(h, m, k, row, scores), m) == Providers(h, m);
  }

  lemma {:induction false} CopyModelOk(h: Heap, cur: nat, m: nat, k: string)
    requires WellOwned(h) && m < |h.cells| && k in Rows(h, cur)
    ensures Owned(h, m)
    ensures var h' := CopyModel(h, cur, m, k);
      && WritesOnly(h, h', m) && WellOwned(h') && View(h', m) == View(h, m).(models := View(h, m).models[k := View(h, cur).models[k]])
      && (BorrowsNothing(h, m) ==> BorrowsNothing(h', m))
  {
    var row := Rows(h, cur)[k];
    PutRowOk(h, m, k, row, ScoresOf(h, row.scores));
  }

  // ---------------------------------------------------------------- closures and the version stamp

  function WriteProviders(h: Heap, m: nat, entries: map<string, Provider>): Heap
    requires Owned(h, m)
  {
    h.(providers := h.providers[h.cells[m].providers := ProviderMap(m, entries)])
  }

  function WriteRows(h: Heap, m: nat, rows: map<string, Row>): Heap
    requires Owned(h, m)
  {
    h.(models := h.models[h.cells[m].models := ModelMap(m, rows)])
  }

  // The row an alias becomes: its score map is the catalog's own.
  function ListedRow(rows: map<string, Row>, id: string, alias: Alias): Row {
    Row(id, alias.provider, id in rows ==> rows[id].enabled, alias.contextLimit, alias.maxOutput,
        if alias.scores.Some? then FromCatalog(alias.at) else NoScores, alias.pricingTag)
  }

  function SyncedRows(rows: map<string, Row>, gone: set<string>, aliases: map<string, Alias>): map<string, Row> {
    (rows - gone) + map id | id in aliases :: ListedRow(rows - gone, id, aliases[id])
  }

  // A closure run on the clone: it writes the clone's maps in place.
  function Write(cfg: Config, op: Op, h: Heap, m: nat): Heap
    requires Owned(h, m)
  {
    match op
    case SyncCatalog(gone, aliases) => WriteRows(h, m, SyncedRows(Rows(h, m), gone, aliases))
    case ToggleModel(id, enabled) => WriteRows(h, m, Rows(h, m)[id := Toggled(Rows(h, m), id, enabled)])
    case SetScore(id, benchmark, score) =>
      if id !in Rows(h, m) then h else WriteScore(h, Rows(h, m)[id].scores, benchmark, score)
    case _ => WriteProviders(h, m, Apply(cfg, op, View(h, m)).providers)
  }

  function Toggled(rows: map<string, Row>, id: string, enabled: bool): Row {
    (if id in rows then rows[id] else Row(id, "", false, 0, 0, NoScores, "")).(enabled := enabled)
  }

  // Writing through a reference into the catalog would write the catalog.
  function WriteScore(h: Heap, r: ScoresRef, benchmark: string, score: real): Heap {
    match r
    case NoScores => h
    case Own(at) =>
      if at < |h.scores| then h.(scores := h.scores[at := h.scores[at].(entries := h.scores[at].entries[benchmark := score])]) else h
    case FromCatalog(at) =>
      if at < |h.catalog| then h.(catalog := h.catalog[at := h.catalog[at][benchmark := score]]) else h
  }

  function Stamp(h: Heap, m: nat, version: nat): Heap
    requires m < |h.cells|
  {
    h.(cells := h.cells[m := h.cells[m].(version := version)])
  }

  lemma {:induction false} WriteRowsOk(h: Heap, m: nat, rows: map<string, Row>)
    requires WellOwned(h) && m < |h.cells|
    requires forall k :: k in rows ==> ScoresOwned(h, m, k, rows[k].scores)
    ensures Owned(h, m)
    ensures var h' := WriteRows(h, m, rows);
      && WritesOnly(h, h', m) && WellOwned(h') && View(h', m) == View(h, m).(models := Shown(h, rows))
      && Rows(h', m) == rows
  {
    assert Owned(h, m);
    var h' := WriteRows(h, m, rows);
    assert Rows(h', m) == rows;
    FrameOwned(h, h', m);
  }

  // ---------------------------------------------------------------- frames of the catalog's maps

  lemma {:induction false} SameRowsBorrow(h: Heap, h': Heap, c: nat)
    requires Rows(h', c) == Rows(h, c)
    ensures forall k, at :: Borrows(h', c, k, at) == Borrows(h, c, k, at)
  {
  }

  // The catalog gets a new score map.
  function Extended(h: Heap, entries: Scores): Heap {
    h.(catalog := h.catalog + [entries])
  }

  lemma {:induction false} ExtendedOk(h: Heap, entries: Scores)
    requires WellOwned(h)
    ensures WellOwned(Extended(h, entries)) && WritesOnly(h, Extended(h, entries), |h.cells|)
    ensures forall c :: 0 <= c < |h.cells| ==> View(Extended(h, entries), c) == View(h, c)
  {
    var h' := Extended(h, entries);
    forall c | 0 <= c < |h.cells| ensures View(h', c) == View(h, c) && Owned(h', c) {
      FrameView(h, h', |h.cells|, c);
    }
  }

  lemma {:induction false} FrameBorrows(h: Heap, h': Heap, m: nat, c: nat)
    requires Owned(h, c) && WritesOnly(h, h', m) && c != m
    ensures forall k, at :: Borrows(h', c, k, at) == Borrows(h, c, k, at)
  {
    FrameRows(h, h', m, c);
  }

  // ---------------------------------------------------------------- what a closure does

  // What a write must do: to the clone what the closure does to a value, and nothing else.
  ghost predicate Wrote(cfg: Config, op: Op, h: Heap, m: nat, h': Heap) {
    && WritesOnly(h, h', m) && WellOwned(h') && View(h', m) == Apply(cfg, op, View(h, m)) && |h'.cells| == |h.cells|
    && BorrowsInstalled(h', m, op)
  }

  lemma {:induction false} ShownWithout(h: Heap, rows: map<string, Row>, gone: set<string>)
    ensures Shown(h, rows - gone) == Shown(h, rows) - gone
  {
  }

  lemma {:induction false} ShownMerged(h: Heap, a: map<string, Row>, b: map<string, Row>)
    ensures Shown(h, a + b) == Shown(h, a) + Shown(h, b)
  {
  }

  lemma {:induction false} ShownListed(h: Heap, rows: map<string, Row>, aliases: map<string, Alias>)
    requires Supplied(h.catalog, SyncCatalog({}, aliases))
    ensures Shown(h, map id | id in aliases :: ListedRow(rows, id, aliases[id]))
         == map id | id in aliases :: Listed(Shown(h, rows), id, aliases[id])
  {
    forall id | id in aliases ensures RowModel(h, ListedRow(rows, id, aliases[id])) == Listed(Shown(h, rows), id, aliases[id]) {
      ListedModel(h, rows, Shown(h, rows), id, aliases[id]);
    }
  }

  lemma {:induction false} SyncedModels(h: Heap, rows: map<string, Row>, gone: set<string>, aliases: map<string, Alias>)
    requires Supplied(h.catalog, SyncCatalog(gone, aliases))
    ensures Shown(h, SyncedRows(rows, gone, aliases)) == TouchModels(SyncCatalog(gone, aliases), Shown(h, rows))
  {
    var listed := map id | id in aliases :: ListedRow(rows - gone, id, aliases[id]);
    ShownMerged(h, rows - gone, listed);
    ShownListed(h, rows - gone, aliases);
    ShownWithout(h, rows, gone);
  }

  lemma {:induction false} ListedModel(h: Heap, rows: map<string, Row>, models: map<string, Model>, id: string, alias: Alias)
    requires id in rows <==> id in models
    requires id in rows ==> models[id] == RowModel(h, rows[id])
    requires alias.scores.Some? ==> alias.at < |h.catalog| && h.catalog[alias.at] == alias.scores.value
    ensures RowModel(h, ListedRow(rows, id, alias)) == Listed(models, id, alias)
  {
  }

  lemma {:induction false} SyncedOwned(op: Op, h: Heap, m: nat)
    requires Owned(h, m) && op.SyncCatalog? && Supplied(h.catalog, op)
    ensures var rows := SyncedRows(Rows(h, m), op.gone, op.aliases); forall k :: k in rows ==> ScoresOwned(h, m, k, rows[k].scores)
  {
    var rows := SyncedRows(Rows(h, m), op.gone, op.aliases);
    forall k | k in rows ensures ScoresOwned(h, m, k, rows[k].scores) {
      assert k in op.aliases || rows[k] == Rows(h, m)[k];
    }
  }

  lemma {:induction false} SyncedBorrows(op: Op, h: Heap, m: nat)
    requires op.SyncCatalog? && BorrowsNothing(h, m)
    ensures var rows := SyncedRows(Rows(h, m), op.gone, op.aliases);
      forall k, at :: (k in rows && rows[k].scores == FromCatalog(at)) <==> Installs(op, k, at)
  {
    var rows := SyncedRows(Rows(h, m), op.gone, op.aliases);
    forall k, at ensures (k in rows && rows[k].scores == FromCatalog(at)) <==> Installs(op, k, at) {
      assert !Borrows(h, m, k, at);
    }
  }

  lemma {:induction false} SyncCatalogOk(cfg: Config, op: Op, h: Heap, m: nat)
    requires WellOwned(h) && Owned(h, m) && op.SyncCatalog? && Supplied(h.catalog, op) && BorrowsNothing(h, m)
    ensures Wrote(cfg, op, h, m, Write(cfg, op, h, m))
  {
    var rows := SyncedRows(Rows(h, m), op.gone, op.aliases);
    SyncedOwned(op, h, m);
    WriteRowsOk(h, m, rows);
    SyncedModels(h, Rows(h, m), op.gone, op.aliases);
    SyncedBorrows(op, h, m);
    forall k, at ensures Borrows(WriteRows(h, m, rows), m, k, at) <==> Installs(op, k, at) {
    }
  }

  lemma {:induction false} ToggleModelOk(cfg: Config, op: Op, h: Heap, m: nat)
    requires WellOwned(h) && Owned(h, m) && op.ToggleModel? && BorrowsNothing(h, m)
    ensures Wrote(cfg, op, h, m, Write(cfg, op, h, m))
  {
    var rows := Rows(h, m)[op.id := Toggled(Rows(h, m), op.id, op.enabled)];
    WriteRowsOk(h, m, rows);
    ToggledModels(h, Rows(h, m), op.id, op.enabled);
    forall k, at ensures !Borrows(WriteRows(h, m, rows), m, k, at) {
      assert !Borrows(h, m, k, at);
    }
  }

  lemma {:induction false} ToggledModels(h: Heap, rows: map<string, Row>, id: string, enabled: bool)
    ensures Shown(h, rows[id := Toggled(rows, id, enabled)]) == TouchModels(Op.ToggleModel(id, enabled), Shown(h, rows))
  {
  }

  // Only the written score map shows the score.
  lemma {:induction false} ScoredModels(op: Op, h: Heap, m: nat, at: nat)
    requires Owned(h, m) && op.SetScore? && op.id in Rows(h, m) && Rows(h, m)[op.id].scores == Own(at)
    ensures var h' := WriteScore(h, Own(at), op.benchmark, op.score);
      && Rows(h', m) == Rows(h, m) && Models(h', m) == TouchModels(op, Models(h, m))
  {
    var h' := WriteScore(h, Own(at), op.benchmark, op.score);
    assert ScoresOwned(h, m, op.id, Own(at));
    forall k | k in Rows(h, m) && k != op.id ensures RowModel(h', Rows(h, m)[k]) == RowModel(h, Rows(h, m)[k]) {
      assert ScoresOwned(h, m, k, Rows(h, m)[k].scores);
    }
  }

  lemma {:induction false} ScoreWritten(op: Op, h: Heap, m: nat, at: nat)
    requires WellOwned(h) && Owned(h, m) && op.SetScore? && op.id in Rows(h, m) && Rows(h, m)[op.id].scores == Own(at)
    ensures var h' := WriteScore(h, Own(at), op.benchmark, op.score); WritesOnly(h, h', m) && WellOwned(h')
  {
    var h' := WriteScore(h, Own(at), op.benchmark, op.score);
    assert ScoresOwned(h, m, op.id, Own(at));
    assert Rows(h', m) == Rows(h, m);
    FrameOwned(h, h', m);
  }

  lemma {:induction false} SetScoreOk(cfg: Config, op: Op, h: Heap, m: nat)
    requires WellOwned(h) && Owned(h, m) && op.SetScore? && BorrowsNothing(h, m)
    ensures Wrote(cfg, op, h, m, Write(cfg, op, h, m))
  {
    var h' := Write(cfg, op, h, m);
    if op.id in Rows(h, m) && Rows(h, m)[op.id].scores.Own? {
      ScoredModels(op, h, m, Rows(h, m)[op.id].scores.at);
      ScoreWritten(op, h, m, Rows(h, m)[op.id].scores.at);
    } else {
      assert op.id in Rows(h, m) && Rows(h, m)[op.id].scores.FromCatalog? ==> Borrows(h, m, op.id, Rows(h, m)[op.id].scores.at);
      assert h' == h;
    }
    forall k, at ensures !Borrows(h', m, k, at) {
      assert !Borrows(h, m, k, at);
    }
  }

  lemma {:induction false} WriteProvidersOk(h: Heap, m: nat, entries: map<string, Provider>)
    requires WellOwned(h) && m < |h.cells|
    ensures Owned(h, m)
    ensures var h' := WriteProviders(h, m, entries);
      WritesOnly(h, h', m) && WellOwned(h') && View(h', m) == View(h, m).(providers := entries)
  {
    assert Owned(h, m);
    var h' := WriteProviders(h, m, entries);
    assert Rows(h', m) == Rows(h, m);
    FrameOwned(h, h', m);
  }

  lemma {:induction false} ApplyKeepsModels(cfg: Config, op: Op, s: Snapshot)
    requires !op.OnModels()
    ensures Apply(cfg, op, s) == s.(providers := Apply(cfg, op, s).providers)
  {
  }

  lemma {:induction false} ProvidersOk(cfg: Config, op: Op, h: Heap, m: nat)
    requires WellOwned(h) && Owned(h, m) && !op.OnModels() && BorrowsNothing(h, m)
    ensures Wrote(cfg, op, h, m, Write(cfg, op, h, m))
  {
    WriteProvidersOk(h, m, Apply(cfg, op, View(h, m)).providers);
    ApplyKeepsModels(cfg, op, View(h, m));
    forall k, at ensures !Borrows(Write(cfg, op, h, m), m, k, at) {
      assert !Borrows(h, m, k, at);
    }
  }

  /** On a clone with no map of the catalog's, a closure's writes in place do to it what the closure does to a value,
      touch nothing else, and leave in it the catalog's maps that the closure installs and no others. */
  lemma {:induction false} WriteOk(cfg: Config, op: Op, h: Heap, m: nat)
    requires WellOwned(h) && m < |h.cells| && Supplied(h.catalog, op) && BorrowsNothing(h, m)
    ensures Owned(h, m) && Wrote(cfg, op, h, m, Write(cfg, op, h, m))
  {
    assert Owned(h, m);
    match op
    case SyncCatalog(_, _) => SyncCatalogOk(cfg, op, h, m);
    case ToggleModel(_, _) => ToggleModelOk(cfg, op, h, m);
    case SetScore(_, _, _) => SetScoreOk(cfg, op, h, m);
    case _ => ProvidersOk(cfg, op, h, m);
  }

  lemma {:induction false} StampOk(h: Heap, m: nat, version: nat)
    requires WellOwned(h) && m < |h.cells|
    ensures var h' := Stamp(h, m, version);
      && WritesOnly(h, h', m) && WellOwned(h') && View(h', m) == View(h, m).(version := version)
      && Rows(h', m) == Rows(h, m)
  {
    assert Owned(h, m);
    var h' := Stamp(h, m, version);
    assert Rows(h', m) == Rows(h, m);
    FrameOwned(h, h', m);
  }
}
