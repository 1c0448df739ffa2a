/**
 * The daily incremental sync (src/etl/sync_daily.py): per BIN the plans and
 * then the contracts with their units, each walk abandoned at the first
 * record last updated before the cutoff; afterwards the announcement
 * backfill.
 */
module SyncDaily {
  import opened Wrappers
  import opened Text
  import opened Dates
  import opened Models
  import opened Store
  import opened Client
  import opened Upstream
  import opened Folds
  import opened LoadHistorical
  import opened EnrichMissingAnnouncements

  /** The window the cutoff is taken back from the start time (a parameter here). */
  const SyncWindowDays := 3

  // ------------------------------------------------------------- plan pass

  /** `parse_date(index_date) or parse_date(timestamp)`: a parsed datetime is always truthy. */
  function PlanUpdated(fromIso: string -> Option<DateTime>, x: PlanItem): Option<DateTime> {
    var a := ParseDateHistorical(x.indexDate, fromIso);
    if a.Some? then a else ParseDateHistorical(x.timestamp, fromIso)
  }

  /** The record that ends the walk: its last update parses and lies before the cutoff. */
  predicate PlanStale(fromIso: string -> Option<DateTime>, cutoff: DateTime, x: PlanItem) {
    var u := PlanUpdated(fromIso, x);
    u.Some? && Before(u.value, cutoff)
  }

  function PlanStaleFn(fromIso: string -> Option<DateTime>, cutoff: DateTime): PlanItem -> bool {
    x => PlanStale(fromIso, cutoff, x)
  }

  /** The plan pass's state: the store and `valid_plan_ids`. */
  datatype PlanSync = PlanSync(db: Db, valid: set<int>)

  /** Plans known for this BIN before the pass. */
  function PlansOf(t: Tables, bin: string): set<int> {
    set k | k in t.plans && t.plans[k].subjectBiin == Some(bin)
  }

  /** Contracts known for this BIN before the pass. */
  function ContractsOf(t: Tables, bin: string): set<int> {
    set k | k in t.contracts && t.contracts[k].customerBin == Some(bin)
  }

  /** One plan before the stop: skipped when this BIN had it; otherwise merged and made a valid reference. */
  function PlanMerge(bin: string, fromIso: string -> Option<DateTime>, existing: set<int>, st: PlanSync, x: PlanItem)
    : (r: PlanSync)
    ensures x.id in existing ==> r == st
    ensures x.id !in existing ==>
      && r.db == st.db.Write(st.db.live.PutPlan(PlanRow(x, Some(bin), ParseDateHistorical(x.dateApproved, fromIso))))
      && r.valid == st.valid + {x.id}
  {
    if x.id in existing then st
    else PlanSync(st.db.Write(st.db.live.PutPlan(PlanRow(x, Some(bin), ParseDateHistorical(x.dateApproved, fromIso)))),
                  st.valid + {x.id})
  }

  function PlanMergeFn(bin: string, fromIso: string -> Option<DateTime>, existing: set<int>): (PlanSync, PlanItem) -> PlanSync {
    (st, x) => PlanMerge(bin, fromIso, existing, st, x)
  }

  /** The plan pass: the records before the first stale one, `valid_plan_ids` starting as `existing`. */
  function PlansSynced(d: Db, bin: string, fromIso: string -> Option<DateTime>, cutoff: DateTime, existing: set<int>,
                       items: seq<PlanItem>): PlanSync {
    FoldL(PlanMergeFn(bin, fromIso, existing), PlanSync(d, existing), UntilFirst(items, PlanStaleFn(fromIso, cutoff)))
  }

  /** One plan of the walk: `PlanMerge` on the session. */
  method MergePlan(s: Session, bin: string, fromIso: string -> Option<DateTime>, existing: set<int>, valid: set<int>,
                   x: PlanItem) returns (valid': set<int>)
    modifies s
    ensures PlanSync(s.State(), valid') == PlanMerge(bin, fromIso, existing, PlanSync(old(s.State()), valid), x)
  {
    valid' := valid;
    if x.id !in existing {
      s.Write(s.live.PutPlan(PlanRow(x, Some(bin), ParseDateHistorical(x.dateApproved, fromIso))));
      valid' := valid + {x.id};
    }
  }

  method SyncPlans(s: Session, bin: string, fromIso: string -> Option<DateTime>, cutoff: DateTime, existing: set<int>,
                   items: seq<PlanItem>) returns (valid: set<int>, stopped: bool)
    modifies s
    ensures PlanSync(s.State(), valid) == PlansSynced(old(s.State()), bin, fromIso, cutoff, existing, items)
    ensures stopped <==> |UntilFirst(items, PlanStaleFn(fromIso, cutoff))| < |items|
  {
    ghost var step, start := PlanMergeFn(bin, fromIso, existing), PlanSync(s.State(), existing);
    ghost var run := UntilFirst(items, PlanStaleFn(fromIso, cutoff));
    valid := existing;
    stopped := false;
    var i := 0;
    while i < |items|
      invariant i <= |run|
      invariant PlanSync(s.State(), valid) == FoldL(step, start, items[..i])
    {
      var x := items[i];
      if PlanStale(fromIso, cutoff, x) {
        stopped := true;
        break;
      }
      assert !PlanStaleFn(fromIso, cutoff)(x) && i < |run|;
      FoldLast(step, start, items, i);
      valid := MergePlan(s, bin, fromIso, existing, valid, x);
      i := i + 1;
    }
    assert run == items[..i];
  }

  // --------------------------------------------------------- contract pass

  /** `parse_date(index_date) or parse_date(crdate)`. */
  function ContractUpdated(fromIso: string -> Option<DateTime>, x: ContractItem): Option<DateTime> {
    var a := ParseDateHistorical(x.indexDate, fromIso);
    if a.Some? then a else ParseDateHistorical(x.crdate, fromIso)
  }

  predicate ContractStale(fromIso: string -> Option<DateTime>, cutoff: DateTime, x: ContractItem) {
    var u := ContractUpdated(fromIso, x);
    u.Some? && Before(u.value, cutoff)
  }

  function ContractStaleFn(fromIso: string -> Option<DateTime>, cutoff: DateTime): ContractItem -> bool {
    x => ContractStale(fromIso, cutoff, x)
  }

  /** What the contract pass of one BIN works with: the snapshots and the single-request oracles. */
  datatype Pass = Pass(bin: string, fromIso: string -> Option<DateTime>, contractsBefore: set<int>,
                       unitsBefore: set<int>, valid: set<int>, annOf: AnnOracle, lotsOf: LotsOracle,
                       unitsOf: int -> Outcome<Body<UnitItem>>)

  /** One unit: skipped when its id existed anywhere at the start; otherwise merged, its plan filtered. */
  function UnitMerge(contractId: int, unitsBefore: set<int>, valid: set<int>, t: Tables, u: UnitItem): (r: Tables)
    ensures u.id in unitsBefore ==> r == t
    ensures u.id !in unitsBefore ==> r == t.PutUnit(UnitRow(u, contractId, KeepIfIn(u.plnPointId, valid)))
  {
    if u.id in unitsBefore then t else t.PutUnit(UnitRow(u, contractId, KeepIfIn(u.plnPointId, valid)))
  }

  function UnitMergeFn(contractId: int, unitsBefore: set<int>, valid: set<int>): (Tables, UnitItem) -> Tables {
    (t, u) => UnitMerge(contractId, unitsBefore, valid, t, u)
  }

  /** A unit the pass has stored for `contractId`, unless its id existed at the start. */
  predicate UnitSettled(contractId: int, unitsBefore: set<int>, t: Tables, u: UnitItem) {
    u.id in unitsBefore || (u.id in t.units && t.units[u.id].contractId == contractId)
  }

  /**
   * The units of one contract's reply, merged in order: only the units table
   * changes, it only grows, and every unit not seen at the start ends up
   * stored under this contract.
   */
  function UnitsMerged(contractId: int, unitsBefore: set<int>, valid: set<int>, t: Tables, units: seq<UnitItem>)
    : (r: Tables)
    ensures r == t.(units := r.units) && t.units.Keys <= r.units.Keys
    ensures forall u :: u in units ==> UnitSettled(contractId, unitsBefore, r, u)
  {
    var step := UnitMergeFn(contractId, unitsBefore, valid);
    FoldKeeps(step, (v: Tables) => v == t.(units := v.units) && t.units.Keys <= v.units.Keys, t, units);
    FoldSettles(step, (v: Tables, u: UnitItem) => UnitSettled(contractId, unitsBefore, v, u), t, units);
    FoldL(step, t, units)
  }

  function SyncContractRow(c: Pass, x: ContractItem): Contract {
    Contract(x.id, x.number, if TruthyInt(x.trdBuyId) then x.trdBuyId else None,
             ParseDateHistorical(x.crdate, c.fromIso), x.sum, NonBlank(x.supplierBiin), Some(c.bin), x.status)
  }

  /** The contract with its supplier and units, once its announcement is known to be present. */
  function ContractStored(c: Pass, d: Db, x: ContractItem): (r: Db)
    ensures x.id in r.live.contracts && r.live.contracts[x.id] == SyncContractRow(c, x)
    ensures NonBlank(x.supplierBiin).Some? ==> NonBlank(x.supplierBiin).value in r.live.subjects
    ensures Grows(d.live, r.live) && r.live.announcements == d.live.announcements
    ensures Coherent(d) ==> Coherent(r) && Grows(d.durable, r.durable)
    ensures NonBlank(x.supplierBiin).None? ==> r.durable == d.durable
  {
    var supplier := NonBlank(x.supplierBiin);
    var d1 := if supplier.Some? then WithSubject(d, supplier.value, None, false, true) else d;
    var d2 := d1.Write(d1.live.PutContract(SyncContractRow(c, x)));
    d2.Write(UnitsMerged(x.id, c.unitsBefore, c.valid, d2.live, Replied(c.unitsOf(x.id))))
  }

  /**
   * One contract before the stop, as the pass does it: skipped when this BIN
   * had it; stored when it has no announcement id, its announcement is
   * present, or `ensure_announcement` fetches it; otherwise skipped together
   * with its units, after a failed request has rolled the session back to
   * the last commit, taking whatever the pass merged since with it.
   */
  function ContractMergeAsWritten(c: Pass, d: Db, x: ContractItem): (r: Db)
    ensures x.id in c.contractsBefore ==> r == d
    ensures x.id !in c.contractsBefore && (!TruthyInt(x.trdBuyId) || x.trdBuyId.value in d.live.announcements) ==>
      r == ContractStored(c, d, x)
    ensures x.id !in c.contractsBefore && (!TruthyInt(x.trdBuyId) || x.trdBuyId.value in d.live.announcements
                                           || Fetches(c.annOf, c.lotsOf, x.trdBuyId.value)) ==>
      && x.id in r.live.contracts && r.live.contracts[x.id] == SyncContractRow(c, x)
      && Grows(d.live, r.live)
    ensures x.id !in c.contractsBefore && TruthyInt(x.trdBuyId) && x.trdBuyId.value !in d.live.announcements ==>
      && (c.annOf(x.trdBuyId.value).Failed? ==> r == d.Rollback())
      && (c.annOf(x.trdBuyId.value).Ok? && FirstRecord(c.annOf(x.trdBuyId.value).body).None? ==> r == d)
      && ((c.annOf(x.trdBuyId.value).Ok? && FirstRecord(c.annOf(x.trdBuyId.value).body).Some?
           && c.lotsOf(x.trdBuyId.value).Failed?) ==> r.live == r.durable)
    ensures Coherent(d) ==> Coherent(r) && Grows(d.durable, r.durable)
  {
    if x.id in c.contractsBefore then d
    else
      var e := AnnouncementEnsured(d, x.trdBuyId, c.annOf, c.lotsOf);
      if !e.ok then e.db else ContractStored(c, e.db, x)
  }

  /**
   * The same step with the work of the earlier contracts committed before
   * `ensure_announcement` can roll back: the reference the pass is compared
   * against (see `CommitKeepsEarlierContract`).
   */
  function ContractMerge(c: Pass, d: Db, x: ContractItem): (r: Db)
    ensures x.id in c.contractsBefore ==> r == d
    ensures x.id !in c.contractsBefore && TruthyInt(x.trdBuyId) ==>
      var e := AnnouncementEnsured(d.Commit(), x.trdBuyId, c.annOf, c.lotsOf);
      r == if e.ok then ContractStored(c, e.db, x) else e.db
    ensures x.id !in c.contractsBefore && !TruthyInt(x.trdBuyId) ==> r == ContractStored(c, d, x)
    ensures Coherent(d) ==> Coherent(r) && Grows(d.live, r.live)
  {
    if x.id in c.contractsBefore then d
    else if !TruthyInt(x.trdBuyId) then ContractStored(c, d, x)
    else
      var e := AnnouncementEnsured(d.Commit(), x.trdBuyId, c.annOf, c.lotsOf);
      if !e.ok then e.db else ContractStored(c, e.db, x)
  }

  function ContractMergeFn(c: Pass): (Db, ContractItem) -> Db {
    (d, x) => ContractMergeAsWritten(c, d, x)
  }

  function ContractMergeCorrectedFn(c: Pass): (Db, ContractItem) -> Db {
    (d, x) => ContractMerge(c, d, x)
  }

  /** The contract pass: the records before the first stale one, each merged as written. */
  function ContractsSynced(c: Pass, d: Db, cutoff: DateTime, items: seq<ContractItem>): Db {
    FoldL(ContractMergeFn(c), d, UntilFirst(items, ContractStaleFn(c.fromIso, cutoff)))
  }

  /** The contract pass with the corrected step. */
  function ContractsSyncedCorrected(c: Pass, d: Db, cutoff: DateTime, items: seq<ContractItem>): Db {
    FoldL(ContractMergeCorrectedFn(c), d, UntilFirst(items, ContractStaleFn(c.fromIso, cutoff)))
  }

  method MergeUnits(s: Session, contractId: int, unitsBefore: set<int>, valid: set<int>, units: seq<UnitItem>)
    modifies s
    ensures s.State() == old(s.State()).Write(UnitsMerged(contractId, unitsBefore, valid, old(s.live), units))
  {
    var j := 0;
    while j < |units|
      invariant j <= |units|
      invariant s.State() == old(s.State()).Write(FoldL(UnitMergeFn(contractId, unitsBefore, valid), old(s.live), units[..j]))
    {
      FoldLast(UnitMergeFn(contractId, unitsBefore, valid), old(s.live), units, j);
      var u := units[j];
      if u.id !in unitsBefore {
        var pln := KeepIfIn(u.plnPointId, valid);
        s.Write(s.live.PutUnit(UnitRow(u, contractId, pln)));
      }
      j := j + 1;
    }
    assert units[..j] == units;
  }

  method StoreContract(s: Session, c: Pass, x: ContractItem)
    modifies s
    ensures s.State() == ContractStored(c, old(s.State()), x)
  {
    var supplier := NonBlank(x.supplierBiin);
    if supplier.Some? {
      var _ := UpsertSubject(s, supplier.value, None, false, true);
    }
    s.Write(s.live.PutContract(SyncContractRow(c, x)));
    var reply := c.unitsOf(x.id);
    if reply.Ok? {
      MergeUnits(s, x.id, c.unitsBefore, c.valid, PageItems(reply.body));
    } else {
      assert UnitsMerged(x.id, c.unitsBefore, c.valid, s.live, []) == s.live;
    }
  }

  /** One contract of the walk: `ContractMergeAsWritten` on the session. */
  method MergeContract(s: Session, c: Pass, x: ContractItem)
    modifies s
    ensures s.State() == ContractMergeAsWritten(c, old(s.State()), x)
  {
    if x.id !in c.contractsBefore {
      var trd := x.trdBuyId;
      var ok := true;
      if TruthyInt(trd) {
        ok := EnsureAnnouncement(s, trd, c.annOf, c.lotsOf);
      }
      if ok {
        StoreContract(s, c, x);
      }
    }
  }

  method SyncContracts(s: Session, c: Pass, cutoff: DateTime, items: seq<ContractItem>) returns (stopped: bool)
    modifies s
    ensures s.State() == ContractsSynced(c, old(s.State()), cutoff, items)
    ensures stopped <==> |UntilFirst(items, ContractStaleFn(c.fromIso, cutoff))| < |items|
  {
    ghost var step, start := ContractMergeFn(c), s.State();
    ghost var run := UntilFirst(items, ContractStaleFn(c.fromIso, cutoff));
    stopped := false;
    var i := 0;
    while i < |items|
      invariant i <= |run|
      invariant s.State() == FoldL(step, start, items[..i])
    {
      var x := items[i];
      if ContractStale(c.fromIso, cutoff, x) {
        stopped := true;
        break;
      }
      assert !ContractStaleFn(c.fromIso, cutoff)(x) && i < |run|;
      FoldLast(step, start, items, i);
      MergeContract(s, c, x);
      i := i + 1;
    }
    assert run == items[..i];
  }

  // ------------------------------------------------------ sync_data_for_bin

  /** What the upstream answers for one BIN. */
  datatype SyncFeeds = SyncFeeds(plans: Stream<PlanItem>, contracts: Stream<ContractItem>,
                                 unitsOf: int -> Outcome<Body<UnitItem>>)

  /** A walk raises into the job only when the loop consumed it to the end (no `break`). */
  predicate Escapes<X>(feed: Stream<X>, stop: X -> bool) {
    feed.raised && |UntilFirst(feed.items, stop)| == |feed.items|
  }

  /**
   * `sync_data_for_bin`: the customer upsert; the snapshots of this BIN's
   * plans and contracts and of all unit ids; the plan pass, committed; the
   * contract pass, committed.
   */
  function BinSynced(d: Db, bin: string, fromIso: string -> Option<DateTime>, cutoff: DateTime, f: SyncFeeds,
                     annOf: AnnOracle, lotsOf: LotsOracle): Run {
    var d0 := WithSubject(d, bin, None, true, false);
    var existingPlans := PlansOf(d0.live, bin);
    var c0 := Pass(bin, fromIso, ContractsOf(d0.live, bin), d0.live.units.Keys, {}, annOf, lotsOf, f.unitsOf);
    var ps := PlansSynced(d0, bin, fromIso, cutoff, existingPlans, f.plans.items);
    if Escapes(f.plans, PlanStaleFn(fromIso, cutoff)) then Run(ps.db, true)
    else
      var c := c0.(valid := ps.valid);
      var d2 := ContractsSynced(c, ps.db.Commit(), cutoff, f.contracts.items);
      if Escapes(f.contracts, ContractStaleFn(fromIso, cutoff)) then Run(d2, true) else Run(d2.Commit(), false)
  }

  method SyncDataForBin(s: Session, bin: string, fromIso: string -> Option<DateTime>, cutoff: DateTime, f: SyncFeeds,
                        annOf: AnnOracle, lotsOf: LotsOracle) returns (raised: bool)
    modifies s
    ensures Run(s.State(), raised) == BinSynced(old(s.State()), bin, fromIso, cutoff, f, annOf, lotsOf)
  {
    var _ := UpsertSubject(s, bin, None, true, false);
    var existingPlans := PlansOf(s.live, bin);
    var existingContracts := ContractsOf(s.live, bin);
    var existingUnits := s.live.units.Keys;
    var valid, stopped := SyncPlans(s, bin, fromIso, cutoff, existingPlans, f.plans.items);
    if f.plans.raised && !stopped {
      return true;
    }
    s.Commit();
    var c := Pass(bin, fromIso, existingContracts, existingUnits, valid, annOf, lotsOf, f.unitsOf);
    stopped := SyncContracts(s, c, cutoff, f.contracts.items);
    if f.contracts.raised && !stopped {
      return true;
    }
    s.Commit();
    return false;
  }

  /** The BINs in order; the first exception ends the run. */
  function BinsSynced(d: Db, fromIso: string -> Option<DateTime>, cutoff: DateTime, feeds: string -> SyncFeeds,
                      annOf: AnnOracle, lotsOf: LotsOracle, bins: seq<string>): Run
    decreases |bins|
  {
    if bins == [] then Run(d, false)
    else
      var p := BinsSynced(d, fromIso, cutoff, feeds, annOf, lotsOf, bins[..|bins| - 1]);
      if p.raised then p else BinSynced(p.db, bins[|bins| - 1], fromIso, cutoff, feeds(bins[|bins| - 1]), annOf, lotsOf)
  }

  /**
   * The script: every target BIN, then the backfill over `ids` (what its
   * query returns at that point); the session is closed at the end.
   */
  function DailySynced(d: Db, fromIso: string -> Option<DateTime>, cutoff: DateTime, feeds: string -> SyncFeeds,
                       annOf: AnnOracle, lotsOf: LotsOracle, ids: seq<int>): Db {
    var r := BinsSynced(d, fromIso, cutoff, feeds, annOf, lotsOf, TargetBins);
    if r.raised then r.db.Rollback() else Backfilled(r.db, annOf, lotsOf, ids).db.Rollback()
  }

  lemma {:induction false} BinsSyncedRaisedStays(d: Db, fromIso: string -> Option<DateTime>, cutoff: DateTime,
                                                 feeds: string -> SyncFeeds, annOf: AnnOracle, lotsOf: LotsOracle,
                                                 bins: seq<string>, n: nat)
    requires n <= |bins| && BinsSynced(d, fromIso, cutoff, feeds, annOf, lotsOf, bins[..n]).raised
    ensures BinsSynced(d, fromIso, cutoff, feeds, annOf, lotsOf, bins)
         == BinsSynced(d, fromIso, cutoff, feeds, annOf, lotsOf, bins[..n])
    decreases |bins| - n
  {
    if n < |bins| {
      assert bins[..n + 1][..n] == bins[..n];
      BinsSyncedRaisedStays(d, fromIso, cutoff, feeds, annOf, lotsOf, bins, n + 1);
    } else {
      assert bins[..n] == bins;
    }
  }

  method SyncBins(s: Session, fromIso: string -> Option<DateTime>, cutoff: DateTime, feeds: string -> SyncFeeds,
                  annOf: AnnOracle, lotsOf: LotsOracle, bins: seq<string>) returns (raised: bool)
    modifies s
    ensures Run(s.State(), raised) == BinsSynced(old(s.State()), fromIso, cutoff, feeds, annOf, lotsOf, bins)
  {
    var i := 0;
    while i < |bins|
      invariant i <= |bins|
      invariant BinsSynced(old(s.State()), fromIso, cutoff, feeds, annOf, lotsOf, bins[..i]) == Run(s.State(), false)
    {
      assert bins[..i + 1][..i] == bins[..i];
      raised := SyncDataForBin(s, bins[i], fromIso, cutoff, feeds(bins[i]), annOf, lotsOf);
      if raised {
        BinsSyncedRaisedStays(old(s.State()), fromIso, cutoff, feeds, annOf, lotsOf, bins, i + 1);
        return;
      }
      i := i + 1;
    }
    assert bins[..i] == bins;
    return false;
  }

  method RunDaily(s: Session, fromIso: string -> Option<DateTime>, cutoff: DateTime, feeds: string -> SyncFeeds,
                  annOf: AnnOracle, lotsOf: LotsOracle, ids: seq<int>)
    modifies s
    ensures s.State() == DailySynced(old(s.State()), fromIso, cutoff, feeds, annOf, lotsOf, ids)
  {
    var raised := SyncBins(s, fromIso, cutoff, feeds, annOf, lotsOf, TargetBins);
    if !raised {
      var _ := BackfillAnnouncements(s, annOf, lotsOf, ids);
    }
    s.Rollback();
  }

  // ------------------------------------------------------------- properties

  /** Nothing from the first record updated before the cutoff on reaches the plan pass. */
  lemma PlanStopIgnoresRest(d: Db, bin: string, fromIso: string -> Option<DateTime>, cutoff: DateTime,
                            existing: set<int>, a: seq<PlanItem>, x: PlanItem, b: seq<PlanItem>)
    requires PlanStale(fromIso, cutoff, x)
    ensures PlansSynced(d, bin, fromIso, cutoff, existing, a + [x] + b)
         == PlansSynced(d, bin, fromIso, cutoff, existing, a)
  {
    UntilFirstCut(a, x, b, PlanStaleFn(fromIso, cutoff));
  }

  /** Nothing from the first contract updated before the cutoff on reaches the contract pass. */
  lemma ContractStopIgnoresRest(c: Pass, d: Db, cutoff: DateTime, a: seq<ContractItem>, x: ContractItem,
                                b: seq<ContractItem>)
    requires ContractStale(c.fromIso, cutoff, x)
    ensures ContractsSynced(c, d, cutoff, a + [x] + b) == ContractsSynced(c, d, cutoff, a)
  {
    UntilFirstCut(a, x, b, ContractStaleFn(c.fromIso, cutoff));
  }

  /** The ids of the plans in `xs` that the pass merges. */
  function NewPlanIds(existing: set<int>, xs: seq<PlanItem>): set<int> {
    set x | x in xs && x.id !in existing :: x.id
  }

  /**
   * Merging plans adds to `valid_plan_ids` exactly the new ids among them,
   * which are then stored plans; no plan is removed and only the plans table
   * changes.
   */
  lemma {:induction false} PlanMergesValid(bin: string, fromIso: string -> Option<DateTime>, existing: set<int>,
                                           st: PlanSync, xs: seq<PlanItem>)
    ensures var r := FoldL(PlanMergeFn(bin, fromIso, existing), st, xs);
      && r.valid == st.valid + NewPlanIds(existing, xs)
      && st.db.live.plans.Keys + NewPlanIds(existing, xs) <= r.db.live.plans.Keys
      && r.db == st.db.(live := st.db.live.(plans := r.db.live.plans))
    decreases |xs|
  {
    if xs != [] {
      var init := xs[..|xs| - 1];
      var x := xs[|xs| - 1];
      PlanMergesValid(bin, fromIso, existing, st, init);
      assert xs == init + [x];
      assert NewPlanIds(existing, xs) == NewPlanIds(existing, init) + (if x.id in existing then {} else {x.id});
    }
  }

  /**
   * After the plan pass, `valid_plan_ids` holds the BIN's earlier plans and
   * exactly the new plans merged before the stop, each of them stored.
   */
  lemma PlanPassValid(d: Db, bin: string, fromIso: string -> Option<DateTime>, cutoff: DateTime, existing: set<int>,
                      items: seq<PlanItem>)
    requires existing <= d.live.plans.Keys
    ensures var r := PlansSynced(d, bin, fromIso, cutoff, existing, items);
      && r.valid == existing + NewPlanIds(existing, UntilFirst(items, PlanStaleFn(fromIso, cutoff)))
      && r.valid <= r.db.live.plans.Keys
      && d.live.plans.Keys <= r.db.live.plans.Keys
  {
    PlanMergesValid(bin, fromIso, existing, PlanSync(d, existing), UntilFirst(items, PlanStaleFn(fromIso, cutoff)));
  }

  /**
   * The contract pass never loses a committed row and keeps the committed
   * state below the pending one; a rollback can still drop rows merged
   * since the last commit (see `RollbackDropsEarlierContract`).
   */
  lemma ContractPassGrows(c: Pass, d: Db, cutoff: DateTime, items: seq<ContractItem>)
    requires Coherent(d)
    ensures Coherent(ContractsSynced(c, d, cutoff, items)) && Grows(d.durable, ContractsSynced(c, d, cutoff, items).durable)
  {
    FoldKeeps(ContractMergeFn(c), (t: Db) => Coherent(t) && Grows(d.durable, t.durable), d,
              UntilFirst(items, ContractStaleFn(c.fromIso, cutoff)));
  }

  /** With the corrected step, the pass never loses a row the session already held. */
  lemma ContractPassCorrectedGrows(c: Pass, d: Db, cutoff: DateTime, items: seq<ContractItem>)
    requires Coherent(d)
    ensures Coherent(ContractsSyncedCorrected(c, d, cutoff, items))
    ensures Grows(d.live, ContractsSyncedCorrected(c, d, cutoff, items).live)
  {
    FoldKeeps(ContractMergeCorrectedFn(c), (t: Db) => Coherent(t) && Grows(d.live, t.live), d,
              UntilFirst(items, ContractStaleFn(c.fromIso, cutoff)));
  }

  /**
   * When every announcement fetch the contracts need succeeds, every new
   * contract is stored and stays stored: no rollback happens.
   */
  lemma {:induction false} ContractMergesStoreAll(c: Pass, d: Db, xs: seq<ContractItem>)
    requires forall x :: x in xs && TruthyInt(x.trdBuyId) ==> Fetches(c.annOf, c.lotsOf, x.trdBuyId.value)
    ensures forall x :: x in xs && x.id !in c.contractsBefore ==> x.id in FoldL(ContractMergeFn(c), d, xs).live.contracts
    ensures Grows(d.live, FoldL(ContractMergeFn(c), d, xs).live)
    decreases |xs|
  {
    if xs != [] {
      var init := xs[..|xs| - 1];
      var x := xs[|xs| - 1];
      forall y | y in init && TruthyInt(y.trdBuyId) ensures Fetches(c.annOf, c.lotsOf, y.trdBuyId.value) {
        assert y in xs;
      }
      ContractMergesStoreAll(c, d, init);
      var t := FoldL(ContractMergeFn(c), d, init);
      assert Grows(t.live, ContractMergeAsWritten(c, t, x).live);
      forall y | y in xs && y.id !in c.contractsBefore
        ensures y.id in FoldL(ContractMergeFn(c), d, xs).live.contracts
      {
        if y != x {
          assert y in init;
        }
      }
    }
  }

  lemma ContractPassStoresAll(c: Pass, d: Db, cutoff: DateTime, items: seq<ContractItem>)
    requires forall x :: x in items && TruthyInt(x.trdBuyId) ==> Fetches(c.annOf, c.lotsOf, x.trdBuyId.value)
    ensures forall x :: x in UntilFirst(items, ContractStaleFn(c.fromIso, cutoff)) && x.id !in c.contractsBefore ==>
      x.id in ContractsSynced(c, d, cutoff, items).live.contracts
  {
    var run := UntilFirst(items, ContractStaleFn(c.fromIso, cutoff));
    assert forall x :: x in run ==> x in items;
    ContractMergesStoreAll(c, d, run);
  }

  /** The contracts whose announcement fetch, when one is needed, succeeds. */
  predicate FetchesFor(c: Pass, x: ContractItem) {
    TruthyInt(x.trdBuyId) ==> Fetches(c.annOf, c.lotsOf, x.trdBuyId.value)
  }

  lemma ContractStepAgrees(c: Pass, a: Db, b: Db, x: ContractItem)
    requires a.live == b.live && FetchesFor(c, x)
    ensures ContractMergeAsWritten(c, a, x).live == ContractMerge(c, b, x).live
  {
    if x.id !in c.contractsBefore && TruthyInt(x.trdBuyId) {
      EnsuredLiveAgrees(a, b.Commit(), x.trdBuyId, c.annOf, c.lotsOf);
    }
  }

  /**
   * When every announcement fetch succeeds, the pass as written and the
   * corrected pass leave the same pending state: they differ only in what
   * is committed when.
   */
  lemma ContractPassAgrees(c: Pass, d: Db, cutoff: DateTime, items: seq<ContractItem>)
    requires forall x :: x in items ==> FetchesFor(c, x)
    ensures ContractsSynced(c, d, cutoff, items).live == ContractsSyncedCorrected(c, d, cutoff, items).live
  {
    var run := UntilFirst(items, ContractStaleFn(c.fromIso, cutoff));
    assert forall x :: x in run ==> x in items;
    forall a: Db, b: Db, x: ContractItem | a.live == b.live && FetchesFor(c, x)
      ensures ContractMergeFn(c)(a, x).live == ContractMergeCorrectedFn(c)(b, x).live
    {
      ContractStepAgrees(c, a, b, x);
    }
    FoldAgree(ContractMergeFn(c), ContractMergeCorrectedFn(c), (a: Db, b: Db) => a.live == b.live,
              (x: ContractItem) => FetchesFor(c, x), d, d, run);
  }

  /**
   * As written, an announcement fetch that fails rolls the session back and
   * takes with it a contract merged earlier in the same pass: contract `a`
   * (no announcement id, no supplier) is stored, then contract `b`, whose
   * announcement has to be fetched and cannot be, removes it again.
   */
  lemma RollbackDropsEarlierContract(c: Pass, d: Db, a: ContractItem, b: ContractItem)
    requires a.id !in c.contractsBefore && !TruthyInt(a.trdBuyId) && NonBlank(a.supplierBiin).None?
    requires a.id !in d.durable.contracts
    requires b.id !in c.contractsBefore && TruthyInt(b.trdBuyId) && b.trdBuyId.value !in d.live.announcements
    requires c.annOf(b.trdBuyId.value).Failed?
    ensures a.id in ContractMergeAsWritten(c, d, a).live.contracts
    ensures a.id !in ContractMergeAsWritten(c, ContractMergeAsWritten(c, d, a), b).live.contracts
  {
  }

  /** The same two contracts with the commit before the fetch: `a` stays. */
  lemma CommitKeepsEarlierContract(c: Pass, d: Db, a: ContractItem, b: ContractItem)
    requires Coherent(d)
    requires a.id !in c.contractsBefore && !TruthyInt(a.trdBuyId)
    ensures a.id in ContractMerge(c, ContractMerge(c, d, a), b).live.contracts
  {
  }

  // ------------------------------------------------------------ references

  /** What the contract pass keeps: a safe store, committed rows pending too, valid plan ids committed. */
  predicate PassSafe(d: Db, valid: set<int>) {
    SafeDb(d) && Coherent(d) && valid <= d.durable.plans.Keys
  }

  lemma PlanMergeSafe(bin: string, fromIso: string -> Option<DateTime>, existing: set<int>, st: PlanSync, x: PlanItem)
    requires SafeDb(st.db) && Coherent(st.db)
    ensures SafeDb(PlanMerge(bin, fromIso, existing, st, x).db) && Coherent(PlanMerge(bin, fromIso, existing, st, x).db)
  {
    PutPlanSafe(st.db.live, PlanRow(x, Some(bin), ParseDateHistorical(x.dateApproved, fromIso)));
  }

  lemma UnitsMergedSafe(contractId: int, unitsBefore: set<int>, valid: set<int>, t: Tables, units: seq<UnitItem>)
    requires Safe(t) && contractId in t.contracts && valid <= t.plans.Keys
    ensures Safe(UnitsMerged(contractId, unitsBefore, valid, t, units))
  {
    var step := UnitMergeFn(contractId, unitsBefore, valid);
    forall v: Tables, u: UnitItem | Safe(v) && contractId in v.contracts && valid <= v.plans.Keys
      ensures Safe(step(v, u)) && contractId in step(v, u).contracts && valid <= step(v, u).plans.Keys
    {
      if u.id !in unitsBefore {
        PutUnitSafe(v, UnitRow(u, contractId, KeepIfIn(u.plnPointId, valid)));
      }
    }
    FoldKeeps(step, (v: Tables) => Safe(v) && contractId in v.contracts && valid <= v.plans.Keys, t, units);
  }

  lemma ContractStoredSafe(c: Pass, d: Db, x: ContractItem)
    requires PassSafe(d, c.valid)
    requires TruthyInt(x.trdBuyId) ==> x.trdBuyId.value in d.live.announcements
    ensures PassSafe(ContractStored(c, d, x), c.valid)
  {
    var supplier := NonBlank(x.supplierBiin);
    var d1 := if supplier.Some? then WithSubject(d, supplier.value, None, false, true) else d;
    if supplier.Some? {
      WithSubjectSafe(d, supplier.value, None, false, true);
    }
    assert SafeDb(d1) && d1.live.announcements == d.live.announcements && c.valid <= d1.live.plans.Keys;
    PutContractSafe(d1.live, SyncContractRow(c, x));
    var t := d1.live.PutContract(SyncContractRow(c, x));
    UnitsMergedSafe(x.id, c.unitsBefore, c.valid, t, Replied(c.unitsOf(x.id)));
    assert ContractStored(c, d, x) == d1.Write(UnitsMerged(x.id, c.unitsBefore, c.valid, t, Replied(c.unitsOf(x.id))));
  }

  /**
   * When the upstream echoes ids, a contract step keeps every reference
   * resolvable, a rollback included: it returns to a committed state, which
   * is safe.
   */
  lemma ContractMergeSafe(c: Pass, d: Db, x: ContractItem)
    requires PassSafe(d, c.valid) && Echoes(c.annOf)
    ensures PassSafe(ContractMergeAsWritten(c, d, x), c.valid)
  {
    if x.id !in c.contractsBefore {
      var e := AnnouncementEnsured(d, x.trdBuyId, c.annOf, c.lotsOf);
      EnsuredSafe(d, x.trdBuyId, c.annOf, c.lotsOf);
      if e.ok {
        if TruthyInt(x.trdBuyId) {
          EnsuredMeansPresent(d, x.trdBuyId, c.annOf, c.lotsOf);
        }
        ContractStoredSafe(c, e.db, x);
      }
    }
  }

  lemma PlanPassSafe(d: Db, bin: string, fromIso: string -> Option<DateTime>, cutoff: DateTime, existing: set<int>,
                     items: seq<PlanItem>)
    requires SafeDb(d) && Coherent(d)
    ensures SafeDb(PlansSynced(d, bin, fromIso, cutoff, existing, items).db)
    ensures Coherent(PlansSynced(d, bin, fromIso, cutoff, existing, items).db)
  {
    var planStep := PlanMergeFn(bin, fromIso, existing);
    forall st: PlanSync, x: PlanItem | SafeDb(st.db) && Coherent(st.db)
      ensures SafeDb(planStep(st, x).db) && Coherent(planStep(st, x).db)
    {
      PlanMergeSafe(bin, fromIso, existing, st, x);
    }
    FoldKeeps(planStep, (st: PlanSync) => SafeDb(st.db) && Coherent(st.db), PlanSync(d, existing),
              UntilFirst(items, PlanStaleFn(fromIso, cutoff)));
  }

  lemma ContractPassSafe(c: Pass, d: Db, cutoff: DateTime, items: seq<ContractItem>)
    requires PassSafe(d, c.valid) && Echoes(c.annOf)
    ensures PassSafe(ContractsSynced(c, d, cutoff, items), c.valid)
  {
    forall t: Db, x: ContractItem | PassSafe(t, c.valid) ensures PassSafe(ContractMergeFn(c)(t, x), c.valid) {
      ContractMergeSafe(c, t, x);
    }
    FoldKeeps(ContractMergeFn(c), (t: Db) => PassSafe(t, c.valid), d, UntilFirst(items, ContractStaleFn(c.fromIso, cutoff)));
  }

  /** When the upstream echoes ids, one BIN's sync leaves the store referentially safe, raised or not. */
  lemma BinSyncedSafe(d: Db, bin: string, fromIso: string -> Option<DateTime>, cutoff: DateTime, f: SyncFeeds,
                      annOf: AnnOracle, lotsOf: LotsOracle)
    requires SafeDb(d) && Coherent(d) && Echoes(annOf)
    ensures SafeDb(BinSynced(d, bin, fromIso, cutoff, f, annOf, lotsOf).db)
    ensures Coherent(BinSynced(d, bin, fromIso, cutoff, f, annOf, lotsOf).db)
  {
    var d0 := WithSubject(d, bin, None, true, false);
    var existingPlans := PlansOf(d0.live, bin);
    var ps := PlansSynced(d0, bin, fromIso, cutoff, existingPlans, f.plans.items);
    PlanPhaseSafe(d, bin, fromIso, cutoff, f.plans.items);
    var c := Pass(bin, fromIso, ContractsOf(d0.live, bin), d0.live.units.Keys, ps.valid, annOf, lotsOf, f.unitsOf);
    ContractPhaseSafe(c, ps.db.Commit(), cutoff, f.contracts.items);
  }

  /** The subject upsert and the plan pass keep the session safe, and the plans kept valid are committed. */
  lemma PlanPhaseSafe(d: Db, bin: string, fromIso: string -> Option<DateTime>, cutoff: DateTime, items: seq<PlanItem>)
    requires SafeDb(d) && Coherent(d)
    ensures var d0 := WithSubject(d, bin, None, true, false);
      var ps := PlansSynced(d0, bin, fromIso, cutoff, PlansOf(d0.live, bin), items);
      SafeDb(ps.db) && Coherent(ps.db) && PassSafe(ps.db.Commit(), ps.valid)
  {
    var d0 := WithSubject(d, bin, None, true, false);
    WithSubjectSafe(d, bin, None, true, false);
    var existingPlans := PlansOf(d0.live, bin);
    PlanPassSafe(d0, bin, fromIso, cutoff, existingPlans, items);
    PlanPassValid(d0, bin, fromIso, cutoff, existingPlans, items);
    var ps := PlansSynced(d0, bin, fromIso, cutoff, existingPlans, items);
    CommitKeepsSafe(ps.db);
  }

  /** The contract pass keeps the session safe, before and after its commit. */
  lemma ContractPhaseSafe(c: Pass, d: Db, cutoff: DateTime, items: seq<ContractItem>)
    requires PassSafe(d, c.valid) && Echoes(c.annOf)
    ensures var d2 := ContractsSynced(c, d, cutoff, items);
      SafeDb(d2) && Coherent(d2) && SafeDb(d2.Commit()) && Coherent(d2.Commit())
  {
    ContractPassSafe(c, d, cutoff, items);
    CommitKeepsSafe(ContractsSynced(c, d, cutoff, items));
  }


  lemma {:induction false} BinsSyncedSafe(d: Db, fromIso: string -> Option<DateTime>, cutoff: DateTime,
                                          feeds: string -> SyncFeeds, annOf: AnnOracle, lotsOf: LotsOracle,
                                          bins: seq<string>)
    requires SafeDb(d) && Coherent(d) && Echoes(annOf)
    ensures SafeDb(BinsSynced(d, fromIso, cutoff, feeds, annOf, lotsOf, bins).db)
    ensures Coherent(BinsSynced(d, fromIso, cutoff, feeds, annOf, lotsOf, bins).db)
    decreases |bins|
  {
    if bins != [] {
      var init := bins[..|bins| - 1];
      BinsSyncedSafe(d, fromIso, cutoff, feeds, annOf, lotsOf, init);
      var p := BinsSynced(d, fromIso, cutoff, feeds, annOf, lotsOf, init);
      if !p.raised {
        BinSyncedSafe(p.db, bins[|bins| - 1], fromIso, cutoff, feeds(bins[|bins| - 1]), annOf, lotsOf);
      }
    }
  }

  /** When the upstream echoes ids, the daily run leaves a safe store safe. */
  lemma DailySafe(d: Db, fromIso: string -> Option<DateTime>, cutoff: DateTime, feeds: string -> SyncFeeds,
                  annOf: AnnOracle, lotsOf: LotsOracle, ids: seq<int>)
    requires SafeDb(d) && Coherent(d) && Echoes(annOf)
    ensures SafeDb(DailySynced(d, fromIso, cutoff, feeds, annOf, lotsOf, ids))
  {
    BinsSyncedSafe(d, fromIso, cutoff, feeds, annOf, lotsOf, TargetBins);
    var r := BinsSynced(d, fromIso, cutoff, feeds, annOf, lotsOf, TargetBins);
    if !r.raised {
      BackfillSafe(r.db, annOf, lotsOf, ids);
    }
  }
}
