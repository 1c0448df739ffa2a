/**
 * The referential backfill (src/etl/enrich_missing_announcements.py):
 * fetching an announcement that contracts reference but the store lacks,
 * with its lots, either on demand (`ensure_announcement`) or for every such
 * identifier at once (`backfill_announcements`).
 */
module EnrichMissingAnnouncements {
  import opened Wrappers
  import opened Text
  import opened Dates
  import opened Models
  import opened Store
  import opened Client
  import opened Upstream
  import opened Folds

  /** The single-record endpoint `/v3/trd-buy/{id}` and the lot list `/v3/lots/trd-buy/{id}`. */
  type AnnOracle = int -> Outcome<RecordBody<AnnItem>>
  type LotsOracle = int -> Outcome<Body<LotItem>>

  /**
   * This module's `upsert_subject(db, bin)`: a bare subject (BIN only, no
   * flags), committed at once, for a truthy BIN not yet stored.
   */
  function WithBareSubject(d: Db, bin: Option<string>): (r: Db)
    ensures !Truthy(bin) || bin.value in d.live.subjects ==> r == d
    ensures Truthy(bin) && bin.value !in d.live.subjects ==>
      r == d.Write(d.live.PutSubject(Subject(bin.value, None, None, false, false))).Commit()
    ensures Truthy(bin) ==> bin.value in r.live.subjects
    ensures Grows(d.live, r.live) && (Coherent(d) ==> Coherent(r) && Grows(d.durable, r.durable))
    ensures r.live.announcements == d.live.announcements && r.live.contracts == d.live.contracts
  {
    if Truthy(bin) && bin.value !in d.live.subjects
    then d.Write(d.live.PutSubject(Subject(bin.value, None, None, false, false))).Commit()
    else d
  }

  method UpsertBareSubject(s: Session, bin: Option<string>)
    modifies s
    ensures s.State() == WithBareSubject(old(s.State()), bin)
  {
    if !Truthy(bin) {
      return;
    }
    if bin.value !in s.live.subjects {
      s.Write(s.live.PutSubject(Subject(bin.value, None, None, false, false)));
      s.Commit();
    }
  }

  function BackfillAnnRow(x: AnnItem): Announcement {
    Announcement(x.id, x.numberAnno, x.nameRu, x.orgBin, x.totalSum, ParseDateBackfill(x.publishDate),
                 ParseDateBackfill(x.startDate), ParseDateBackfill(x.endDate), x.buyStatus)
  }

  function BackfillLotRow(l: LotItem, trd: int): Lot {
    Lot(l.id, trd, l.lotNumber, l.nameRu, l.amount, l.count, l.customerBin, l.lotStatus)
  }

  /** One lot of a fetched announcement: its customer upserted, then the lot merged under the requested id. */
  function LotMerge(trd: int, d: Db, l: LotItem): (r: Db)
    ensures r.live.lots == d.live.lots[l.id := BackfillLotRow(l, trd)]
    ensures Truthy(l.customerBin) ==> l.customerBin.value in r.live.subjects
    ensures Grows(d.live, r.live) && (Coherent(d) ==> Coherent(r) && Grows(d.durable, r.durable))
    ensures r.live.announcements == d.live.announcements && r.live.contracts == d.live.contracts
  {
    var d1 := WithBareSubject(d, l.customerBin);
    d1.Write(d1.live.PutLot(BackfillLotRow(l, trd)))
  }

  function LotMergeFn(trd: int): (Db, LotItem) -> Db {
    (d, l) => LotMerge(trd, d, l)
  }

  /** Merging the lots only adds rows, and touches neither announcements nor contracts. */
  lemma LotsMergeGrows(trd: int, d: Db, lots: seq<LotItem>)
    ensures var r := FoldL(LotMergeFn(trd), d, lots);
      && Grows(d.live, r.live) && (Coherent(d) ==> Coherent(r) && Grows(d.durable, r.durable))
      && r.live.announcements == d.live.announcements && r.live.contracts == d.live.contracts
  {
    var inv := (t: Db) =>
      && Grows(d.live, t.live) && (Coherent(d) ==> Coherent(t) && Grows(d.durable, t.durable))
      && t.live.announcements == d.live.announcements && t.live.contracts == d.live.contracts;
    FoldKeeps(LotMergeFn(trd), inv, d, lots);
  }

  /** How one fetch-and-merge ended: committed, refused (no record with an id), or an exception. */
  datatype Fetch = Merged | Invalid | Error

  datatype Attempt = Attempt(db: Db, result: Fetch)

  /**
   * The shared body of both entry points: fetch the record, upsert its
   * organiser, merge it, fetch and merge its lots, commit. A failed request
   * rolls back to the last commit (subjects committed on the way stay); a
   * body without a record is refused without a rollback.
   */
  function FetchAndMerge(d: Db, trd: int, annOf: AnnOracle, lotsOf: LotsOracle): (r: Attempt)
    ensures r.result == Error <==>
      annOf(trd).Failed? || (FirstRecord(annOf(trd).body).Some? && lotsOf(trd).Failed?)
    ensures r.result == Invalid <==> annOf(trd).Ok? && FirstRecord(annOf(trd).body).None?
    ensures r.result == Invalid ==> r.db == d
    ensures r.result != Invalid ==> r.db.live == r.db.durable
    ensures r.result == Merged ==> Grows(d.live, r.db.live) && r.db.live.contracts == d.live.contracts
    ensures Coherent(d) ==> Coherent(r.db) && Grows(d.durable, r.db.durable)
  {
    match annOf(trd)
    case Failed(_) => Attempt(d.Rollback(), Error)
    case Ok(body) =>
      match FirstRecord(body)
      case None => Attempt(d, Invalid)
      case Some(item) =>
        var d1 := WithBareSubject(d, item.orgBin);
        var d2 := d1.Write(d1.live.PutAnnouncement(BackfillAnnRow(item)));
        match lotsOf(trd)
        case Failed(_) => Attempt(d2.Rollback(), Error)
        case Ok(lb) =>
          LotsMergeGrows(trd, d2, PageItems(lb));
          Attempt(FoldL(LotMergeFn(trd), d2, PageItems(lb)).Commit(), Merged)
  }

  method MergeLots(s: Session, trd: int, lots: seq<LotItem>)
    modifies s
    ensures s.State() == FoldL(LotMergeFn(trd), old(s.State()), lots)
  {
    var j := 0;
    while j < |lots|
      invariant j <= |lots|
      invariant s.State() == FoldL(LotMergeFn(trd), old(s.State()), lots[..j])
    {
      FoldLast(LotMergeFn(trd), old(s.State()), lots, j);
      var l := lots[j];
      UpsertBareSubject(s, l.customerBin);
      s.Write(s.live.PutLot(BackfillLotRow(l, trd)));
      j := j + 1;
    }
    assert lots[..j] == lots;
  }

  method MergeRemote(s: Session, trd: int, annOf: AnnOracle, lotsOf: LotsOracle) returns (result: Fetch)
    modifies s
    ensures Attempt(s.State(), result) == FetchAndMerge(old(s.State()), trd, annOf, lotsOf)
  {
    var reply := annOf(trd);
    if reply.Failed? {
      s.Rollback();
      return Error;
    }
    var item := FirstRecord(reply.body);
    if item.None? {
      return Invalid;
    }
    UpsertBareSubject(s, item.value.orgBin);
    s.Write(s.live.PutAnnouncement(BackfillAnnRow(item.value)));
    var lotsReply := lotsOf(trd);
    if lotsReply.Failed? {
      s.Rollback();
      return Error;
    }
    MergeLots(s, trd, PageItems(lotsReply.body));
    s.Commit();
    return Merged;
  }

  // ------------------------------------------------------ ensure_announcement

  datatype Ensured = Ensured(db: Db, ok: bool)

  /**
   * `ensure_announcement`: true without any request for a falsy id or a
   * stored announcement; otherwise true exactly when the fetch-and-merge
   * committed. It never raises.
   */
  function AnnouncementEnsured(d: Db, trd: Option<int>, annOf: AnnOracle, lotsOf: LotsOracle): (r: Ensured)
    ensures !TruthyInt(trd) || trd.value in d.live.announcements ==> r == Ensured(d, true)
    ensures TruthyInt(trd) && trd.value !in d.live.announcements ==>
      (r.ok <==> annOf(trd.value).Ok? && FirstRecord(annOf(trd.value).body).Some? && lotsOf(trd.value).Ok?)
    ensures Coherent(d) ==> Coherent(r.db) && Grows(d.durable, r.db.durable)
  {
    if !TruthyInt(trd) || trd.value in d.live.announcements then Ensured(d, true)
    else
      var a := FetchAndMerge(d, trd.value, annOf, lotsOf);
      Ensured(a.db, a.result == Merged)
  }

  method EnsureAnnouncement(s: Session, trd: Option<int>, annOf: AnnOracle, lotsOf: LotsOracle) returns (ok: bool)
    modifies s
    ensures Ensured(s.State(), ok) == AnnouncementEnsured(old(s.State()), trd, annOf, lotsOf)
  {
    if !TruthyInt(trd) {
      return true;
    }
    if trd.value in s.live.announcements {
      return true;
    }
    var result := MergeRemote(s, trd.value, annOf, lotsOf);
    return result == Merged;
  }

  // --------------------------------------------------- backfill_announcements

  /** The distinct non-null contract announcement ids with no announcement row. */
  function MissingIds(t: Tables): (r: set<int>)
    ensures forall n :: n in r <==>
      n !in t.announcements && exists k :: k in t.contracts && t.contracts[k].trdBuyId == Some(n)
  {
    set k | k in t.contracts && t.contracts[k].trdBuyId.Some? && t.contracts[k].trdBuyId.value !in t.announcements
      :: t.contracts[k].trdBuyId.value
  }

  /** The sweep's state: the store and how many ids were committed. */
  datatype Sweep = Sweep(db: Db, added: nat)

  /** One id of the sweep: any failure is caught and the sweep moves on; only a commit counts. */
  function BackfillStep(annOf: AnnOracle, lotsOf: LotsOracle, st: Sweep, trd: int): Sweep {
    var a := FetchAndMerge(st.db, trd, annOf, lotsOf);
    Sweep(a.db, st.added + if a.result == Merged then 1 else 0)
  }

  function BackfillStepFn(annOf: AnnOracle, lotsOf: LotsOracle): (Sweep, int) -> Sweep {
    (st, trd) => BackfillStep(annOf, lotsOf, st, trd)
  }

  /** `backfill_announcements` over the ids the query returned, in the order it returned them. */
  function Backfilled(d: Db, annOf: AnnOracle, lotsOf: LotsOracle, ids: seq<int>): Sweep {
    FoldL(BackfillStepFn(annOf, lotsOf), Sweep(d, 0), ids)
  }

  method BackfillAnnouncements(s: Session, annOf: AnnOracle, lotsOf: LotsOracle, ids: seq<int>)
    returns (added: nat)
    modifies s
    ensures Sweep(s.State(), added) == Backfilled(old(s.State()), annOf, lotsOf, ids)
  {
    added := 0;
    if |ids| == 0 {
      return;
    }
    var i := 0;
    while i < |ids|
      invariant i <= |ids|
      invariant Sweep(s.State(), added) == FoldL(BackfillStepFn(annOf, lotsOf), Sweep(old(s.State()), 0), ids[..i])
    {
      FoldLast(BackfillStepFn(annOf, lotsOf), Sweep(old(s.State()), 0), ids, i);
      var result := MergeRemote(s, ids[i], annOf, lotsOf);
      if result == Merged {
        added := added + 1;
      }
      i := i + 1;
    }
    assert ids[..i] == ids;
  }

  // ------------------------------------------------------------- properties

  /** The upstream answers a request for announcement `n` with announcement `n`. */
  ghost predicate Echoes(annOf: AnnOracle) {
    forall n :: annOf(n).Ok? && FirstRecord(annOf(n).body).Some? ==> FirstRecord(annOf(n).body).value.id == n
  }

  /** Both requests for `n` succeed and the first reply holds a record: the fetch commits. */
  predicate Fetches(annOf: AnnOracle, lotsOf: LotsOracle, n: int) {
    annOf(n).Ok? && FirstRecord(annOf(n).body).Some? && lotsOf(n).Ok?
  }

  /** Both requests for `n` succeed and the record is announcement `n`. */
  predicate Answers(annOf: AnnOracle, lotsOf: LotsOracle, n: int) {
    && annOf(n).Ok? && FirstRecord(annOf(n).body).Some? && FirstRecord(annOf(n).body).value.id == n
    && lotsOf(n).Ok?
  }

  /**
   * What a successful `ensure_announcement` leaves pending depends only on
   * the pending state it started from, not on what was committed before.
   */
  lemma EnsuredLiveAgrees(d: Db, d': Db, trd: Option<int>, annOf: AnnOracle, lotsOf: LotsOracle)
    requires d.live == d'.live
    ensures AnnouncementEnsured(d, trd, annOf, lotsOf).ok == AnnouncementEnsured(d', trd, annOf, lotsOf).ok
    ensures AnnouncementEnsured(d, trd, annOf, lotsOf).ok ==>
      AnnouncementEnsured(d, trd, annOf, lotsOf).db.live == AnnouncementEnsured(d', trd, annOf, lotsOf).db.live
  {
    if TruthyInt(trd) && trd.value !in d.live.announcements && Fetches(annOf, lotsOf, trd.value) {
      var n := trd.value;
      var item := FirstRecord(annOf(n).body).value;
      var d1, d1' := WithBareSubject(d, item.orgBin), WithBareSubject(d', item.orgBin);
      var d2 := d1.Write(d1.live.PutAnnouncement(BackfillAnnRow(item)));
      var d2' := d1'.Write(d1'.live.PutAnnouncement(BackfillAnnRow(item)));
      FoldAgree(LotMergeFn(n), LotMergeFn(n), (a: Db, b: Db) => a.live == b.live, (l: LotItem) => true,
                d2, d2', PageItems(lotsOf(n).body));
    }
  }

  /** A lot merged under `trd`, with its customer stored when it has one. */
  predicate LotStored(trd: int, d: Db, l: LotItem) {
    && l.id in d.live.lots && d.live.lots[l.id].trdBuyId == trd
    && (Truthy(l.customerBin) ==> l.customerBin.value in d.live.subjects)
  }

  function LotStoredFn(trd: int): (Db, LotItem) -> bool {
    (d, l) => LotStored(trd, d, l)
  }

  /**
   * A committed fetch stores the record under its own id, its organiser,
   * and every lot of the reply under the requested id with its customer.
   */
  lemma MergedStoresAll(d: Db, trd: int, annOf: AnnOracle, lotsOf: LotsOracle)
    requires FetchAndMerge(d, trd, annOf, lotsOf).result == Merged
    ensures var r := FetchAndMerge(d, trd, annOf, lotsOf).db;
      var item := FirstRecord(annOf(trd).body).value;
      && item.id in r.live.announcements && r.live.announcements[item.id] == BackfillAnnRow(item)
      && (Truthy(item.orgBin) ==> item.orgBin.value in r.live.subjects)
      && (forall l :: l in PageItems(lotsOf(trd).body) ==> LotStored(trd, r, l))
  {
    var item := FirstRecord(annOf(trd).body).value;
    var d1 := WithBareSubject(d, item.orgBin);
    var d2 := d1.Write(d1.live.PutAnnouncement(BackfillAnnRow(item)));
    var lots := PageItems(lotsOf(trd).body);
    LotsMergeGrows(trd, d2, lots);
    FoldSettles(LotMergeFn(trd), LotStoredFn(trd), d2, lots);
  }

  /** When the upstream echoes ids, a successful `ensure_announcement` leaves the announcement stored. */
  lemma EnsuredMeansPresent(d: Db, trd: Option<int>, annOf: AnnOracle, lotsOf: LotsOracle)
    requires Echoes(annOf) && TruthyInt(trd) && AnnouncementEnsured(d, trd, annOf, lotsOf).ok
    ensures trd.value in AnnouncementEnsured(d, trd, annOf, lotsOf).db.live.announcements
  {
    if trd.value !in d.live.announcements {
      MergedStoresAll(d, trd.value, annOf, lotsOf);
    }
  }

  lemma LotMergeSafe(trd: int, d: Db, l: LotItem)
    requires SafeDb(d) && trd in d.live.announcements
    ensures SafeDb(LotMerge(trd, d, l)) && trd in LotMerge(trd, d, l).live.announcements
  {
    if Truthy(l.customerBin) {
      PutSubjectSafe(d.live, Subject(l.customerBin.value, None, None, false, false));
    }
    var d1 := WithBareSubject(d, l.customerBin);
    PutLotSafe(d1.live, BackfillLotRow(l, trd));
  }

  /** When the upstream echoes ids, a fetch-and-merge keeps the store referentially safe. */
  lemma FetchSafe(d: Db, trd: int, annOf: AnnOracle, lotsOf: LotsOracle)
    requires SafeDb(d) && Echoes(annOf)
    ensures SafeDb(FetchAndMerge(d, trd, annOf, lotsOf).db)
  {
    if annOf(trd).Ok? && FirstRecord(annOf(trd).body).Some? {
      var item := FirstRecord(annOf(trd).body).value;
      if Truthy(item.orgBin) {
        PutSubjectSafe(d.live, Subject(item.orgBin.value, None, None, false, false));
      }
      var d1 := WithBareSubject(d, item.orgBin);
      PutAnnouncementSafe(d1.live, BackfillAnnRow(item));
      var d2 := d1.Write(d1.live.PutAnnouncement(BackfillAnnRow(item)));
      if lotsOf(trd).Ok? {
        LotPassSafe(trd, d2, PageItems(lotsOf(trd).body));
      }
    }
  }

  /** The lots of a stored announcement keep the session safe. */
  lemma LotPassSafe(trd: int, d: Db, items: seq<LotItem>)
    requires SafeDb(d) && trd in d.live.announcements
    ensures SafeDb(FoldL(LotMergeFn(trd), d, items))
  {
    forall t, l | SafeDb(t) && trd in t.live.announcements
      ensures SafeDb(LotMergeFn(trd)(t, l)) && trd in LotMergeFn(trd)(t, l).live.announcements
    {
      LotMergeSafe(trd, t, l);
    }
    FoldKeeps(LotMergeFn(trd), (t: Db) => SafeDb(t) && trd in t.live.announcements, d, items);
  }


  lemma EnsuredSafe(d: Db, trd: Option<int>, annOf: AnnOracle, lotsOf: LotsOracle)
    requires SafeDb(d) && Echoes(annOf)
    ensures SafeDb(AnnouncementEnsured(d, trd, annOf, lotsOf).db)
  {
    if TruthyInt(trd) && trd.value !in d.live.announcements {
      FetchSafe(d, trd.value, annOf, lotsOf);
    }
  }

  /**
   * The sweep counts at most one per id, each counted id was committed, and
   * when every request is answered every id is counted.
   */
  lemma {:induction false} BackfillCounts(d: Db, annOf: AnnOracle, lotsOf: LotsOracle, ids: seq<int>)
    ensures Backfilled(d, annOf, lotsOf, ids).added <= |ids|
    ensures Backfilled(d, annOf, lotsOf, ids).db.commits >= d.commits + Backfilled(d, annOf, lotsOf, ids).added
    ensures (forall n :: n in ids ==> Answers(annOf, lotsOf, n)) ==> Backfilled(d, annOf, lotsOf, ids).added == |ids|
    decreases |ids|
  {
    if ids != [] {
      var init := ids[..|ids| - 1];
      BackfillCounts(d, annOf, lotsOf, init);
      var st := Backfilled(d, annOf, lotsOf, init);
      var trd := ids[|ids| - 1];
      var a := FetchAndMerge(st.db, trd, annOf, lotsOf);
      assert a.result == Merged ==> a.db.commits >= st.db.commits + 1 by {
        if a.result == Merged {
          var item := FirstRecord(annOf(trd).body).value;
          var d1 := WithBareSubject(st.db, item.orgBin);
          var d2 := d1.Write(d1.live.PutAnnouncement(BackfillAnnRow(item)));
          FoldCommitsGrow(trd, d2, PageItems(lotsOf(trd).body));
        }
      }
      forall n | n in init ensures n in ids {
      }
      if forall n :: n in ids ==> Answers(annOf, lotsOf, n) {
        assert Answers(annOf, lotsOf, trd);
      }
    }
  }

  lemma {:induction false} FoldCommitsGrow(trd: int, d: Db, lots: seq<LotItem>)
    ensures FoldL(LotMergeFn(trd), d, lots).commits >= d.commits
    decreases |lots|
  {
    if lots != [] {
      FoldCommitsGrow(trd, d, lots[..|lots| - 1]);
    }
  }

  /**
   * When every request is answered, a sweep over (at least) the missing ids
   * leaves no contract pointing at a missing announcement.
   */
  lemma BackfillCloses(d: Db, annOf: AnnOracle, lotsOf: LotsOracle, ids: seq<int>)
    requires forall n :: Answers(annOf, lotsOf, n)
    requires forall n :: n in MissingIds(d.live) ==> n in ids
    ensures MissingIds(Backfilled(d, annOf, lotsOf, ids).db.live) == {}
  {
    var step := BackfillStepFn(annOf, lotsOf);
    var settled := (st: Sweep, n: int) => n in st.db.live.announcements;
    forall t: Sweep, n: int ensures settled(step(t, n), n) {
      assert Answers(annOf, lotsOf, n);
      MergedStoresAll(t.db, n, annOf, lotsOf);
    }
    forall t: Sweep, n: int ensures Grows(t.db.live, step(t, n).db.live) && step(t, n).db.live.contracts == t.db.live.contracts {
      assert Answers(annOf, lotsOf, n);
    }
    FoldSettles(step, settled, Sweep(d, 0), ids);
    var inv := (st: Sweep) => st.db.live.contracts == d.live.contracts && Grows(d.live, st.db.live);
    FoldKeeps(step, inv, Sweep(d, 0), ids);
    var r := Backfilled(d, annOf, lotsOf, ids).db;
    forall k | k in r.live.contracts && r.live.contracts[k].trdBuyId.Some?
      ensures r.live.contracts[k].trdBuyId.value in r.live.announcements
    {
      var n := r.live.contracts[k].trdBuyId.value;
      assert n in MissingIds(d.live) || n in d.live.announcements;
    }
  }

  /**
   * Why the safety lemmas assume `Echoes`: a reply for `n` that carries
   * another announcement stores that one, while the lots go under `n`, which
   * stays missing, so a lot references an absent announcement.
   */
  lemma NonEchoLeavesDanglingLot(d: Db, n: int, annOf: AnnOracle, lotsOf: LotsOracle, l: LotItem)
    requires n !in d.live.announcements
    requires Fetches(annOf, lotsOf, n) && FirstRecord(annOf(n).body).value.id != n
    requires l in PageItems(lotsOf(n).body)
    ensures var r := FetchAndMerge(d, n, annOf, lotsOf).db;
      && l.id in r.live.lots && r.live.lots[l.id].trdBuyId == n && n !in r.live.announcements && !Safe(r.live)
  {
    MergedStoresAll(d, n, annOf, lotsOf);
    var item := FirstRecord(annOf(n).body).value;
    var d1 := WithBareSubject(d, item.orgBin);
    var d2 := d1.Write(d1.live.PutAnnouncement(BackfillAnnRow(item)));
    LotsMergeGrows(n, d2, PageItems(lotsOf(n).body));
    var r := FetchAndMerge(d, n, annOf, lotsOf).db;
    assert l.id in r.live.lots && !LotsSafe(r.live);
  }

  /** When the upstream echoes ids, the sweep keeps a safe store safe. */
  lemma BackfillSafe(d: Db, annOf: AnnOracle, lotsOf: LotsOracle, ids: seq<int>)
    requires SafeDb(d) && Echoes(annOf)
    ensures SafeDb(Backfilled(d, annOf, lotsOf, ids).db)
  {
    var step := BackfillStepFn(annOf, lotsOf);
    forall st: Sweep, trd: int | SafeDb(st.db) ensures SafeDb(step(st, trd).db) {
      FetchSafe(st.db, trd, annOf, lotsOf);
    }
    FoldKeeps(step, (st: Sweep) => SafeDb(st.db), Sweep(d, 0), ids);
  }
}
