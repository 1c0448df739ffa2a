/**
 * The full annual-plan load (src/etl/load_plans.py): per BIN every plan of
 * the feed is inserted when its id is absent, with a commit after every
 * 100th insertion and at the end of the BIN.
 */
module LoadPlans {
  import opened Wrappers
  import opened Text
  import opened Dates
  import opened Models
  import opened Store
  import opened Client
  import opened Upstream
  import opened Folds
  import opened Inserts
  import opened LoadHistorical

  /** `ALL_BINS`: the same 27 customer BINs as the historical loader's list. */
  const AllBins: seq<string> := TargetBins

  const CommitEvery := 100

  /** The row this loader writes: the record's own `subject_biin`, no unit code, the strict approval date. */
  function LoadedPlanRow(x: PlanItem): PlanPoint {
    PlanPoint(x.id, x.subjectBiin, x.enstruCode, None, x.price, x.count, x.amount, StrictDate(x.dateApproved),
              FirstKato(x.kato))
  }

  const PlanKey: PlanItem -> Option<int> := (x: PlanItem) => Some(x.id)
  const PlanRowOf: PlanItem -> PlanPoint := (x: PlanItem) => LoadedPlanRow(x)

  /**
   * One plan: nothing once an exception escaped; a malformed approval date
   * raises (it is parsed before the existence check); an absent id is
   * inserted and counted, and every 100th insertion is committed.
   */
  function PlanAdd(st: Count, x: PlanItem): (r: Count)
    ensures st.raised ==> r == st
    ensures !st.raised && BadDate(x.dateApproved) ==> r == st.(raised := true)
    ensures !st.raised && !BadDate(x.dateApproved) && x.id in st.db.live.plans ==> r == st
    ensures !st.raised && !BadDate(x.dateApproved) && x.id !in st.db.live.plans ==>
      r.db.live == st.db.live.PutPlan(LoadedPlanRow(x)) && r.added == st.added + 1 && !r.raised
  {
    if st.raised then st
    else if BadDate(x.dateApproved) then st.(raised := true)
    else if x.id in st.db.live.plans then st
    else
      var st1 := Count(st.db.Write(st.db.live.PutPlan(LoadedPlanRow(x))), st.added + 1, false);
      if st1.added % CommitEvery == 0 then st1.(db := st1.db.Commit()) else st1
  }

  const PlanAddFn: (Count, PlanItem) -> Count := (st: Count, x: PlanItem) => PlanAdd(st, x)

  /** One BIN: `records_added` starts at zero; the final commit only when nothing escaped. */
  function BinPlansLoaded(d: Db, feed: Stream<PlanItem>): Count {
    var st := FoldL(PlanAddFn, Count(d, 0, false), feed.items);
    if st.raised || feed.raised then st.(raised := true) else st.(db := st.db.Commit())
  }

  /** The BINs in order; the first exception ends the run. */
  function BinsPlansLoaded(d: Db, feeds: string -> Stream<PlanItem>, bins: seq<string>): Run
    decreases |bins|
  {
    if bins == [] then Run(d, false)
    else
      var p := BinsPlansLoaded(d, feeds, bins[..|bins| - 1]);
      if p.raised then p
      else
        var t := BinPlansLoaded(p.db, feeds(bins[|bins| - 1]));
        Run(t.db, t.raised)
  }

  /** The script: all BINs, then the session closed. */
  function PlansScript(d: Db, feeds: string -> Stream<PlanItem>): Db {
    BinsPlansLoaded(d, feeds, AllBins).db.Rollback()
  }

  // ---------------------------------------------------------------- methods

  method LoadPlansForBin(s: Session, feed: Stream<PlanItem>) returns (recordsAdded: nat, raised: bool)
    modifies s
    ensures Count(s.State(), recordsAdded, raised) == BinPlansLoaded(old(s.State()), feed)
  {
    recordsAdded := 0;
    var items := feed.items;
    var start := Count(s.State(), 0, false);
    var i := 0;
    while i < |items|
      invariant i <= |items|
      invariant Count(s.State(), recordsAdded, false) == FoldL(PlanAddFn, start, items[..i])
    {
      FoldLast(PlanAddFn, start, items, i);
      var x := items[i];
      if BadDate(x.dateApproved) {
        PlanRaisedStays(start, items, i + 1);
        return recordsAdded, true;
      }
      recordsAdded := AddPlan(s, x, recordsAdded);
      i := i + 1;
    }
    assert items[..i] == items;
    if feed.raised {
      return recordsAdded, true;
    }
    s.Commit();
    raised := false;
  }

  /** One plan with a well-formed date: inserted and counted when its id is absent, every 100th insertion committed. */
  method AddPlan(s: Session, x: PlanItem, added: nat) returns (added': nat)
    requires !BadDate(x.dateApproved)
    modifies s
    ensures Count(s.State(), added', false) == PlanAdd(Count(old(s.State()), added, false), x)
  {
    added' := added;
    if x.id !in s.live.plans {
      s.Write(s.live.PutPlan(LoadedPlanRow(x)));
      added' := added + 1;
      if added' % CommitEvery == 0 {
        s.Commit();
      }
    }
  }

  method LoadAnnualPlans(s: Session, feeds: string -> Stream<PlanItem>, bins: seq<string>) returns (raised: bool)
    modifies s
    ensures Run(s.State(), raised) == BinsPlansLoaded(old(s.State()), feeds, bins)
  {
    var i := 0;
    while i < |bins|
      invariant i <= |bins|
      invariant BinsPlansLoaded(old(s.State()), feeds, bins[..i]) == Run(s.State(), false)
    {
      assert bins[..i + 1][..i] == bins[..i];
      var _, r := LoadPlansForBin(s, feeds(bins[i]));
      if r {
        BinsRaisedStays(old(s.State()), feeds, bins, i + 1);
        return true;
      }
      i := i + 1;
    }
    assert bins[..i] == bins;
    return false;
  }

  method RunPlans(s: Session, feeds: string -> Stream<PlanItem>)
    modifies s
    ensures s.State() == PlansScript(old(s.State()), feeds)
  {
    var _ := LoadAnnualPlans(s, feeds, AllBins);
    s.Rollback();
  }

  lemma {:induction false} PlanRaisedStays(st: Count, items: seq<PlanItem>, n: nat)
    requires n <= |items| && FoldL(PlanAddFn, st, items[..n]).raised
    ensures FoldL(PlanAddFn, st, items) == FoldL(PlanAddFn, st, items[..n])
    decreases |items| - n
  {
    if n < |items| {
      assert items[..n + 1][..n] == items[..n];
      FoldLast(PlanAddFn, st, items, n);
      PlanRaisedStays(st, items, n + 1);
    } else {
      assert items[..n] == items;
    }
  }

  lemma {:induction false} BinsRaisedStays(d: Db, feeds: string -> Stream<PlanItem>, bins: seq<string>, n: nat)
    requires n <= |bins| && BinsPlansLoaded(d, feeds, bins[..n]).raised
    ensures BinsPlansLoaded(d, feeds, bins) == BinsPlansLoaded(d, feeds, bins[..n])
    decreases |bins| - n
  {
    if n < |bins| {
      assert bins[..n + 1][..n] == bins[..n];
      BinsRaisedStays(d, feeds, bins, n + 1);
    } else {
      assert bins[..n] == bins;
    }
  }

  // ------------------------------------------------------------- properties

  /**
   * Without an exception the plans table is the insert-if-absent of the
   * feed, nothing else changes, and `records_added` is the number of plans
   * it inserted.
   */
  lemma {:induction false} PlansAreInserts(d: Db, xs: seq<PlanItem>)
    requires !FoldL(PlanAddFn, Count(d, 0, false), xs).raised
    ensures var r := FoldL(PlanAddFn, Count(d, 0, false), xs);
      && r.db.live == d.live.(plans := InsertNew(d.live.plans, xs, PlanKey, PlanRowOf))
      && |InsertNew(d.live.plans, xs, PlanKey, PlanRowOf)| == |d.live.plans| + r.added
    decreases |xs|
  {
    if xs != [] {
      var init := xs[..|xs| - 1];
      var x := xs[|xs| - 1];
      PlansAreInserts(d, init);
    }
  }

  /** The committed plans are among the pending ones, and the pending surplus is the count since the last commit. */
  predicate PendingSinceCommit(st: Count) {
    && st.db.durable.plans.Keys <= st.db.live.plans.Keys
    && |st.db.live.plans| == |st.db.durable.plans| + st.added % CommitEvery
  }

  lemma PlanAddPending(st: Count, x: PlanItem)
    requires PendingSinceCommit(st)
    ensures PendingSinceCommit(PlanAdd(st, x))
  {
    if !st.raised && !BadDate(x.dateApproved) && x.id !in st.db.live.plans {
      var st1 := Count(st.db.Write(st.db.live.PutPlan(LoadedPlanRow(x))), st.added + 1, false);
      assert |st1.db.live.plans| == |st.db.live.plans| + 1;
      if st1.added % CommitEvery != 0 {
        ModNextBelow(st.added, CommitEvery);
        assert PlanAdd(st, x) == st1;
      }
    }
  }

  /** Between commits at most 99 plans are pending. */
  lemma PlansPendingBelowBatch(d: Db, xs: seq<PlanItem>)
    requires d.live.plans == d.durable.plans
    ensures var r := FoldL(PlanAddFn, Count(d, 0, false), xs);
      && r.db.durable.plans.Keys <= r.db.live.plans.Keys
      && |r.db.live.plans| == |r.db.durable.plans| + r.added % CommitEvery
  {
    forall st: Count, x: PlanItem | PendingSinceCommit(st) ensures PendingSinceCommit(PlanAddFn(st, x)) {
      PlanAddPending(st, x);
    }
    FoldKeeps(PlanAddFn, PendingSinceCommit, Count(d, 0, false), xs);
  }

  /** After a BIN without an exception every plan of its feed is stored, and plans stored before are untouched. */
  lemma BinPlansComplete(d: Db, feed: Stream<PlanItem>)
    requires !BinPlansLoaded(d, feed).raised
    ensures forall x :: x in feed.items ==> x.id in BinPlansLoaded(d, feed).db.live.plans
    ensures forall k :: k in d.live.plans ==>
      (k in BinPlansLoaded(d, feed).db.live.plans && BinPlansLoaded(d, feed).db.live.plans[k] == d.live.plans[k])
  {
    PlansAreInserts(d, feed.items);
    forall x | x in feed.items ensures x.id in BinPlansLoaded(d, feed).db.live.plans {
      var i :| 0 <= i < |feed.items| && feed.items[i] == x;
      assert PlanKey(feed.items[i]) == Some(x.id);
      InsertNewKeys(d.live.plans, feed.items, PlanKey, PlanRowOf, x.id);
    }
    forall k | k in d.live.plans ensures k in BinPlansLoaded(d, feed).db.live.plans
      && BinPlansLoaded(d, feed).db.live.plans[k] == d.live.plans[k]
    {
      InsertNewKeeps(d.live.plans, feed.items, PlanKey, PlanRowOf, k);
    }
  }

  /**
   * A new plan is stored as its first record in the feed: its KATO code is
   * that record's first `kato` entry, its BIN the record's own `subject_biin`.
   */
  lemma BinPlansFirstRecord(d: Db, feed: Stream<PlanItem>, i: nat)
    requires !BinPlansLoaded(d, feed).raised
    requires i < |feed.items| && feed.items[i].id !in d.live.plans
    requires forall j :: 0 <= j < i ==> feed.items[j].id != feed.items[i].id
    ensures var x := feed.items[i]; var t := BinPlansLoaded(d, feed).db.live;
      && x.id in t.plans && t.plans[x.id].subjectBiin == x.subjectBiin
      && t.plans[x.id].katoCode == (if x.kato == [] then None else x.kato[0].refKatoCode)
      && t.plans[x.id] == LoadedPlanRow(x)
  {
    PlansAreInserts(d, feed.items);
    forall j | 0 <= j < i ensures PlanKey(feed.items[j]) != PlanKey(feed.items[i]) {
    }
    InsertNewFirst(d.live.plans, feed.items, PlanKey, PlanRowOf, i);
  }

  /** Running a BIN again right after a clean run inserts nothing. */
  lemma BinPlansReloadAddsNothing(d: Db, feed: Stream<PlanItem>)
    requires !BinPlansLoaded(d, feed).raised
    ensures var r := BinPlansLoaded(d, feed); var r2 := BinPlansLoaded(r.db, feed);
      !r2.raised && r2.added == 0 && r2.db.live == r.db.live
  {
    var r := BinPlansLoaded(d, feed);
    PlansAreInserts(d, feed.items);
    PlansNeverRaise(Count(d, 0, false), Count(r.db, 0, false), feed.items);
    PlansAreInserts(r.db, feed.items);
    InsertNewIdempotent(d.live.plans, feed.items, PlanKey, PlanRowOf);
  }

  /** Whether a feed raises depends only on its approval dates, not on the store. */
  lemma {:induction false} PlansNeverRaise(st: Count, st2: Count, xs: seq<PlanItem>)
    requires !st.raised && !st2.raised && !FoldL(PlanAddFn, st, xs).raised
    ensures !FoldL(PlanAddFn, st2, xs).raised
    decreases |xs|
  {
    if xs != [] {
      var init := xs[..|xs| - 1];
      PlansNeverRaise(st, st2, init);
    }
  }

  /** The load keeps a safe store safe: plans reference nothing. */
  lemma BinPlansSafe(d: Db, feed: Stream<PlanItem>)
    requires SafeDb(d)
    ensures SafeDb(BinPlansLoaded(d, feed).db)
  {
    forall st: Count, x: PlanItem | SafeDb(st.db) ensures SafeDb(PlanAddFn(st, x).db) {
      PlanAddSafe(st, x);
    }
    FoldKeeps(PlanAddFn, (st: Count) => SafeDb(st.db), Count(d, 0, false), feed.items);
  }

  lemma PlanAddSafe(st: Count, x: PlanItem)
    requires SafeDb(st.db)
    ensures SafeDb(PlanAdd(st, x).db)
  {
    PutPlanSafe(st.db.live, LoadedPlanRow(x));
  }

}
