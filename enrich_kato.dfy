/**
 * The KATO region dictionary load (src/etl/enrich_kato.py): every entry of
 * the feed whose truthy code has not been seen is added, the seen set
 * starting as the stored codes; a commit after every 50th addition and at
 * the end; an exception rolls back and is swallowed.
 */
module EnrichKato {
  import opened Wrappers
  import opened Text
  import opened Models
  import opened Store
  import opened Upstream
  import opened Folds
  import opened Inserts

  const CommitEvery := 50

  /** The row for an entry: the full names, falling back to the short ones (`full or name`). */
  function KatoRow(x: RefItem): RefRow {
    RefRow(x.code.GetOr(""), OrElse(x.fullNameRu, x.nameRu), OrElse(x.fullNameKz, x.nameKz))
  }

  const KatoKey: RefItem -> Option<string> := (x: RefItem) => if Truthy(x.code) then x.code else None
  const KatoRowOf: RefItem -> RefRow := (x: RefItem) => KatoRow(x)

  /** The loop's state: the session, `seen_codes` and `added_count`. */
  datatype KatoRun = KatoRun(db: Db, seen: set<string>, added: nat)

  function KatoAdd(st: KatoRun, x: RefItem): (r: KatoRun)
    ensures KatoKey(x).None? || KatoKey(x).value in st.seen ==> r == st
    ensures KatoKey(x).Some? && KatoKey(x).value !in st.seen ==>
      && r.db.live == st.db.live.PutRefKato(KatoRow(x))
      && r.seen == st.seen + {KatoKey(x).value} && r.added == st.added + 1
  {
    if Truthy(x.code) && x.code.value !in st.seen then
      var st1 := KatoRun(st.db.Write(st.db.live.PutRefKato(KatoRow(x))), st.seen + {x.code.value}, st.added + 1);
      if st1.added % CommitEvery == 0 then st1.(db := st1.db.Commit()) else st1
    else st
  }

  const KatoAddFn: (KatoRun, RefItem) -> KatoRun := (st: KatoRun, x: RefItem) => KatoAdd(st, x)

  /** `load_kato_dictionary`: the loop, then the final commit, or a rollback when the walk raised. */
  function KatoLoaded(d: Db, feed: Stream<RefItem>): Count {
    var st := FoldL(KatoAddFn, KatoRun(d, d.live.refKato.Keys, 0), feed.items);
    if feed.raised then Count(st.db.Rollback(), st.added, true) else Count(st.db.Commit(), st.added, false)
  }

  method LoadKatoDictionary(s: Session, feed: Stream<RefItem>) returns (addedCount: nat)
    modifies s
    ensures Count(s.State(), addedCount, feed.raised) == KatoLoaded(old(s.State()), feed)
  {
    var seenCodes := s.live.refKato.Keys;
    addedCount := 0;
    var start := KatoRun(s.State(), seenCodes, 0);
    var items := feed.items;
    var i := 0;
    while i < |items|
      invariant i <= |items|
      invariant KatoRun(s.State(), seenCodes, addedCount) == FoldL(KatoAddFn, start, items[..i])
    {
      FoldLast(KatoAddFn, start, items, i);
      var code := items[i].code;
      if Truthy(code) && code.value !in seenCodes {
        s.Write(s.live.PutRefKato(KatoRow(items[i])));
        seenCodes := seenCodes + {code.value};
        addedCount := addedCount + 1;
        if addedCount % CommitEvery == 0 {
          s.Commit();
        }
      }
      i := i + 1;
    }
    assert items[..i] == items;
    if feed.raised {
      s.Rollback();
    } else {
      s.Commit();
    }
  }

  // ------------------------------------------------------------- properties

  /**
   * The loop is the insert-if-absent of the feed into the dictionary: the
   * seen set is always the stored codes, nothing else changes, and
   * `added_count` is the number of codes inserted.
   */
  lemma {:induction false} KatoAreInserts(d: Db, xs: seq<RefItem>)
    ensures var r := FoldL(KatoAddFn, KatoRun(d, d.live.refKato.Keys, 0), xs);
      && r.db.live == d.live.(refKato := InsertNew(d.live.refKato, xs, KatoKey, KatoRowOf))
      && r.seen == r.db.live.refKato.Keys
      && |r.db.live.refKato| == |d.live.refKato| + r.added
    decreases |xs|
  {
    if xs != [] {
      KatoAreInserts(d, xs[..|xs| - 1]);
    }
  }

  /** The seen set is the stored codes, and at most 49 codes are pending between commits. */
  predicate KatoPending(st: KatoRun) {
    && st.seen == st.db.live.refKato.Keys
    && st.db.durable.refKato.Keys <= st.db.live.refKato.Keys
    && |st.db.live.refKato| == |st.db.durable.refKato| + st.added % CommitEvery
  }

  lemma KatoAddPending(st: KatoRun, x: RefItem)
    requires KatoPending(st)
    ensures KatoPending(KatoAdd(st, x))
  {
    if Truthy(x.code) && x.code.value !in st.seen {
      KatoInsertOne(st, x);
      var st1 := KatoRun(st.db.Write(st.db.live.PutRefKato(KatoRow(x))), st.seen + {x.code.value}, st.added + 1);
      assert st1.seen == st1.db.live.refKato.Keys;
      assert st1.db.durable.refKato.Keys <= st1.db.live.refKato.Keys;
      if st1.added % CommitEvery != 0 {
        KatoPendingNoCommit(st, x);
        assert KatoPending(st1);
        assert KatoAdd(st, x) == st1;
      } else {
        var st2 := st1.(db := st1.db.Commit());
        assert st2.db.durable == st2.db.live;
        assert KatoPending(st2);
        assert KatoAdd(st, x) == st2;
      }
    }
  }

  /** Between commits one addition makes one more pending row. */
  lemma KatoPendingNoCommit(st: KatoRun, x: RefItem)
    requires KatoPending(st) && Truthy(x.code) && x.code.value !in st.seen && (st.added + 1) % CommitEvery != 0
    ensures var st1 := KatoRun(st.db.Write(st.db.live.PutRefKato(KatoRow(x))), st.seen + {x.code.value}, st.added + 1);
      |st1.db.live.refKato| == |st1.db.durable.refKato| + st1.added % CommitEvery
  {
    KatoInsertOne(st, x);
    ModNextBelow(st.added, CommitEvery);
    var a, b, r := |st.db.live.refKato|, |st.db.durable.refKato|, st.added % CommitEvery;
    assert a == b + r;
  }

  /** Adding one unseen code grows the dictionary and the seen set by that code. */
  lemma KatoInsertOne(st: KatoRun, x: RefItem)
    requires KatoPending(st) && Truthy(x.code) && x.code.value !in st.seen
    ensures var t := st.db.live.PutRefKato(KatoRow(x));
      && t.refKato.Keys == st.seen + {x.code.value}
      && |t.refKato| == |st.db.live.refKato| + 1
  {
    var m := st.db.live.refKato;
    assert KatoRow(x).code == x.code.value;
    assert |m[x.code.value := KatoRow(x)]| == |m| + 1;
  }

  lemma KatoPendingBelowBatch(d: Db, xs: seq<RefItem>)
    requires d.live.refKato == d.durable.refKato
    ensures KatoPending(FoldL(KatoAddFn, KatoRun(d, d.live.refKato.Keys, 0), xs))
  {
    forall st: KatoRun, x: RefItem | KatoPending(st) ensures KatoPending(KatoAddFn(st, x)) {
      KatoAddPending(st, x);
    }
    FoldKeeps(KatoAddFn, KatoPending, KatoRun(d, d.live.refKato.Keys, 0), xs);
  }

  /** A walk that raises keeps exactly the committed batches: a multiple of 50 new codes. */
  lemma KatoFailureKeepsBatches(d: Db, feed: Stream<RefItem>)
    requires d.live == d.durable && feed.raised
    ensures var r := KatoLoaded(d, feed);
      && r.db.live == r.db.durable && d.live.refKato.Keys <= r.db.live.refKato.Keys
      && (|r.db.live.refKato| - |d.live.refKato|) % CommitEvery == 0
  {
    KatoAreInserts(d, feed.items);
    KatoPendingBelowBatch(d, feed.items);
    var st := FoldL(KatoAddFn, KatoRun(d, d.live.refKato.Keys, 0), feed.items);
    KatoDurableGrows(d, feed.items);
    var n := st.added;
    assert |st.db.durable.refKato| - |d.live.refKato| == n - n % CommitEvery;
    WholeBatches(n, CommitEvery);
    assert KatoLoaded(d, feed).db.live.refKato == st.db.durable.refKato;
  }

  /** The committed dictionary only grows, and the durable rest of the store is untouched. */
  lemma {:induction false} KatoDurableGrows(d: Db, xs: seq<RefItem>)
    requires d.live == d.durable
    ensures var r := FoldL(KatoAddFn, KatoRun(d, d.live.refKato.Keys, 0), xs);
      d.durable.refKato.Keys <= r.db.durable.refKato.Keys
    decreases |xs|
  {
    if xs != [] {
      KatoDurableGrows(d, xs[..|xs| - 1]);
      KatoAreInserts(d, xs[..|xs| - 1]);
      InsertNewGrows(d.live.refKato, xs[..|xs| - 1], KatoKey, KatoRowOf);
    }
  }

  /**
   * After a clean walk every truthy code of the feed is stored, codes stored
   * before keep their rows, and a new code keeps the names of its first
   * entry, full names first.
   */
  lemma KatoComplete(d: Db, feed: Stream<RefItem>, i: nat)
    requires !feed.raised && i < |feed.items|
    ensures Truthy(feed.items[i].code) ==> feed.items[i].code.value in KatoLoaded(d, feed).db.live.refKato
    ensures forall k :: k in d.live.refKato ==>
      (k in KatoLoaded(d, feed).db.live.refKato && KatoLoaded(d, feed).db.live.refKato[k] == d.live.refKato[k])
    ensures (&& KatoKey(feed.items[i]).Some? && KatoKey(feed.items[i]).value !in d.live.refKato
             && (forall j :: 0 <= j < i ==> feed.items[j].code != feed.items[i].code)) ==>
      KatoLoaded(d, feed).db.live.refKato[feed.items[i].code.value]
        == RefRow(feed.items[i].code.value, OrElse(feed.items[i].fullNameRu, feed.items[i].nameRu),
                  OrElse(feed.items[i].fullNameKz, feed.items[i].nameKz))
  {
    var x := feed.items[i];
    KatoAreInserts(d, feed.items);
    if Truthy(x.code) {
      assert Mentions(feed.items, KatoKey, x.code.value);
      InsertNewKeys(d.live.refKato, feed.items, KatoKey, KatoRowOf, x.code.value);
      if x.code.value !in d.live.refKato && (forall j :: 0 <= j < i ==> feed.items[j].code != x.code) {
        forall j | 0 <= j < i ensures KatoKey(feed.items[j]) != KatoKey(x) {
        }
        InsertNewFirst(d.live.refKato, feed.items, KatoKey, KatoRowOf, i);
      }
    }
    forall k | k in d.live.refKato
      ensures k in KatoLoaded(d, feed).db.live.refKato && KatoLoaded(d, feed).db.live.refKato[k] == d.live.refKato[k]
    {
      InsertNewKeeps(d.live.refKato, feed.items, KatoKey, KatoRowOf, k);
    }
  }

  /** A second load of the same clean walk adds nothing. */
  lemma KatoReloadAddsNothing(d: Db, feed: Stream<RefItem>)
    requires !feed.raised
    ensures var r := KatoLoaded(d, feed); var r2 := KatoLoaded(r.db, feed);
      r2.added == 0 && r2.db.live == r.db.live
  {
    var r := KatoLoaded(d, feed);
    KatoAreInserts(d, feed.items);
    KatoAreInserts(r.db, feed.items);
    InsertNewIdempotent(d.live.refKato, feed.items, KatoKey, KatoRowOf);
  }

  lemma KatoSafe(d: Db, feed: Stream<RefItem>)
    requires SafeDb(d)
    ensures SafeDb(KatoLoaded(d, feed).db)
  {
    forall st: KatoRun, x: RefItem | SafeDb(st.db) ensures SafeDb(KatoAddFn(st, x).db) {
      PutRefKatoSafe(st.db.live, KatoRow(x));
    }
    FoldKeeps(KatoAddFn, (st: KatoRun) => SafeDb(st.db), KatoRun(d, d.live.refKato.Keys, 0), feed.items);
  }
}
