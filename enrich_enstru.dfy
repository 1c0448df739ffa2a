/**
 * The ENSTRU/KTRU dictionary enrichment (src/etl/enrich_enstru.py): every
 * item code used by a plan but missing from the dictionary is described by
 * fetching the detail of the newest plan that uses it; a fetch that fails is
 * logged and skipped; blank names get fixed placeholders. The session is
 * committed after every 50th code, successful or not, and at the end.
 */
module EnrichEnstru {
  import opened Wrappers
  import opened Text
  import opened Models
  import opened Store
  import opened Client
  import opened Upstream
  import opened Folds
  import opened Inserts

  const CommitEvery := 50
  const UnknownRu := "Неизвестное наименование"
  const UnknownKz := "Белгісіз атау"

  /** The detail request for a plan id, `/v3/plans/view/{id}`. */
  type ViewOracle = int -> Outcome<PlanView>

  /** One row of the query: a missing code and the id of a plan that uses it. */
  type Probe = (string, int)

  lemma NonEmptyHas(s: set<int>)
    requires s != {}
    ensures exists y :: y in s
  {
    if forall y :: y !in s {
      assert false;
    }
  }

  /** The largest element of a non-empty set (`func.max`). */
  ghost function SetMax(s: set<int>): (r: int)
    requires s != {}
    ensures r in s && forall y :: y in s ==> y <= r
    decreases |s|
  {
    NonEmptyHas(s);
    var x :| x in s;
    var rest := s - {x};
    assert forall y :: y in s ==> y == x || y in rest;
    if rest == {} then x
    else
      var m := SetMax(rest);
      if x < m then m else x
  }

  /** The ids of the plans that use `code`. */
  ghost function PlanIdsWith(t: Tables, code: string): set<int> {
    set k | k in t.plans && t.plans[k].enstruCode == Some(code) :: t.plans[k].id
  }

  /**
   * The query: each code some plan uses that is not in the dictionary,
   * mapped to the largest id of a plan using it.
   */
  ghost function MissingEnstru(t: Tables): (r: map<string, int>)
    ensures forall c :: c in r <==> c !in t.refEnstru && exists k :: k in t.plans && t.plans[k].enstruCode == Some(c)
    ensures forall c :: c in r ==> r[c] in PlanIdsWith(t, c) && forall n :: n in PlanIdsWith(t, c) ==> n <= r[c]
  {
    var used := set k | k in t.plans && t.plans[k].enstruCode.Some? :: t.plans[k].enstruCode.value;
    var r := map c | c in used && c !in t.refEnstru && PlanIdsWith(t, c) != {} :: SetMax(PlanIdsWith(t, c));
    assert forall c :: c in r <==> c !in t.refEnstru && exists k :: k in t.plans && t.plans[k].enstruCode == Some(c) by {
      forall c ensures c in r <==> c !in t.refEnstru && exists k :: k in t.plans && t.plans[k].enstruCode == Some(c) {
        if c !in t.refEnstru && exists k :: k in t.plans && t.plans[k].enstruCode == Some(c) {
          var k :| k in t.plans && t.plans[k].enstruCode == Some(c);
          assert t.plans[k].id in PlanIdsWith(t, c);
          assert c in used;
        }
      }
    }
    r
  }

  /** The detail came back as an object, so `data.get` works. */
  predicate Described(v: Outcome<PlanView>) {
    v.Ok? && v.body.ViewObject?
  }

  /** The dictionary row for a code: names that are absent or blank become placeholders. */
  function EnstruRow(code: string, nameRu: Option<string>, nameKz: Option<string>): (r: RefRow)
    ensures r.code == code && r.nameRu.Some? && r.nameKz.Some?
    ensures !IsBlank(r.nameRu.value) && !IsBlank(r.nameKz.value)
    ensures nameRu.Some? && !IsBlank(nameRu.value) ==> r.nameRu == nameRu
    ensures nameKz.Some? && !IsBlank(nameKz.value) ==> r.nameKz == nameKz
    ensures nameRu.None? || IsBlank(nameRu.value) ==> r.nameRu == Some(UnknownRu)
    ensures nameKz.None? || IsBlank(nameKz.value) ==> r.nameKz == Some(UnknownKz)
  {
    assert !IsSpace(UnknownRu[0]) && !IsSpace(UnknownKz[0]);
    RefRow(code, Some(NonBlank(nameRu).GetOr(UnknownRu)), Some(NonBlank(nameKz).GetOr(UnknownKz)))
  }

  /** One iteration: add the row when the detail is an object, then the periodic commit. */
  function EnstruStep(viewOf: ViewOracle, st: Progress, x: Probe): Progress {
    var v := viewOf(x.1);
    var st1 :=
      if Described(v) then Progress(st.db.Write(st.db.live.PutRefEnstru(EnstruRow(x.0, v.body.nameRu, v.body.nameKz))),
                                    st.done + 1, st.idx + 1)
      else st.(idx := st.idx + 1);
    Tick(st1)
  }

  /** The periodic commit: every 50th row; the live tables and the counters stay. */
  function Tick(st: Progress): (r: Progress)
    ensures r.db.live == st.db.live && r.done == st.done && r.idx == st.idx
    ensures r.db.durable == if st.idx % CommitEvery == 0 then st.db.live else st.db.durable
  {
    if st.idx % CommitEvery == 0 then st.(db := st.db.Commit()) else st
  }

  function EnstruStepFn(viewOf: ViewOracle): (Progress, Probe) -> Progress {
    (st: Progress, x: Probe) => EnstruStep(viewOf, st, x)
  }

  /** `enrich_enstru` over the query's rows in the order given: the loop, then the final commit. */
  function EnstruEnriched(d: Db, viewOf: ViewOracle, missing: seq<Probe>): Progress {
    var st := FoldL(EnstruStepFn(viewOf), Progress(d, 0, 0), missing);
    st.(db := st.db.Commit())
  }

  method EnrichEnstru(s: Session, viewOf: ViewOracle, missing: seq<Probe>) returns (addedCount: nat)
    modifies s
    ensures Progress(s.State(), addedCount, |missing|) == EnstruEnriched(old(s.State()), viewOf, missing)
  {
    addedCount := 0;
    var start := Progress(s.State(), 0, 0);
    var i := 0;
    while i < |missing|
      invariant i <= |missing|
      invariant Progress(s.State(), addedCount, i) == FoldL(EnstruStepFn(viewOf), start, missing[..i])
    {
      FoldLast(EnstruStepFn(viewOf), start, missing, i);
      var idx := i + 1;
      var (code, planId) := missing[i];
      var data := viewOf(planId);
      if data.Ok? && data.body.ViewObject? {
        s.Write(s.live.PutRefEnstru(EnstruRow(code, data.body.nameRu, data.body.nameKz)));
        addedCount := addedCount + 1;
      }
      if idx % CommitEvery == 0 {
        s.Commit();
      }
      i := i + 1;
    }
    assert missing[..i] == missing;
    s.Commit();
  }

  // ------------------------------------------------------------- properties

  const DescribedKey: ViewOracle -> Probe -> Option<string> :=
    (viewOf: ViewOracle) => (x: Probe) => if Described(viewOf(x.1)) then Some(x.0) else None

  const DescribedRow: ViewOracle -> Probe -> RefRow :=
    (viewOf: ViewOracle) => (x: Probe) =>
      var v := viewOf(x.1);
      if Described(v) then EnstruRow(x.0, v.body.nameRu, v.body.nameKz) else RefRow(x.0, None, None)

  /** The rows' codes differ from each other and from the dictionary's. */
  predicate FreshCodes(missing: seq<Probe>, m: map<string, RefRow>) {
    && (forall i :: 0 <= i < |missing| ==> missing[i].0 !in m)
    && (forall i, j :: 0 <= i < j < |missing| ==> missing[i].0 != missing[j].0)
  }

  /**
   * For fresh codes the loop inserts exactly the described ones, touches no
   * other table, and `added_count` is the number of rows inserted.
   */
  lemma {:induction false} EnstruAreInserts(d: Db, viewOf: ViewOracle, missing: seq<Probe>)
    requires FreshCodes(missing, d.live.refEnstru)
    ensures InsertedSoFar(d, viewOf, missing, FoldL(EnstruStepFn(viewOf), Progress(d, 0, 0), missing))
    decreases |missing|
  {
    if missing != [] {
      var p := missing[..|missing| - 1];
      assert FreshCodes(p, d.live.refEnstru) by {
        assert forall i :: 0 <= i < |p| ==> p[i] == missing[i];
      }
      EnstruAreInserts(d, viewOf, p);
      var r0 := FoldL(EnstruStepFn(viewOf), Progress(d, 0, 0), p);
      EnstruExtends(d, viewOf, missing, r0);
    }
  }

  /** The loop state after the rows `xs`: the described ones inserted, each counted, every row visited. */
  predicate InsertedSoFar(d: Db, viewOf: ViewOracle, xs: seq<Probe>, r: Progress) {
    && r.db.live == d.live.(refEnstru := InsertNew(d.live.refEnstru, xs, DescribedKey(viewOf), DescribedRow(viewOf)))
    && |r.db.live.refEnstru| == |d.live.refEnstru| + r.done
    && r.idx == |xs|
  }

  lemma EnstruExtends(d: Db, viewOf: ViewOracle, missing: seq<Probe>, r0: Progress)
    requires FreshCodes(missing, d.live.refEnstru) && missing != []
    requires InsertedSoFar(d, viewOf, missing[..|missing| - 1], r0)
    ensures InsertedSoFar(d, viewOf, missing, EnstruStep(viewOf, r0, missing[|missing| - 1]))
  {
    var p, x := missing[..|missing| - 1], missing[|missing| - 1];
    var key, row := DescribedKey(viewOf), DescribedRow(viewOf);
    var m0 := InsertNew(d.live.refEnstru, p, key, row);
    EnstruInsertsLast(d, viewOf, missing);
    if Described(viewOf(x.1)) {
      assert InsertNew(d.live.refEnstru, missing, key, row) == m0[x.0 := row(x)];
      assert EnstruStep(viewOf, r0, x).db.live == r0.db.live.PutRefEnstru(row(x));
    } else {
      assert InsertNew(d.live.refEnstru, missing, key, row) == m0;
      assert EnstruStep(viewOf, r0, x).db.live == r0.db.live;
    }
  }

  /** The last row of a fresh feed is inserted when described: its code is new to the map so far. */
  lemma EnstruInsertsLast(d: Db, viewOf: ViewOracle, missing: seq<Probe>)
    requires FreshCodes(missing, d.live.refEnstru) && missing != []
    ensures var p, x := missing[..|missing| - 1], missing[|missing| - 1];
      var m := InsertNew(d.live.refEnstru, p, DescribedKey(viewOf), DescribedRow(viewOf));
      Described(viewOf(x.1)) ==> x.0 !in m && |m[x.0 := DescribedRow(viewOf)(x)]| == |m| + 1
  {
    var p, x := missing[..|missing| - 1], missing[|missing| - 1];
    var key, row := DescribedKey(viewOf), DescribedRow(viewOf);
    if Described(viewOf(x.1)) {
      forall i | 0 <= i < |p| ensures key(p[i]) != Some(x.0) {
        assert p[i] == missing[i];
      }
      InsertNewKeys(d.live.refEnstru, p, key, row, x.0);
    }
  }

  /** The query's rows are fresh codes. */
  lemma EnumeratedFresh(t: Tables, missing: seq<Probe>)
    requires Enumerates(missing, MissingEnstru(t))
    ensures FreshCodes(missing, t.refEnstru)
  {
  }

  /**
   * After the run everything is committed; every code stored before keeps its
   * row and no other table changes; a missing code is stored exactly when its
   * detail came back as an object, with the detail's names or the
   * placeholders; and `added_count` is the number of new rows.
   */
  lemma EnstruDescribes(d: Db, viewOf: ViewOracle, missing: seq<Probe>, i: nat)
    requires Enumerates(missing, MissingEnstru(d.live)) && i < |missing|
    ensures var r := EnstruEnriched(d, viewOf, missing).db;
      && r.durable == r.live
      && r.live.(refEnstru := d.live.refEnstru) == d.live
      && (forall k :: k in d.live.refEnstru ==> k in r.live.refEnstru && r.live.refEnstru[k] == d.live.refEnstru[k])
      && (missing[i].0 in r.live.refEnstru <==> Described(viewOf(missing[i].1)))
      && (Described(viewOf(missing[i].1)) ==>
            r.live.refEnstru[missing[i].0]
              == EnstruRow(missing[i].0, viewOf(missing[i].1).body.nameRu, viewOf(missing[i].1).body.nameKz))
      && |r.live.refEnstru| == |d.live.refEnstru| + EnstruEnriched(d, viewOf, missing).done
  {
    EnumeratedFresh(d.live, missing);
    EnstruAreInserts(d, viewOf, missing);
    var m := d.live.refEnstru;
    var m' := InsertNew(m, missing, DescribedKey(viewOf), DescribedRow(viewOf));
    InsertNewKeepsOld(m, missing, DescribedKey(viewOf), DescribedRow(viewOf));
    InsertsDescribe(m, viewOf, missing, i);
    assert EnstruEnriched(d, viewOf, missing).db.live.refEnstru == m';
  }



  /** A fresh row's code ends up in the dictionary exactly when its detail is an object, with that detail's row. */
  lemma InsertsDescribe(m: map<string, RefRow>, viewOf: ViewOracle, missing: seq<Probe>, i: nat)
    requires FreshCodes(missing, m) && i < |missing|
    ensures var m' := InsertNew(m, missing, DescribedKey(viewOf), DescribedRow(viewOf));
      && (missing[i].0 in m' <==> Described(viewOf(missing[i].1)))
      && (Described(viewOf(missing[i].1)) ==>
            m'[missing[i].0] == EnstruRow(missing[i].0, viewOf(missing[i].1).body.nameRu, viewOf(missing[i].1).body.nameKz))
  {
    var key, row := DescribedKey(viewOf), DescribedRow(viewOf);
    var x := missing[i];
    InsertNewKeys(m, missing, key, row, x.0);
    if Mentions(missing, key, x.0) {
      var j :| 0 <= j < |missing| && key(missing[j]) == Some(x.0);
      assert missing[j].0 == x.0;
      assert j == i;
    }
    if Described(viewOf(x.1)) {
      forall j | 0 <= j < i ensures key(missing[j]) != key(x) {
      }
      InsertNewFirst(m, missing, key, row, i);
    }
  }


  /** When every detail request answers with an object, no code is missing afterwards. */
  lemma EnstruCloses(d: Db, viewOf: ViewOracle, missing: seq<Probe>)
    requires Enumerates(missing, MissingEnstru(d.live))
    requires forall i :: 0 <= i < |missing| ==> Described(viewOf(missing[i].1))
    ensures MissingEnstru(EnstruEnriched(d, viewOf, missing).db.live) == map[]
  {
    var r := EnstruEnriched(d, viewOf, missing).db.live;
    forall c | c in MissingEnstru(r) ensures false {
      assert c !in r.refEnstru;
      var k :| k in r.plans && r.plans[k].enstruCode == Some(c);
      if c in d.live.refEnstru {
        EnstruDescribes(d, viewOf, missing, 0);
      } else {
        EnumeratedFresh(d.live, missing);
        EnstruAreInserts(d, viewOf, missing);
        assert c in MissingEnstru(d.live);
        var i :| 0 <= i < |missing| && missing[i].0 == c;
        EnstruDescribes(d, viewOf, missing, i);
      }
    }
  }

  /** The periodic commits: one per 50 codes probed, whatever their outcome, plus the final one. */
  lemma {:induction false} EnstruBatches(d: Db, viewOf: ViewOracle, missing: seq<Probe>)
    ensures var r := FoldL(EnstruStepFn(viewOf), Progress(d, 0, 0), missing);
      r.idx == |missing| && r.db.commits == d.commits + |missing| / CommitEvery
    decreases |missing|
  {
    if missing != [] {
      EnstruBatches(d, viewOf, missing[..|missing| - 1]);
      DivNext(|missing| - 1, CommitEvery);
    }
  }

  lemma EnstruCommits(d: Db, viewOf: ViewOracle, missing: seq<Probe>)
    ensures EnstruEnriched(d, viewOf, missing).db.commits == d.commits + |missing| / CommitEvery + 1
  {
    EnstruBatches(d, viewOf, missing);
  }

  /** Dictionary rows reference nothing, so the run keeps a safe store safe. */
  lemma EnstruSafe(d: Db, viewOf: ViewOracle, missing: seq<Probe>)
    requires SafeDb(d)
    ensures SafeDb(EnstruEnriched(d, viewOf, missing).db)
  {
    var step := EnstruStepFn(viewOf);
    var inv := (st: Progress) => SafeDb(st.db);
    forall t: Progress, x: Probe | inv(t) ensures inv(step(t, x)) {
      var v := viewOf(x.1);
      if Described(v) {
        PutRefEnstruSafe(t.db.live, EnstruRow(x.0, v.body.nameRu, v.body.nameKz));
      }
    }
    FoldKeeps(step, inv, Progress(d, 0, 0), missing);
  }
}
