/**
 * The subject name enrichment (src/etl/enrich_subjects.py): every subject
 * without a Russian name gets both names from its profile
 * (`/v3/subject/biin/{bin}`). A subject with an empty BIN is skipped, a
 * failed request is logged and skipped. The session is committed after every
 * 50th position that was not skipped, and at the end.
 */
module EnrichSubjects {
  import opened Wrappers
  import opened Models
  import opened Store
  import opened Client
  import opened Upstream
  import opened Folds
  import opened Text

  const CommitEvery := 50

  /** A profile body: an object, a list (whose first element is used), or anything else. */
  datatype ProfileBody = ProfileObject(profile: Profile) | ProfileList(elements: seq<Option<Profile>>) | ProfileOther

  /** The profile request for a BIN. */
  type ProfileOracle = string -> Outcome<ProfileBody>

  /** `item`, when it is a dict: the object, or the first element of a non-empty list. */
  function ItemOf(o: Outcome<ProfileBody>): (r: Option<Profile>)
    ensures o.Failed? || o.body.ProfileOther? ==> r.None?
    ensures o.Ok? && o.body.ProfileObject? ==> r == Some(o.body.profile)
    ensures o.Ok? && o.body.ProfileList? ==> r == if |o.body.elements| > 0 then o.body.elements[0] else None
  {
    if o.Failed? then None
    else match o.body
      case ProfileObject(p) => Some(p)
      case ProfileList(es) => if |es| > 0 then es[0] else None
      case ProfileOther => None
  }

  /** The profile answered for a subject that is not skipped. */
  predicate Answers(profileOf: ProfileOracle, s: Subject) {
    s.bin != "" && ItemOf(profileOf(s.bin)).Some?
  }

  /** One iteration: a skipped subject only advances `idx`; otherwise rename, then the periodic commit. */
  function SubjectStep(profileOf: ProfileOracle, st: Progress, s: Subject): Progress {
    var idx := st.idx + 1;
    if s.bin == "" then st.(idx := idx)
    else
      var item := ItemOf(profileOf(s.bin));
      var st1 :=
        if item.Some? then
          Progress(st.db.Write(st.db.live.PutSubject(s.(nameRu := item.value.nameRu, nameKz := item.value.nameKz))),
                   st.done + 1, idx)
        else st.(idx := idx);
      if idx % CommitEvery == 0 then st1.(db := st1.db.Commit()) else st1
  }

  function SubjectStepFn(profileOf: ProfileOracle): (Progress, Subject) -> Progress {
    (st: Progress, s: Subject) => SubjectStep(profileOf, st, s)
  }

  /** `enrich_subjects` over the queried rows in the order given: the loop, then the final commit. */
  function SubjectsEnriched(d: Db, profileOf: ProfileOracle, rows: seq<Subject>): Progress {
    var st := FoldL(SubjectStepFn(profileOf), Progress(d, 0, 0), rows);
    st.(db := st.db.Commit())
  }

  method EnrichSubjectNames(s: Session, profileOf: ProfileOracle, rows: seq<Subject>) returns (updatedCount: nat)
    modifies s
    ensures Progress(s.State(), updatedCount, |rows|) == SubjectsEnriched(old(s.State()), profileOf, rows)
  {
    updatedCount := 0;
    var start := Progress(s.State(), 0, 0);
    var i := 0;
    while i < |rows|
      invariant i <= |rows|
      invariant Progress(s.State(), updatedCount, i) == FoldL(SubjectStepFn(profileOf), start, rows[..i])
    {
      FoldLast(SubjectStepFn(profileOf), start, rows, i);
      var idx := i + 1;
      var subject := rows[i];
      if subject.bin == "" {
        i := i + 1;
        continue;
      }
      var item := ItemOf(profileOf(subject.bin));
      if item.Some? {
        s.Write(s.live.PutSubject(subject.(nameRu := item.value.nameRu, nameKz := item.value.nameKz)));
        updatedCount := updatedCount + 1;
      }
      if idx % CommitEvery == 0 {
        s.Commit();
      }
      i := i + 1;
    }
    assert rows[..i] == rows;
    s.Commit();
  }

  // ------------------------------------------------------------- properties

  /** `rows` is what the query returns: each subject without a Russian name, once. */
  predicate QueriedUnnamed(rows: seq<Subject>, t: Tables) {
    && (forall i :: 0 <= i < |rows| ==> rows[i].bin in t.subjects && t.subjects[rows[i].bin] == rows[i])
    && (forall i :: 0 <= i < |rows| ==> rows[i].nameRu.None?)
    && (forall i, j :: 0 <= i < j < |rows| ==> rows[i].bin != rows[j].bin)
    && (forall b :: b in t.subjects && t.subjects[b].nameRu.None? ==> exists i :: 0 <= i < |rows| && rows[i].bin == b)
  }

  /** The BINs whose profile answered. */
  ghost function AnsweredBins(profileOf: ProfileOracle, rows: seq<Subject>): set<string> {
    set i | 0 <= i < |rows| && Answers(profileOf, rows[i]) :: rows[i].bin
  }

  /** Distinct rows, each the stored row under its BIN. */
  predicate Current(rows: seq<Subject>, t: Tables) {
    && (forall i :: 0 <= i < |rows| ==> rows[i].bin in t.subjects && t.subjects[rows[i].bin] == rows[i])
    && (forall i, j :: 0 <= i < j < |rows| ==> rows[i].bin != rows[j].bin)
  }

  /** One iteration writes the renamed subject exactly when its profile answered. */
  lemma SubjectStepShape(profileOf: ProfileOracle, st: Progress, x: Subject)
    ensures var r := SubjectStepFn(profileOf)(st, x);
      && r.idx == st.idx + 1
      && r.done == st.done + (if Answers(profileOf, x) then 1 else 0)
      && r.db.live == if Answers(profileOf, x) then
           st.db.live.PutSubject(x.(nameRu := ItemOf(profileOf(x.bin)).value.nameRu,
                                    nameKz := ItemOf(profileOf(x.bin)).value.nameKz))
         else st.db.live
  {
  }

  /** The loop writes only subjects already stored: no other table changes and no subject is added. */
  lemma {:induction false} SubjectsFrame(d: Db, profileOf: ProfileOracle, rows: seq<Subject>)
    requires Current(rows, d.live)
    ensures var r := FoldL(SubjectStepFn(profileOf), Progress(d, 0, 0), rows);
      && r.db.live.(subjects := d.live.subjects) == d.live
      && r.db.live.subjects.Keys == d.live.subjects.Keys
      && r.idx == |rows|
    decreases |rows|
  {
    if rows != [] {
      var p := rows[..|rows| - 1];
      assert Current(p, d.live) by {
        assert forall i :: 0 <= i < |p| ==> p[i] == rows[i];
      }
      SubjectsFrame(d, profileOf, p);
      SubjectStepShape(profileOf, FoldL(SubjectStepFn(profileOf), Progress(d, 0, 0), p), rows[|rows| - 1]);
    }
  }

  /** A subject whose profile did not answer keeps its row. */
  lemma {:induction false} SubjectsUntouched(d: Db, profileOf: ProfileOracle, rows: seq<Subject>, b: string)
    requires Current(rows, d.live) && b in d.live.subjects && b !in AnsweredBins(profileOf, rows)
    ensures var r := FoldL(SubjectStepFn(profileOf), Progress(d, 0, 0), rows);
      b in r.db.live.subjects && r.db.live.subjects[b] == d.live.subjects[b]
    decreases |rows|
  {
    if rows != [] {
      var p := rows[..|rows| - 1];
      assert Current(p, d.live) by {
        assert forall i :: 0 <= i < |p| ==> p[i] == rows[i];
      }
      AnsweredBinsLast(profileOf, rows);
      SubjectsUntouched(d, profileOf, p, b);
      SubjectStepShape(profileOf, FoldL(SubjectStepFn(profileOf), Progress(d, 0, 0), p), rows[|rows| - 1]);
    }
  }

  /** A subject whose profile answered carries the profile's names, absent ones included. */
  lemma {:induction false} SubjectsRenamedAt(d: Db, profileOf: ProfileOracle, rows: seq<Subject>, i: nat)
    requires Current(rows, d.live) && i < |rows| && Answers(profileOf, rows[i])
    ensures var r := FoldL(SubjectStepFn(profileOf), Progress(d, 0, 0), rows);
      && rows[i].bin in r.db.live.subjects
      && r.db.live.subjects[rows[i].bin]
           == rows[i].(nameRu := ItemOf(profileOf(rows[i].bin)).value.nameRu,
                       nameKz := ItemOf(profileOf(rows[i].bin)).value.nameKz)
    decreases |rows|
  {
    var p := rows[..|rows| - 1];
    if i < |p| {
      assert Current(p, d.live) by {
        assert forall j :: 0 <= j < |p| ==> p[j] == rows[j];
      }
      assert p[i] == rows[i];
      SubjectsRenamedAt(d, profileOf, p, i);
    }
    SubjectStepShape(profileOf, FoldL(SubjectStepFn(profileOf), Progress(d, 0, 0), p), rows[|rows| - 1]);
  }

  /** `updated_count` is the number of subjects whose profile answered. */
  lemma {:induction false} SubjectsCounted(d: Db, profileOf: ProfileOracle, rows: seq<Subject>)
    requires forall i, j :: 0 <= i < j < |rows| ==> rows[i].bin != rows[j].bin
    ensures FoldL(SubjectStepFn(profileOf), Progress(d, 0, 0), rows).done == |AnsweredBins(profileOf, rows)|
    decreases |rows|
  {
    if rows != [] {
      var p := rows[..|rows| - 1];
      assert forall i :: 0 <= i < |p| ==> p[i] == rows[i];
      SubjectsCounted(d, profileOf, p);
      AnsweredBinsLast(profileOf, rows);
      SubjectStepShape(profileOf, FoldL(SubjectStepFn(profileOf), Progress(d, 0, 0), p), rows[|rows| - 1]);
    }
  }

  /** The answered BINs of a feed are those of all but its last row, plus the last when it answered. */
  lemma AnsweredBinsLast(profileOf: ProfileOracle, rows: seq<Subject>)
    requires rows != [] && forall i, j :: 0 <= i < j < |rows| ==> rows[i].bin != rows[j].bin
    ensures var p, x := rows[..|rows| - 1], rows[|rows| - 1];
      && x.bin !in AnsweredBins(profileOf, p)
      && AnsweredBins(profileOf, rows)
           == AnsweredBins(profileOf, p) + (if Answers(profileOf, x) then {x.bin} else {})
  {
    var p, x := rows[..|rows| - 1], rows[|rows| - 1];
    assert forall i :: 0 <= i < |p| ==> p[i] == rows[i];
    var a, b := AnsweredBins(profileOf, rows), AnsweredBins(profileOf, p) + (if Answers(profileOf, x) then {x.bin} else {});
    forall k | k in a ensures k in b {
      var i :| 0 <= i < |rows| && Answers(profileOf, rows[i]) && rows[i].bin == k;
      if i < |p| {
        assert k in AnsweredBins(profileOf, p);
      }
    }
    forall k | k in b ensures k in a {
      if k in AnsweredBins(profileOf, p) {
        var i :| 0 <= i < |p| && Answers(profileOf, p[i]) && p[i].bin == k;
        assert rows[i] == p[i];
      } else {
        assert rows[|rows| - 1] == x;
      }
    }
  }

  /**
   * After the run everything is committed; a queried subject whose profile
   * answered carries the profile's names, absent ones included, and nothing
   * else about it changes; every other subject is untouched.
   */
  lemma SubjectsEnrichedNames(d: Db, profileOf: ProfileOracle, rows: seq<Subject>, b: string)
    requires QueriedUnnamed(rows, d.live) && b in d.live.subjects
    ensures var r := SubjectsEnriched(d, profileOf, rows);
      && r.db.durable == r.db.live
      && r.db.live.(subjects := d.live.subjects) == d.live
      && b in r.db.live.subjects
      && (b != "" && d.live.subjects[b].nameRu.None? && ItemOf(profileOf(b)).Some? ==>
            r.db.live.subjects[b]
              == d.live.subjects[b].(nameRu := ItemOf(profileOf(b)).value.nameRu,
                                     nameKz := ItemOf(profileOf(b)).value.nameKz))
      && (b == "" || d.live.subjects[b].nameRu.Some? || ItemOf(profileOf(b)).None? ==>
            r.db.live.subjects[b] == d.live.subjects[b])
      && r.done == |AnsweredBins(profileOf, rows)|
  {
    SubjectsFrame(d, profileOf, rows);
    SubjectsCounted(d, profileOf, rows);
    if b in AnsweredBins(profileOf, rows) {
      var i :| 0 <= i < |rows| && Answers(profileOf, rows[i]) && rows[i].bin == b;
      SubjectsRenamedAt(d, profileOf, rows, i);
    } else {
      SubjectsUntouched(d, profileOf, rows, b);
    }
    if b != "" && d.live.subjects[b].nameRu.None? && ItemOf(profileOf(b)).Some? {
      var i :| 0 <= i < |rows| && rows[i].bin == b;
      assert Answers(profileOf, rows[i]);
    }
  }

  /**
   * When every profile answers with a Russian name, afterwards only subjects
   * with an empty BIN lack one.
   */
  lemma SubjectsCloses(d: Db, profileOf: ProfileOracle, rows: seq<Subject>)
    requires QueriedUnnamed(rows, d.live)
    requires forall b :: b != "" ==> ItemOf(profileOf(b)).Some? && ItemOf(profileOf(b)).value.nameRu.Some?
    ensures var r := SubjectsEnriched(d, profileOf, rows).db.live;
      forall b :: b in r.subjects && r.subjects[b].nameRu.None? ==> b == ""
  {
    var r := SubjectsEnriched(d, profileOf, rows).db.live;
    SubjectsFrame(d, profileOf, rows);
    forall b | b in r.subjects && r.subjects[b].nameRu.None? ensures b == "" {
      SubjectsEnrichedNames(d, profileOf, rows, b);
    }
  }

  /** A name the profile lacks is written as absent: the subject stays unnamed for the next run. */
  lemma SubjectsKeepAbsentNames(d: Db, profileOf: ProfileOracle, rows: seq<Subject>, b: string)
    requires QueriedUnnamed(rows, d.live) && b in d.live.subjects && d.live.subjects[b].nameRu.None?
    ensures var r := SubjectsEnriched(d, profileOf, rows).db.live;
      b in r.subjects && (r.subjects[b].nameRu.None? <==> b == "" || ItemOf(profileOf(b)).None? || ItemOf(profileOf(b)).value.nameRu.None?)
  {
    SubjectsEnrichedNames(d, profileOf, rows, b);
  }

  /** Without empty BINs there is a commit per 50 subjects, plus the final one. */
  lemma {:induction false} SubjectsBatches(d: Db, profileOf: ProfileOracle, rows: seq<Subject>)
    requires forall i :: 0 <= i < |rows| ==> rows[i].bin != ""
    ensures var r := FoldL(SubjectStepFn(profileOf), Progress(d, 0, 0), rows);
      r.idx == |rows| && r.db.commits == d.commits + |rows| / CommitEvery
    decreases |rows|
  {
    if rows != [] {
      var p := rows[..|rows| - 1];
      assert forall i :: 0 <= i < |p| ==> p[i] == rows[i];
      SubjectsBatches(d, profileOf, p);
      DivNext(|rows| - 1, CommitEvery);
    }
  }

  lemma SubjectsCommits(d: Db, profileOf: ProfileOracle, rows: seq<Subject>)
    requires forall i :: 0 <= i < |rows| ==> rows[i].bin != ""
    ensures SubjectsEnriched(d, profileOf, rows).db.commits == d.commits + |rows| / CommitEvery + 1
  {
    SubjectsBatches(d, profileOf, rows);
  }

  /** Renaming keeps the key and references nothing, so the run keeps a safe store safe. */
  lemma SubjectsSafe(d: Db, profileOf: ProfileOracle, rows: seq<Subject>)
    requires SafeDb(d)
    ensures SafeDb(SubjectsEnriched(d, profileOf, rows).db)
  {
    var step := SubjectStepFn(profileOf);
    var inv := (st: Progress) => SafeDb(st.db);
    forall t: Progress, x: Subject | inv(t) ensures inv(step(t, x)) {
      var item := ItemOf(profileOf(x.bin));
      if x.bin != "" && item.Some? {
        PutSubjectSafe(t.db.live, x.(nameRu := item.value.nameRu, nameKz := item.value.nameKz));
      }
    }
    FoldKeeps(step, inv, Progress(d, 0, 0), rows);
  }
}
