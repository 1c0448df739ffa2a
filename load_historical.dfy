/**
 * The historical load (src/etl/load_historical.py): reference units, then
 * per BIN the plans, announcements with their lots, and contracts with their
 * units, each record dated before 2024-01-01 skipped.
 */
module LoadHistorical {
  import opened Wrappers
  import opened Text
  import opened Dates
  import opened Models
  import opened Store
  import opened Client
  import opened Upstream
  import opened Folds
  import opened Inserts

  const TargetBins: seq<string> := [
    "000740001307", "020240002363", "050740004819", "051040005150",
    "140340016539", "150540000186", "210240033968", "210941010761",
    "780140000023", "900640000128", "960440000220", "970940001378",
    "981140001551", "990340005977", "020440003656", "100140011059",
    "171041003124", "230740013340", "940740000911", "971040001050",
    "990740002243", "030440003698", "120940001946", "210240019348",
    "231040023028", "940940000384", "980440001034"]

  /** The placeholder names of a unit code first seen on a plan. */
  const UnknownUnitRu := "Неизвестный код"
  const UnknownUnitKz := "Белгісіз код"

  /** A parsed date strictly before the cutoff (`date and date < CUTOFF_DATE`). */
  predicate Early(date: Option<DateTime>) {
    date.Some? && Before(date.value, HistoricalCutoff)
  }

  // ------------------------------------------------------- upsert_subject

  /**
   * `upsert_subject(db, bin, name_ru, is_customer, is_supplier)`: nothing for
   * an empty BIN or a known one; otherwise exactly one new subject with the
   * given flags, committed at once.
   */
  function WithSubject(d: Db, bin: string, nameRu: Option<string>, isCustomer: bool, isSupplier: bool): (r: Db)
    ensures bin == "" || bin in d.live.subjects ==> r == d
    ensures bin != "" ==> bin in r.live.subjects
    ensures bin != "" && bin !in d.live.subjects ==>
      r.live == d.live.PutSubject(Subject(bin, nameRu, None, isCustomer, isSupplier))
      && r.durable == r.live && r.commits == d.commits + 1
  {
    if bin == "" || bin in d.live.subjects then d
    else d.Write(d.live.PutSubject(Subject(bin, nameRu, None, isCustomer, isSupplier))).Commit()
  }

  /** A second upsert of the same BIN changes nothing, whatever its flags. */
  lemma UpsertSubjectOnce(d: Db, bin: string, n1: Option<string>, c1: bool, s1: bool, n2: Option<string>, c2: bool, s2: bool)
    ensures WithSubject(WithSubject(d, bin, n1, c1, s1), bin, n2, c2, s2) == WithSubject(d, bin, n1, c1, s1)
  {
  }

  method UpsertSubject(s: Session, bin: string, nameRu: Option<string>, isCustomer: bool, isSupplier: bool)
    returns (subject: Option<Subject>)
    modifies s
    ensures s.State() == WithSubject(old(s.State()), bin, nameRu, isCustomer, isSupplier)
    ensures bin == "" ==> subject.None?
    ensures bin != "" ==> subject == Some(s.live.subjects[bin])
    ensures bin != "" && bin in old(s.live.subjects) ==> subject == Some(old(s.live.subjects[bin]))
  {
    if bin == "" {
      return None;
    }
    if bin !in s.live.subjects {
      s.Write(s.live.PutSubject(Subject(bin, nameRu, None, isCustomer, isSupplier)));
      s.Commit();
    }
    return Some(s.live.subjects[bin]);
  }

  // -------------------------------------------- load_reference_dictionaries

  function RefCode(x: RefItem): Option<string> {
    if Truthy(x.code) then x.code else None
  }

  function RefUnitRow(x: RefItem): RefRow {
    RefRow(RefCode(x).GetOr(""), x.nameRu, x.nameKz)
  }

  /**
   * The reference-unit load: every truthy, unseen code is added once with
   * the names of its first entry, then committed; a walk that raises rolls
   * back to the last commit.
   */
  function RefUnitsLoaded(d: Db, feed: Stream<RefItem>): (r: Db)
    ensures !feed.raised ==> r.live.refUnits == InsertNew(d.live.refUnits, feed.items, RefCode, RefUnitRow)
    ensures !feed.raised ==> r.durable == r.live && r.commits == d.commits + 1
    ensures feed.raised ==> r == d.Rollback()
  {
    if feed.raised then d.Rollback()
    else d.Write(d.live.(refUnits := InsertNew(d.live.refUnits, feed.items, RefCode, RefUnitRow))).Commit()
  }

  method LoadReferenceDictionaries(s: Session, feed: Stream<RefItem>)
    modifies s
    ensures s.State() == RefUnitsLoaded(old(s.State()), feed)
  {
    var seen: set<string> := s.live.refUnits.Keys;
    ghost var start := s.live.refUnits;
    var i := 0;
    while i < |feed.items|
      invariant i <= |feed.items|
      invariant s.State() == old(s.State()).Write(old(s.live).(refUnits := InsertNew(start, feed.items[..i], RefCode, RefUnitRow)))
      invariant seen == s.live.refUnits.Keys
    {
      var item := feed.items[i];
      assert feed.items[..i + 1][..i] == feed.items[..i];
      if Truthy(item.code) && item.code.value !in seen {
        s.Write(s.live.PutRefUnit(RefRow(item.code.value, item.nameRu, item.nameKz)));
        seen := seen + {item.code.value};
      }
      i := i + 1;
    }
    assert feed.items[..i] == feed.items;
    if feed.raised {
      s.Rollback();
      return;
    }
    s.Commit();
  }

  /** Reloading the same dictionary adds nothing and keeps every row. */
  lemma RefUnitsReloadIdempotent(d: Db, feed: Stream<RefItem>)
    requires !feed.raised
    ensures RefUnitsLoaded(RefUnitsLoaded(d, feed), feed).live == RefUnitsLoaded(d, feed).live
  {
    InsertNewIdempotent(d.live.refUnits, feed.items, RefCode, RefUnitRow);
  }

  // ------------------------------------------------------------ plan pass

  /** `ref_kato_code` of the first `kato` entry, or None for an empty list. */
  function FirstKato(kato: seq<KatoEntry>): Option<string> {
    if kato == [] then None else kato[0].refKatoCode
  }

  function PlanRow(x: PlanItem, subjectBiin: Option<string>, date: Option<DateTime>): PlanPoint {
    PlanPoint(x.id, subjectBiin, x.enstruCode, x.unitsCode, x.price, x.count, x.amount, date, FirstKato(x.kato))
  }

  function PlaceholderUnit(code: string): RefRow {
    RefRow(code, Some(UnknownUnitRu), Some(UnknownUnitKz))
  }

  /** A plan record the pass has nothing to do for: dated before the cutoff, or already stored. */
  predicate PlanSettled(fromIso: string -> Option<DateTime>, d: Db, x: PlanItem) {
    Early(ParseDateHistorical(x.dateApproved, fromIso)) || x.id in d.live.plans
  }

  /**
   * One plan record: skipped when dated before the cutoff or already stored;
   * otherwise an unseen truthy unit code first gets a committed placeholder
   * row, then the plan is added under the requested BIN.
   */
  function PlanStep(bin: string, fromIso: string -> Option<DateTime>, d: Db, x: PlanItem): (r: Db)
    ensures PlanSettled(fromIso, d, x) ==> r == d
    ensures !PlanSettled(fromIso, d, x) ==>
      && r.live.plans == d.live.plans[x.id := PlanRow(x, Some(bin), ParseDateHistorical(x.dateApproved, fromIso))]
      && (Truthy(x.unitsCode) ==> x.unitsCode.value in r.live.refUnits)
    ensures PlanSettled(fromIso, r, x) && Grows(d.live, r.live)
  {
    var date := ParseDateHistorical(x.dateApproved, fromIso);
    if Early(date) || x.id in d.live.plans then d
    else
      var d1 := if Truthy(x.unitsCode) && x.unitsCode.value !in d.live.refUnits
                then d.Write(d.live.PutRefUnit(PlaceholderUnit(x.unitsCode.value))).Commit()
                else d;
      d1.Write(d1.live.PutPlan(PlanRow(x, Some(bin), date)))
  }

  function PlanStepFn(bin: string, fromIso: string -> Option<DateTime>): (Db, PlanItem) -> Db {
    (d, x) => PlanStep(bin, fromIso, d, x)
  }

  method PlanPass(s: Session, bin: string, fromIso: string -> Option<DateTime>, items: seq<PlanItem>)
    modifies s
    ensures s.State() == FoldL(PlanStepFn(bin, fromIso), old(s.State()), items)
  {
    var i := 0;
    while i < |items|
      invariant i <= |items|
      invariant s.State() == FoldL(PlanStepFn(bin, fromIso), old(s.State()), items[..i])
    {
      FoldLast(PlanStepFn(bin, fromIso), old(s.State()), items, i);
      var x := items[i];
      var date := ParseDateHistorical(x.dateApproved, fromIso);
      if !(date.Some? && Before(date.value, HistoricalCutoff)) && x.id !in s.live.plans {
        var unitCode := x.unitsCode;
        if Truthy(unitCode) && unitCode.value !in s.live.refUnits {
          s.Write(s.live.PutRefUnit(PlaceholderUnit(unitCode.value)));
          s.Commit();
        }
        s.Write(s.live.PutPlan(PlanRow(x, Some(bin), date)));
      }
      i := i + 1;
    }
    assert items[..i] == items;
  }

  // ---------------------------------------------------- announcement pass

  function AnnRow(x: AnnItem, orgBin: Option<string>, fromIso: string -> Option<DateTime>): Announcement {
    Announcement(x.id, x.numberAnno, x.nameRu, orgBin, x.totalSum, ParseDateHistorical(x.publishDate, fromIso),
                 ParseDateHistorical(x.startDate, fromIso), ParseDateHistorical(x.endDate, fromIso), x.buyStatus)
  }

  function LotRow(l: LotItem, annId: int, customerBin: Option<string>): Lot {
    Lot(l.id, annId, l.lotNumber, l.nameRu, l.amount, l.count, customerBin, l.lotStatus)
  }

  const LotKey: LotItem -> Option<int> := (l: LotItem) => Some(l.id)

  function LotRowFn(annId: int, bin: string): LotItem -> Lot {
    (l: LotItem) => LotRow(l, annId, Some(bin))
  }

  /** The lots of announcement `annId` after its reply: each unseen lot id added once, under that announcement. */
  function WithLots(t: Tables, annId: int, bin: string, lots: seq<LotItem>): (r: Tables)
    ensures r == t.(lots := r.lots) && Grows(t, r)
  {
    InsertNewGrows(t.lots, lots, LotKey, LotRowFn(annId, bin));
    t.(lots := InsertNew(t.lots, lots, LotKey, LotRowFn(annId, bin)))
  }

  /** An announcement record the pass has nothing to do for. */
  predicate AnnSettled(fromIso: string -> Option<DateTime>, d: Db, x: AnnItem) {
    Early(ParseDateHistorical(x.publishDate, fromIso)) || x.id in d.live.announcements
  }

  /**
   * One announcement record: skipped when published before the cutoff or
   * already stored; otherwise added, and only then are its lots fetched; a
   * failed fetch leaves the announcement without lots.
   */
  function AnnStep(bin: string, fromIso: string -> Option<DateTime>, lotsOf: int -> Outcome<Body<LotItem>>,
                   d: Db, x: AnnItem): (r: Db)
    ensures AnnSettled(fromIso, d, x) ==> r == d
    ensures !AnnSettled(fromIso, d, x) ==>
      && r.live.announcements == d.live.announcements[x.id := AnnRow(x, Some(bin), fromIso)]
      && r.durable == d.durable
    ensures AnnSettled(fromIso, r, x) && Grows(d.live, r.live)
  {
    if AnnSettled(fromIso, d, x) then d
    else d.Write(WithLots(d.live.PutAnnouncement(AnnRow(x, Some(bin), fromIso)), x.id, bin, Replied(lotsOf(x.id))))
  }

  function AnnStepFn(bin: string, fromIso: string -> Option<DateTime>, lotsOf: int -> Outcome<Body<LotItem>>)
    : (Db, AnnItem) -> Db
  {
    (d, x) => AnnStep(bin, fromIso, lotsOf, d, x)
  }

  method StoreLots(s: Session, annId: int, bin: string, lots: seq<LotItem>)
    modifies s
    ensures s.State() == old(s.State()).Write(WithLots(old(s.live), annId, bin, lots))
  {
    ghost var start := s.live;
    var j := 0;
    while j < |lots|
      invariant j <= |lots|
      invariant s.State() == old(s.State()).Write(WithLots(start, annId, bin, lots[..j]))
    {
      assert lots[..j + 1][..j] == lots[..j];
      var l := lots[j];
      if l.id !in s.live.lots {
        s.Write(s.live.PutLot(LotRow(l, annId, Some(bin))));
      }
      j := j + 1;
    }
    assert lots[..j] == lots;
  }

  method AnnouncementPass(s: Session, bin: string, fromIso: string -> Option<DateTime>,
                          lotsOf: int -> Outcome<Body<LotItem>>, items: seq<AnnItem>)
    modifies s
    ensures s.State() == FoldL(AnnStepFn(bin, fromIso, lotsOf), old(s.State()), items)
  {
    var i := 0;
    while i < |items|
      invariant i <= |items|
      invariant s.State() == FoldL(AnnStepFn(bin, fromIso, lotsOf), old(s.State()), items[..i])
    {
      FoldLast(AnnStepFn(bin, fromIso, lotsOf), old(s.State()), items, i);
      StoreAnnouncement(s, bin, fromIso, lotsOf, items[i]);
      i := i + 1;
    }
    assert items[..i] == items;
  }

  /** One announcement record: stored with its lots unless published before the cutoff or already present. */
  method StoreAnnouncement(s: Session, bin: string, fromIso: string -> Option<DateTime>,
                           lotsOf: int -> Outcome<Body<LotItem>>, x: AnnItem)
    modifies s
    ensures s.State() == AnnStep(bin, fromIso, lotsOf, old(s.State()), x)
  {
    var pubDate := ParseDateHistorical(x.publishDate, fromIso);
    if !(pubDate.Some? && Before(pubDate.value, HistoricalCutoff)) && x.id !in s.live.announcements {
      s.Write(s.live.PutAnnouncement(AnnRow(x, Some(bin), fromIso)));
      var reply := lotsOf(x.id);
      if reply.Ok? {
        StoreLots(s, x.id, bin, PageItems(reply.body));
      } else {
        assert WithLots(s.live, x.id, bin, []) == s.live;
      }
    }
  }

  // -------------------------------------------------------- contract pass

  /** A reference kept only when it names a row of the snapshot; otherwise None. */
  function KeepIfIn(id: Option<int>, valid: set<int>): (r: Option<int>)
    ensures r.Some? <==> id.Some? && id.value in valid
    ensures r.Some? ==> r == id
  {
    if id.Some? && id.value in valid then id else None
  }

  function UnitRow(u: UnitItem, contractId: int, pln: Option<int>): ContractUnit {
    ContractUnit(u.id, contractId, pln, u.itemPrice, u.quantity, u.totalSum)
  }

  const UnitKey: UnitItem -> Option<int> := (u: UnitItem) => Some(u.id)

  function UnitRowFn(contractId: int, validPlans: set<int>): UnitItem -> ContractUnit {
    (u: UnitItem) => UnitRow(u, contractId, KeepIfIn(u.plnPointId, validPlans))
  }

  /** The units of contract `contractId` after its reply: each unseen unit id added once, its plan filtered. */
  function WithUnits(t: Tables, contractId: int, validPlans: set<int>, units: seq<UnitItem>): (r: Tables)
    ensures r == t.(units := r.units) && Grows(t, r)
  {
    InsertNewGrows(t.units, units, UnitKey, UnitRowFn(contractId, validPlans));
    t.(units := InsertNew(t.units, units, UnitKey, UnitRowFn(contractId, validPlans)))
  }

  function ContractRow(x: ContractItem, trd: Option<int>, crdate: Option<DateTime>, supplier: Option<string>,
                       customer: Option<string>): Contract {
    Contract(x.id, x.number, trd, crdate, x.sum, supplier, customer, x.status)
  }

  /** A contract record the pass has nothing to do for: early, or stored with its supplier known. */
  predicate ContractSettled(fromIso: string -> Option<DateTime>, d: Db, x: ContractItem) {
    || Early(ParseDateHistorical(x.crdate, fromIso))
    || (&& x.id in d.live.contracts
        && (NonBlank(x.supplierBiin).Some? ==> NonBlank(x.supplierBiin).value in d.live.subjects))
  }

  /**
   * One contract record: skipped when created before the cutoff; a
   * non-blank supplier is upserted; a stored contract is left alone;
   * otherwise it is added with its announcement reference filtered by the
   * snapshot, and only then are its units fetched.
   */
  function ContractStep(bin: string, fromIso: string -> Option<DateTime>, unitsOf: int -> Outcome<Body<UnitItem>>,
                        validPlans: set<int>, validAnns: set<int>, d: Db, x: ContractItem): (r: Db)
    ensures ContractSettled(fromIso, d, x) ==> r == d
    ensures !Early(ParseDateHistorical(x.crdate, fromIso)) && x.id !in d.live.contracts ==>
      x.id in r.live.contracts && r.live.contracts[x.id] == ContractRow(x, KeepIfIn(x.trdBuyId, validAnns), ParseDateHistorical(x.crdate, fromIso),
                                            NonBlank(x.supplierBiin), Some(bin))
    ensures ContractSettled(fromIso, r, x) && Grows(d.live, r.live)
  {
    var crdate := ParseDateHistorical(x.crdate, fromIso);
    if Early(crdate) then d
    else
      var supplier := NonBlank(x.supplierBiin);
      var d1 := if supplier.Some? then WithSubject(d, supplier.value, None, false, true) else d;
      if x.id in d1.live.contracts then d1
      else
        var t := d1.live.PutContract(ContractRow(x, KeepIfIn(x.trdBuyId, validAnns), crdate, supplier, Some(bin)));
        d1.Write(WithUnits(t, x.id, validPlans, Replied(unitsOf(x.id))))
  }

  function ContractStepFn(bin: string, fromIso: string -> Option<DateTime>, unitsOf: int -> Outcome<Body<UnitItem>>,
                          validPlans: set<int>, validAnns: set<int>): (Db, ContractItem) -> Db {
    (d, x) => ContractStep(bin, fromIso, unitsOf, validPlans, validAnns, d, x)
  }

  method StoreUnits(s: Session, contractId: int, validPlans: set<int>, units: seq<UnitItem>)
    modifies s
    ensures s.State() == old(s.State()).Write(WithUnits(old(s.live), contractId, validPlans, units))
  {
    ghost var start := s.live;
    var j := 0;
    while j < |units|
      invariant j <= |units|
      invariant s.State() == old(s.State()).Write(WithUnits(start, contractId, validPlans, units[..j]))
    {
      assert units[..j + 1][..j] == units[..j];
      var u := units[j];
      var pln := KeepIfIn(u.plnPointId, validPlans);
      if u.id !in s.live.units {
        s.Write(s.live.PutUnit(UnitRow(u, contractId, pln)));
      }
      j := j + 1;
    }
    assert units[..j] == units;
  }

  method ContractPass(s: Session, bin: string, fromIso: string -> Option<DateTime>,
                      unitsOf: int -> Outcome<Body<UnitItem>>, validPlans: set<int>, validAnns: set<int>,
                      items: seq<ContractItem>)
    modifies s
    ensures s.State() == FoldL(ContractStepFn(bin, fromIso, unitsOf, validPlans, validAnns), old(s.State()), items)
  {
    var i := 0;
    while i < |items|
      invariant i <= |items|
      invariant s.State() == FoldL(ContractStepFn(bin, fromIso, unitsOf, validPlans, validAnns), old(s.State()), items[..i])
    {
      FoldLast(ContractStepFn(bin, fromIso, unitsOf, validPlans, validAnns), old(s.State()), items, i);
      var x := items[i];
      var crdate := ParseDateHistorical(x.crdate, fromIso);
      if !(crdate.Some? && Before(crdate.value, HistoricalCutoff)) {
        var supplier := NonBlank(x.supplierBiin);
        if supplier.Some? {
          var _ := UpsertSubject(s, supplier.value, None, false, true);
        }
        if x.id !in s.live.contracts {
          var trd := KeepIfIn(x.trdBuyId, validAnns);
          s.Write(s.live.PutContract(ContractRow(x, trd, crdate, supplier, Some(bin))));
          var reply := unitsOf(x.id);
          if reply.Ok? {
            StoreUnits(s, x.id, validPlans, PageItems(reply.body));
          } else {
            assert WithUnits(s.live, x.id, validPlans, []) == s.live;
          }
        }
      }
      i := i + 1;
    }
    assert items[..i] == items;
  }

  // ------------------------------------------------------ load_data_for_bin

  /** What the upstream answers for one BIN: the three walks and the two single-request oracles. */
  datatype BinFeeds = BinFeeds(plans: Stream<PlanItem>, announcements: Stream<AnnItem>,
                               contracts: Stream<ContractItem>,
                               lotsOf: int -> Outcome<Body<LotItem>>, unitsOf: int -> Outcome<Body<UnitItem>>)

  /** The state a job leaves and whether an exception escaped it. */
  datatype Run = Run(db: Db, raised: bool)

  /**
   * `load_data_for_bin`: the customer upsert, then the three passes, each
   * committed; the plan and announcement identifiers the contract pass may
   * reference are those stored after the second commit. A walk that raises
   * ends the job there, its pending writes left uncommitted.
   */
  function BinLoaded(d: Db, bin: string, fromIso: string -> Option<DateTime>, f: BinFeeds): Run {
    var d0 := WithSubject(d, bin, None, true, false);
    var d1 := FoldL(PlanStepFn(bin, fromIso), d0, f.plans.items);
    if f.plans.raised then Run(d1, true)
    else
      var d2 := FoldL(AnnStepFn(bin, fromIso, f.lotsOf), d1.Commit(), f.announcements.items);
      if f.announcements.raised then Run(d2, true)
      else
        var vp := d2.live.plans.Keys;
        var va := d2.live.announcements.Keys;
        var d3 := FoldL(ContractStepFn(bin, fromIso, f.unitsOf, vp, va), d2.Commit(), f.contracts.items);
        if f.contracts.raised then Run(d3, true) else Run(d3.Commit(), false)
  }

  method LoadDataForBin(s: Session, bin: string, fromIso: string -> Option<DateTime>, f: BinFeeds)
    returns (raised: bool)
    modifies s
    ensures Run(s.State(), raised) == BinLoaded(old(s.State()), bin, fromIso, f)
  {
    var _ := UpsertSubject(s, bin, None, true, false);
    PlanPass(s, bin, fromIso, f.plans.items);
    if f.plans.raised {
      return true;
    }
    s.Commit();
    AnnouncementPass(s, bin, fromIso, f.lotsOf, f.announcements.items);
    if f.announcements.raised {
      return true;
    }
    s.Commit();
    var validPlans := s.live.plans.Keys;
    var validAnns := s.live.announcements.Keys;
    ContractPass(s, bin, fromIso, f.unitsOf, validPlans, validAnns, f.contracts.items);
    if f.contracts.raised {
      return true;
    }
    s.Commit();
    return false;
  }

  /** The BINs in order; the first exception ends the run. */
  function BinsLoaded(d: Db, fromIso: string -> Option<DateTime>, feeds: string -> BinFeeds, bins: seq<string>): Run
    decreases |bins|
  {
    if bins == [] then Run(d, false)
    else
      var p := BinsLoaded(d, fromIso, feeds, bins[..|bins| - 1]);
      if p.raised then p else BinLoaded(p.db, bins[|bins| - 1], fromIso, feeds(bins[|bins| - 1]))
  }

  /**
   * The script: reference units, then every target BIN; the session is
   * closed at the end, which discards whatever was not committed.
   */
  function HistoricalLoaded(d: Db, fromIso: string -> Option<DateTime>, refs: Stream<RefItem>,
                            feeds: string -> BinFeeds): Db {
    BinsLoaded(RefUnitsLoaded(d, refs), fromIso, feeds, TargetBins).db.Rollback()
  }

  method LoadBins(s: Session, fromIso: string -> Option<DateTime>, feeds: string -> BinFeeds, bins: seq<string>)
    returns (raised: bool)
    modifies s
    ensures Run(s.State(), raised) == BinsLoaded(old(s.State()), fromIso, feeds, bins)
  {
    var i := 0;
    while i < |bins|
      invariant i <= |bins|
      invariant BinsLoaded(old(s.State()), fromIso, feeds, bins[..i]) == Run(s.State(), false)
    {
      assert bins[..i + 1][..i] == bins[..i];
      raised := LoadDataForBin(s, bins[i], fromIso, feeds(bins[i]));
      if raised {
        BinsRaisedStays(old(s.State()), fromIso, feeds, bins, i + 1);
        return;
      }
      i := i + 1;
    }
    assert bins[..i] == bins;
    return false;
  }

  method RunHistorical(s: Session, fromIso: string -> Option<DateTime>, refs: Stream<RefItem>,
                       feeds: string -> BinFeeds)
    modifies s
    ensures s.State() == HistoricalLoaded(old(s.State()), fromIso, refs, feeds)
  {
    LoadReferenceDictionaries(s, refs);
    var _ := LoadBins(s, fromIso, feeds, TargetBins);
    s.Rollback();
  }

  /** Once a BIN has raised, the later ones are never processed. */
  lemma {:induction false} BinsRaisedStays(d: Db, fromIso: string -> Option<DateTime>, feeds: string -> BinFeeds,
                                           bins: seq<string>, n: nat)
    requires n <= |bins| && BinsLoaded(d, fromIso, feeds, bins[..n]).raised
    ensures BinsLoaded(d, fromIso, feeds, bins) == BinsLoaded(d, fromIso, feeds, bins[..n])
    decreases |bins| - n
  {
    if n < |bins| {
      assert bins[..n + 1][..n] == bins[..n];
      BinsRaisedStays(d, fromIso, feeds, bins, n + 1);
    } else {
      assert bins[..n] == bins;
    }
  }

  // ------------------------------------------------------------- properties

  /** A plan dated before the cutoff can be deleted from the feed without changing the job. */
  lemma EarlyPlanIgnored(d: Db, bin: string, fromIso: string -> Option<DateTime>, f: BinFeeds,
                         a: seq<PlanItem>, x: PlanItem, b: seq<PlanItem>)
    requires f.plans.items == a + [x] + b && Early(ParseDateHistorical(x.dateApproved, fromIso))
    ensures BinLoaded(d, bin, fromIso, f) == BinLoaded(d, bin, fromIso, f.(plans := Stream(a + b, f.plans.raised)))
  {
    FoldSkip(PlanStepFn(bin, fromIso), WithSubject(d, bin, None, true, false), a, x, b);
  }

  /** An announcement published before the cutoff can be deleted from the feed; its lots are never fetched. */
  lemma EarlyAnnouncementIgnored(d: Db, bin: string, fromIso: string -> Option<DateTime>, f: BinFeeds,
                                 a: seq<AnnItem>, x: AnnItem, b: seq<AnnItem>)
    requires f.announcements.items == a + [x] + b && Early(ParseDateHistorical(x.publishDate, fromIso))
    ensures BinLoaded(d, bin, fromIso, f)
         == BinLoaded(d, bin, fromIso, f.(announcements := Stream(a + b, f.announcements.raised)))
  {
    var d1 := FoldL(PlanStepFn(bin, fromIso), WithSubject(d, bin, None, true, false), f.plans.items);
    FoldSkip(AnnStepFn(bin, fromIso, f.lotsOf), d1.Commit(), a, x, b);
  }

  /** A contract created before the cutoff can be deleted from the feed: not even its supplier is stored. */
  lemma EarlyContractIgnored(d: Db, bin: string, fromIso: string -> Option<DateTime>, f: BinFeeds,
                             a: seq<ContractItem>, x: ContractItem, b: seq<ContractItem>)
    requires f.contracts.items == a + [x] + b && Early(ParseDateHistorical(x.crdate, fromIso))
    ensures BinLoaded(d, bin, fromIso, f) == BinLoaded(d, bin, fromIso, f.(contracts := Stream(a + b, f.contracts.raised)))
  {
    var d1 := FoldL(PlanStepFn(bin, fromIso), WithSubject(d, bin, None, true, false), f.plans.items);
    var d2 := FoldL(AnnStepFn(bin, fromIso, f.lotsOf), d1.Commit(), f.announcements.items);
    var step := ContractStepFn(bin, fromIso, f.unitsOf, d2.live.plans.Keys, d2.live.announcements.Keys);
    FoldSkip(step, d2.Commit(), a, x, b);
  }

  function PlanSettledFn(fromIso: string -> Option<DateTime>): (Db, PlanItem) -> bool {
    (d, x) => PlanSettled(fromIso, d, x)
  }

  function AnnSettledFn(fromIso: string -> Option<DateTime>): (Db, AnnItem) -> bool {
    (d, x) => AnnSettled(fromIso, d, x)
  }

  function ContractSettledFn(fromIso: string -> Option<DateTime>): (Db, ContractItem) -> bool {
    (d, x) => ContractSettled(fromIso, d, x)
  }

  lemma PlanPassSettles(bin: string, fromIso: string -> Option<DateTime>, d: Db, xs: seq<PlanItem>)
    ensures Grows(d.live, FoldL(PlanStepFn(bin, fromIso), d, xs).live)
    ensures forall x :: x in xs ==> PlanSettled(fromIso, FoldL(PlanStepFn(bin, fromIso), d, xs), x)
  {
    FoldKeeps(PlanStepFn(bin, fromIso), (t: Db) => Grows(d.live, t.live), d, xs);
    FoldSettles(PlanStepFn(bin, fromIso), PlanSettledFn(fromIso), d, xs);
  }

  lemma AnnPassSettles(bin: string, fromIso: string -> Option<DateTime>, lotsOf: int -> Outcome<Body<LotItem>>,
                       d: Db, xs: seq<AnnItem>)
    ensures Grows(d.live, FoldL(AnnStepFn(bin, fromIso, lotsOf), d, xs).live)
    ensures forall x :: x in xs ==> AnnSettled(fromIso, FoldL(AnnStepFn(bin, fromIso, lotsOf), d, xs), x)
  {
    FoldKeeps(AnnStepFn(bin, fromIso, lotsOf), (t: Db) => Grows(d.live, t.live), d, xs);
    FoldSettles(AnnStepFn(bin, fromIso, lotsOf), AnnSettledFn(fromIso), d, xs);
  }

  lemma ContractPassSettles(bin: string, fromIso: string -> Option<DateTime>, unitsOf: int -> Outcome<Body<UnitItem>>,
                            vp: set<int>, va: set<int>, d: Db, xs: seq<ContractItem>)
    ensures Grows(d.live, FoldL(ContractStepFn(bin, fromIso, unitsOf, vp, va), d, xs).live)
    ensures forall x :: x in xs ==>
      ContractSettled(fromIso, FoldL(ContractStepFn(bin, fromIso, unitsOf, vp, va), d, xs), x)
  {
    FoldKeeps(ContractStepFn(bin, fromIso, unitsOf, vp, va), (t: Db) => Grows(d.live, t.live), d, xs);
    FoldSettles(ContractStepFn(bin, fromIso, unitsOf, vp, va), ContractSettledFn(fromIso), d, xs);
  }

  /**
   * After a job that did not raise, everything is committed, the customer is
   * stored, and every record of the three feeds is either dated before the
   * cutoff or stored (a contract together with its supplier); no row that
   * existed before was removed.
   */
  lemma BinLoadedStoresAll(d: Db, bin: string, fromIso: string -> Option<DateTime>, f: BinFeeds)
    requires !BinLoaded(d, bin, fromIso, f).raised
    ensures BinLoaded(d, bin, fromIso, f).db.durable == BinLoaded(d, bin, fromIso, f).db.live
    ensures Grows(d.live, BinLoaded(d, bin, fromIso, f).db.live)
    ensures bin != "" ==> bin in BinLoaded(d, bin, fromIso, f).db.live.subjects
    ensures forall x :: x in f.plans.items ==> PlanSettled(fromIso, BinLoaded(d, bin, fromIso, f).db, x)
    ensures forall x :: x in f.announcements.items ==> AnnSettled(fromIso, BinLoaded(d, bin, fromIso, f).db, x)
    ensures forall x :: x in f.contracts.items ==> ContractSettled(fromIso, BinLoaded(d, bin, fromIso, f).db, x)
  {
    var d0 := WithSubject(d, bin, None, true, false);
    var d1 := FoldL(PlanStepFn(bin, fromIso), d0, f.plans.items);
    var d2 := FoldL(AnnStepFn(bin, fromIso, f.lotsOf), d1.Commit(), f.announcements.items);
    var vp := d2.live.plans.Keys;
    var va := d2.live.announcements.Keys;
    var d3 := FoldL(ContractStepFn(bin, fromIso, f.unitsOf, vp, va), d2.Commit(), f.contracts.items);
    PlanPassSettles(bin, fromIso, d0, f.plans.items);
    AnnPassSettles(bin, fromIso, f.lotsOf, d1.Commit(), f.announcements.items);
    ContractPassSettles(bin, fromIso, f.unitsOf, vp, va, d2.Commit(), f.contracts.items);
  }

  /**
   * Rerunning a job that did not raise on the same answers writes nothing:
   * it only commits three times.
   */
  lemma BinReloadWritesNothing(d: Db, bin: string, fromIso: string -> Option<DateTime>, f: BinFeeds)
    requires !BinLoaded(d, bin, fromIso, f).raised
    ensures var r := BinLoaded(d, bin, fromIso, f).db;
      BinLoaded(r, bin, fromIso, f) == Run(r.Commit().Commit().Commit(), false)
  {
    var r := BinLoaded(d, bin, fromIso, f).db;
    BinLoadedStoresAll(d, bin, fromIso, f);
    assert WithSubject(r, bin, None, true, false) == r;
    FoldSettled(PlanStepFn(bin, fromIso), PlanSettledFn(fromIso), r, f.plans.items);
    FoldSettled(AnnStepFn(bin, fromIso, f.lotsOf), AnnSettledFn(fromIso), r.Commit(), f.announcements.items);
    var vp := r.live.plans.Keys;
    var va := r.live.announcements.Keys;
    FoldSettled(ContractStepFn(bin, fromIso, f.unitsOf, vp, va), ContractSettledFn(fromIso), r.Commit().Commit(),
                f.contracts.items);
  }

  // ------------------------------------------------------ referential safety

  lemma WithSubjectSafe(d: Db, bin: string, nameRu: Option<string>, isCustomer: bool, isSupplier: bool)
    requires SafeDb(d)
    ensures SafeDb(WithSubject(d, bin, nameRu, isCustomer, isSupplier))
  {
    PutSubjectSafe(d.live, Subject(bin, nameRu, None, isCustomer, isSupplier));
  }

  lemma PlanStepSafe(bin: string, fromIso: string -> Option<DateTime>, d: Db, x: PlanItem)
    requires SafeDb(d)
    ensures SafeDb(PlanStep(bin, fromIso, d, x))
  {
    if !PlanSettled(fromIso, d, x) {
      var d1 := if Truthy(x.unitsCode) && x.unitsCode.value !in d.live.refUnits
                then d.Write(d.live.PutRefUnit(PlaceholderUnit(x.unitsCode.value))).Commit()
                else d;
      if Truthy(x.unitsCode) {
        PutRefUnitSafe(d.live, PlaceholderUnit(x.unitsCode.value));
      }
      PutPlanSafe(d1.live, PlanRow(x, Some(bin), ParseDateHistorical(x.dateApproved, fromIso)));
    }
  }

  /** Lots written under a stored announcement keep the store safe. */
  lemma WithLotsSafe(t: Tables, annId: int, bin: string, lots: seq<LotItem>)
    requires Safe(t) && annId in t.announcements
    ensures Safe(WithLots(t, annId, bin, lots))
  {
    var ok := (k: int, l: Lot) => l.id == k && l.trdBuyId in t.announcements;
    InsertNewKeepsAll(t.lots, lots, LotKey, LotRowFn(annId, bin), ok);
  }

  /** Units written under a stored contract, their plans filtered by stored ids, keep the store safe. */
  lemma WithUnitsSafe(t: Tables, contractId: int, validPlans: set<int>, units: seq<UnitItem>)
    requires Safe(t) && contractId in t.contracts && validPlans <= t.plans.Keys
    ensures Safe(WithUnits(t, contractId, validPlans, units))
  {
    var ok := (k: int, u: ContractUnit) =>
      u.id == k && u.contractId in t.contracts && (u.plnPointId.Some? ==> u.plnPointId.value in t.plans);
    assert UnitsSafe(t) && Keyed(t);
    forall k | k in t.units ensures ok(k, t.units[k]) {
      assert t.units[k].id == k;
    }
    InsertNewKeepsAll(t.units, units, UnitKey, UnitRowFn(contractId, validPlans), ok);
  }

  lemma AnnStepSafe(bin: string, fromIso: string -> Option<DateTime>, lotsOf: int -> Outcome<Body<LotItem>>,
                    d: Db, x: AnnItem)
    requires SafeDb(d)
    ensures SafeDb(AnnStep(bin, fromIso, lotsOf, d, x))
  {
    if !AnnSettled(fromIso, d, x) {
      var t := d.live.PutAnnouncement(AnnRow(x, Some(bin), fromIso));
      PutAnnouncementSafe(d.live, AnnRow(x, Some(bin), fromIso));
      WithLotsSafe(t, x.id, bin, Replied(lotsOf(x.id)));
    }
  }

  /** The snapshot the contract pass filters references by names only stored rows. */
  predicate SnapshotSafe(d: Db, vp: set<int>, va: set<int>) {
    SafeDb(d) && vp <= d.live.plans.Keys && va <= d.live.announcements.Keys
  }

  lemma ContractStepSafe(bin: string, fromIso: string -> Option<DateTime>, unitsOf: int -> Outcome<Body<UnitItem>>,
                         vp: set<int>, va: set<int>, d: Db, x: ContractItem)
    requires SnapshotSafe(d, vp, va)
    ensures SnapshotSafe(ContractStep(bin, fromIso, unitsOf, vp, va, d, x), vp, va)
  {
    if !Early(ParseDateHistorical(x.crdate, fromIso)) {
      var supplier := NonBlank(x.supplierBiin);
      var d1 := if supplier.Some? then WithSubject(d, supplier.value, None, false, true) else d;
      if supplier.Some? {
        WithSubjectSafe(d, supplier.value, None, false, true);
      }
      if x.id !in d1.live.contracts {
        var row := ContractRow(x, KeepIfIn(x.trdBuyId, va), ParseDateHistorical(x.crdate, fromIso), supplier, Some(bin));
        PutContractSafe(d1.live, row);
        WithUnitsSafe(d1.live.PutContract(row), x.id, vp, Replied(unitsOf(x.id)));
      }
    }
  }

  /** A job started on a referentially safe store leaves it safe, committed or not. */
  lemma BinLoadedSafe(d: Db, bin: string, fromIso: string -> Option<DateTime>, f: BinFeeds)
    requires SafeDb(d)
    ensures SafeDb(BinLoaded(d, bin, fromIso, f).db)
  {
    var d0 := WithSubject(d, bin, None, true, false);
    WithSubjectSafe(d, bin, None, true, false);
    HistPlansSafe(bin, fromIso, d0, f.plans.items);
    var d1 := FoldL(PlanStepFn(bin, fromIso), d0, f.plans.items);
    HistAnnsSafe(bin, fromIso, f.lotsOf, d1.Commit(), f.announcements.items);
    var d2 := FoldL(AnnStepFn(bin, fromIso, f.lotsOf), d1.Commit(), f.announcements.items);
    HistContractsSafe(bin, fromIso, f.unitsOf, d2.live.plans.Keys, d2.live.announcements.Keys, d2.Commit(), f.contracts.items);
  }

  lemma HistPlansSafe(bin: string, fromIso: string -> Option<DateTime>, d: Db, items: seq<PlanItem>)
    requires SafeDb(d)
    ensures SafeDb(FoldL(PlanStepFn(bin, fromIso), d, items))
  {
    var planStep := PlanStepFn(bin, fromIso);
    forall t, x | SafeDb(t) ensures SafeDb(planStep(t, x)) {
      PlanStepSafe(bin, fromIso, t, x);
    }
    FoldKeeps(planStep, SafeDb, d, items);
  }

  lemma HistAnnsSafe(bin: string, fromIso: string -> Option<DateTime>, lotsOf: int -> Outcome<Body<LotItem>>, d: Db, items: seq<AnnItem>)
    requires SafeDb(d)
    ensures SafeDb(FoldL(AnnStepFn(bin, fromIso, lotsOf), d, items))
  {
    var annStep := AnnStepFn(bin, fromIso, lotsOf);
    forall t, x | SafeDb(t) ensures SafeDb(annStep(t, x)) {
      AnnStepSafe(bin, fromIso, lotsOf, t, x);
    }
    FoldKeeps(annStep, SafeDb, d, items);
  }

  lemma HistContractsSafe(bin: string, fromIso: string -> Option<DateTime>, unitsOf: int -> Outcome<Body<UnitItem>>, vp: set<int>, va: set<int>,
                          d: Db, items: seq<ContractItem>)
    requires SnapshotSafe(d, vp, va)
    ensures SnapshotSafe(FoldL(ContractStepFn(bin, fromIso, unitsOf, vp, va), d, items), vp, va)
  {
    var contractStep := ContractStepFn(bin, fromIso, unitsOf, vp, va);
    forall t, x | SnapshotSafe(t, vp, va) ensures SnapshotSafe(contractStep(t, x), vp, va) {
      ContractStepSafe(bin, fromIso, unitsOf, vp, va, t, x);
    }
    FoldKeeps(contractStep, (t: Db) => SnapshotSafe(t, vp, va), d, items);
  }


  /** The whole script keeps a safe store safe. */
  lemma {:induction false} BinsLoadedSafe(d: Db, fromIso: string -> Option<DateTime>, feeds: string -> BinFeeds,
                                          bins: seq<string>)
    requires SafeDb(d)
    ensures SafeDb(BinsLoaded(d, fromIso, feeds, bins).db)
    decreases |bins|
  {
    if bins != [] {
      var init := bins[..|bins| - 1];
      BinsLoadedSafe(d, fromIso, feeds, init);
      var p := BinsLoaded(d, fromIso, feeds, init);
      if !p.raised {
        BinLoadedSafe(p.db, bins[|bins| - 1], fromIso, feeds(bins[|bins| - 1]));
      }
    }
  }

  lemma HistoricalSafe(d: Db, fromIso: string -> Option<DateTime>, refs: Stream<RefItem>, feeds: string -> BinFeeds)
    requires SafeDb(d)
    ensures SafeDb(HistoricalLoaded(d, fromIso, refs, feeds))
  {
    RefUnitsSafe(d, refs);
    BinsLoadedSafe(RefUnitsLoaded(d, refs), fromIso, feeds, TargetBins);
  }

  lemma RefUnitsSafe(d: Db, refs: Stream<RefItem>)
    requires SafeDb(d)
    ensures SafeDb(RefUnitsLoaded(d, refs))
  {
    if !refs.raised {
      var ok := (k: string, r: RefRow) => r.code == k;
      InsertNewKeepsAll(d.live.refUnits, refs.items, RefCode, RefUnitRow, ok);
    }
  }

}
