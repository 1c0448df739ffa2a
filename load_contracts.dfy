/**
 * The full contracts-and-units load (src/etl/load_contracts.py): per BIN
 * every contract of the customer feed is inserted when absent and its units
 * are fetched and inserted when absent, with counters that reset per BIN
 * and a commit whenever their sum is a multiple of 200.
 */
module LoadContracts {
  import opened Wrappers
  import opened Text
  import opened Dates
  import opened Models
  import opened Store
  import opened Client
  import opened Upstream
  import opened Folds
  import opened LoadHistorical

  /** `ALL_BINS`: the same 27 customer BINs as the historical loader's list. */
  const AllBins: seq<string> := TargetBins

  /** The commit period of the combined counter. */
  const BatchSize := 200

  /** The loop's state: the store, `contracts_added`, `units_added`, and whether an exception escaped. */
  datatype Tally = Tally(db: Db, contracts: nat, units: nat, raised: bool)

  /** The row this loader writes: no announcement id, supplier and customer as received. */
  function LoadedContractRow(x: ContractItem): Contract {
    Contract(x.id, x.number, None, StrictDate(x.crdate), x.sum, x.supplierBiin, x.customerBin, x.status)
  }

  /** One unit of a reply: added when its id is non-zero and absent, its plan kept only if in the snapshot. */
  function UnitAdd(contractId: int, valid: set<int>, st: Tally, u: UnitItem): (r: Tally)
    ensures u.id == 0 || u.id in st.db.live.units ==> r == st
    ensures u.id != 0 && u.id !in st.db.live.units ==>
      && r.db == st.db.Write(st.db.live.PutUnit(UnitRow(u, contractId, KeepIfIn(u.plnPointId, valid))))
      && r.units == st.units + 1 && r.contracts == st.contracts && r.raised == st.raised
  {
    if u.id == 0 || u.id in st.db.live.units then st
    else st.(db := st.db.Write(st.db.live.PutUnit(UnitRow(u, contractId, KeepIfIn(u.plnPointId, valid)))),
             units := st.units + 1)
  }

  function UnitAddFn(contractId: int, valid: set<int>): (Tally, UnitItem) -> Tally {
    (st, u) => UnitAdd(contractId, valid, st, u)
  }

  /** The contract itself: added and counted when absent. */
  function ContractAdded(st: Tally, x: ContractItem): (r: Tally)
    ensures x.id in st.db.live.contracts ==> r == st
    ensures x.id !in st.db.live.contracts ==>
      r == st.(db := st.db.Write(st.db.live.PutContract(LoadedContractRow(x))), contracts := st.contracts + 1)
  {
    if x.id in st.db.live.contracts then st
    else st.(db := st.db.Write(st.db.live.PutContract(LoadedContractRow(x))), contracts := st.contracts + 1)
  }

  /**
   * One contract of the feed: nothing once an exception escaped or for id 0;
   * a malformed `crdate` raises; otherwise the contract when absent, its
   * units, and the modulo commit.
   */
  function ContractAdd(valid: set<int>, unitsOf: int -> Outcome<Body<UnitItem>>, st: Tally, x: ContractItem)
    : (r: Tally)
    ensures st.raised || x.id == 0 ==> r == st
    ensures !st.raised && x.id != 0 && BadDate(x.crdate) ==> r == st.(raised := true)
  {
    if st.raised || x.id == 0 then st
    else if BadDate(x.crdate) then st.(raised := true)
    else
      var st2 := FoldL(UnitAddFn(x.id, valid), ContractAdded(st, x), Replied(unitsOf(x.id)));
      if (st2.contracts + st2.units) % BatchSize == 0 then st2.(db := st2.db.Commit()) else st2
  }

  function ContractAddFn(valid: set<int>, unitsOf: int -> Outcome<Body<UnitItem>>): (Tally, ContractItem) -> Tally {
    (st, x) => ContractAdd(valid, unitsOf, st, x)
  }

  /** What the upstream answers for one BIN. */
  datatype ContractFeeds = ContractFeeds(contracts: Stream<ContractItem>, unitsOf: int -> Outcome<Body<UnitItem>>)

  /** One BIN: the counters start at zero; the final commit only when nothing escaped. */
  function BinContractsLoaded(d: Db, valid: set<int>, f: ContractFeeds): Tally {
    var st := FoldL(ContractAddFn(valid, f.unitsOf), Tally(d, 0, 0, false), f.contracts.items);
    if st.raised || f.contracts.raised then st.(raised := true) else st.(db := st.db.Commit())
  }

  /** The BINs in order with one plan-id snapshot; the first exception ends the run. */
  function BinsContractsLoaded(d: Db, valid: set<int>, feeds: string -> ContractFeeds, bins: seq<string>): Run
    decreases |bins|
  {
    if bins == [] then Run(d, false)
    else
      var p := BinsContractsLoaded(d, valid, feeds, bins[..|bins| - 1]);
      if p.raised then p
      else
        var t := BinContractsLoaded(p.db, valid, feeds(bins[|bins| - 1]));
        Run(t.db, t.raised)
  }

  /** `load_contracts_and_units`: the snapshot of every plan id, then the BINs. */
  function ContractsAndUnitsLoaded(d: Db, feeds: string -> ContractFeeds, bins: seq<string>): Run {
    BinsContractsLoaded(d, d.live.plans.Keys, feeds, bins)
  }

  /** The script: all BINs, then the session closed. */
  function ContractsScript(d: Db, feeds: string -> ContractFeeds): Db {
    ContractsAndUnitsLoaded(d, feeds, AllBins).db.Rollback()
  }

  // ---------------------------------------------------------------- methods

  method AddUnits(s: Session, contractId: int, valid: set<int>, units: seq<UnitItem>, contracts: nat, added: nat)
    returns (unitsAdded: nat)
    modifies s
    ensures Tally(s.State(), contracts, unitsAdded, false)
         == FoldL(UnitAddFn(contractId, valid), Tally(old(s.State()), contracts, added, false), units)
  {
    unitsAdded := added;
    var j := 0;
    while j < |units|
      invariant j <= |units|
      invariant Tally(s.State(), contracts, unitsAdded, false)
             == FoldL(UnitAddFn(contractId, valid), Tally(old(s.State()), contracts, added, false), units[..j])
    {
      FoldLast(UnitAddFn(contractId, valid), Tally(old(s.State()), contracts, added, false), units, j);
      var u := units[j];
      if u.id != 0 && u.id !in s.live.units {
        var safePln := KeepIfIn(u.plnPointId, valid);
        s.Write(s.live.PutUnit(UnitRow(u, contractId, safePln)));
        unitsAdded := unitsAdded + 1;
      }
      j := j + 1;
    }
    assert units[..j] == units;
  }

  /** One contract with a non-zero id and a well-formed `crdate`. */
  method LoadContract(s: Session, valid: set<int>, unitsOf: int -> Outcome<Body<UnitItem>>, x: ContractItem,
                      contracts: nat, units: nat) returns (contractsAdded: nat, unitsAdded: nat)
    requires x.id != 0 && !BadDate(x.crdate)
    modifies s
    ensures Tally(s.State(), contractsAdded, unitsAdded, false)
         == ContractAdd(valid, unitsOf, Tally(old(s.State()), contracts, units, false), x)
  {
    contractsAdded, unitsAdded := contracts, units;
    if x.id !in s.live.contracts {
      s.Write(s.live.PutContract(LoadedContractRow(x)));
      contractsAdded := contractsAdded + 1;
    }
    var reply := unitsOf(x.id);
    if reply.Ok? {
      unitsAdded := AddUnits(s, x.id, valid, PageItems(reply.body), contractsAdded, unitsAdded);
    }
    if (contractsAdded + unitsAdded) % BatchSize == 0 {
      s.Commit();
    }
  }

  method LoadContractsForBin(s: Session, valid: set<int>, f: ContractFeeds)
    returns (contractsAdded: nat, unitsAdded: nat, raised: bool)
    modifies s
    ensures Tally(s.State(), contractsAdded, unitsAdded, raised) == BinContractsLoaded(old(s.State()), valid, f)
  {
    contractsAdded, unitsAdded := 0, 0;
    var items := f.contracts.items;
    var start := Tally(s.State(), 0, 0, false);
    var i := 0;
    while i < |items|
      invariant i <= |items|
      invariant Tally(s.State(), contractsAdded, unitsAdded, false) == FoldL(ContractAddFn(valid, f.unitsOf), start, items[..i])
    {
      FoldLast(ContractAddFn(valid, f.unitsOf), start, items, i);
      var x := items[i];
      if x.id != 0 {
        if BadDate(x.crdate) {
          FoldRaisedStays(valid, f.unitsOf, start, items, i + 1);
          return contractsAdded, unitsAdded, true;
        }
        contractsAdded, unitsAdded := LoadContract(s, valid, f.unitsOf, x, contractsAdded, unitsAdded);
      }
      i := i + 1;
    }
    assert items[..i] == items;
    if f.contracts.raised {
      return contractsAdded, unitsAdded, true;
    }
    s.Commit();
    raised := false;
  }

  method LoadContractsAndUnits(s: Session, feeds: string -> ContractFeeds, bins: seq<string>) returns (raised: bool)
    modifies s
    ensures Run(s.State(), raised) == ContractsAndUnitsLoaded(old(s.State()), feeds, bins)
  {
    var validPlanIds := s.live.plans.Keys;
    var i := 0;
    while i < |bins|
      invariant i <= |bins|
      invariant BinsContractsLoaded(old(s.State()), validPlanIds, feeds, bins[..i]) == Run(s.State(), false)
    {
      assert bins[..i + 1][..i] == bins[..i];
      var _, _, r := LoadContractsForBin(s, validPlanIds, feeds(bins[i]));
      if r {
        BinsRaisedStays(old(s.State()), validPlanIds, feeds, bins, i + 1);
        return true;
      }
      i := i + 1;
    }
    assert bins[..i] == bins;
    return false;
  }

  method RunContracts(s: Session, feeds: string -> ContractFeeds)
    modifies s
    ensures s.State() == ContractsScript(old(s.State()), feeds)
  {
    var _ := LoadContractsAndUnits(s, feeds, AllBins);
    s.Rollback();
  }

  lemma {:induction false} FoldRaisedStays(valid: set<int>, unitsOf: int -> Outcome<Body<UnitItem>>, st: Tally,
                                           items: seq<ContractItem>, n: nat)
    requires n <= |items| && FoldL(ContractAddFn(valid, unitsOf), st, items[..n]).raised
    ensures FoldL(ContractAddFn(valid, unitsOf), st, items) == FoldL(ContractAddFn(valid, unitsOf), st, items[..n])
    decreases |items| - n
  {
    if n < |items| {
      assert items[..n + 1][..n] == items[..n];
      FoldLast(ContractAddFn(valid, unitsOf), st, items, n);
      FoldRaisedStays(valid, unitsOf, st, items, n + 1);
    } else {
      assert items[..n] == items;
    }
  }

  lemma {:induction false} BinsRaisedStays(d: Db, valid: set<int>, feeds: string -> ContractFeeds, bins: seq<string>,
                                           n: nat)
    requires n <= |bins| && BinsContractsLoaded(d, valid, feeds, bins[..n]).raised
    ensures BinsContractsLoaded(d, valid, feeds, bins) == BinsContractsLoaded(d, valid, feeds, bins[..n])
    decreases |bins| - n
  {
    if n < |bins| {
      assert bins[..n + 1][..n] == bins[..n];
      BinsRaisedStays(d, valid, feeds, bins, n + 1);
    } else {
      assert bins[..n] == bins;
    }
  }

  // ------------------------------------------------------------- properties

  /** The counters count exactly the rows added since `d`, and no row of `d` is touched. */
  predicate Counted(d: Db, st: Tally) {
    && |st.db.live.contracts| == |d.live.contracts| + st.contracts
    && |st.db.live.units| == |d.live.units| + st.units
    && (forall k :: k in d.live.contracts ==> k in st.db.live.contracts && st.db.live.contracts[k] == d.live.contracts[k])
    && (forall k :: k in d.live.units ==> k in st.db.live.units && st.db.live.units[k] == d.live.units[k])
  }

  lemma ContractAddCounted(valid: set<int>, unitsOf: int -> Outcome<Body<UnitItem>>, d: Db, st: Tally, x: ContractItem)
    requires Counted(d, st)
    ensures Counted(d, ContractAdd(valid, unitsOf, st, x))
  {
    if !st.raised && x.id != 0 && !BadDate(x.crdate) {
      var step := UnitAddFn(x.id, valid);
      forall v: Tally, u: UnitItem | Counted(d, v) ensures Counted(d, step(v, u)) {
      }
      FoldKeeps(step, (v: Tally) => Counted(d, v), ContractAdded(st, x), Replied(unitsOf(x.id)));
    }
  }

  /**
   * `contracts_added` and `units_added` of a BIN equal the number of
   * contracts and units it inserted, and every row stored before is left as
   * it was.
   */
  lemma BinContractsCounted(d: Db, valid: set<int>, f: ContractFeeds)
    ensures Counted(d, BinContractsLoaded(d, valid, f))
  {
    forall st: Tally, x: ContractItem | Counted(d, st) ensures Counted(d, ContractAddFn(valid, f.unitsOf)(st, x)) {
      ContractAddCounted(valid, f.unitsOf, d, st, x);
    }
    FoldKeeps(ContractAddFn(valid, f.unitsOf), (st: Tally) => Counted(d, st), Tally(d, 0, 0, false), f.contracts.items);
  }

  /**
   * A contract that is handled commits exactly when `contracts_added +
   * units_added` is then a multiple of 200, a sum of 0 included; otherwise
   * the committed state is left as it was.
   */
  lemma ContractAddCommits(valid: set<int>, unitsOf: int -> Outcome<Body<UnitItem>>, st: Tally, x: ContractItem)
    requires !st.raised && x.id != 0 && !BadDate(x.crdate)
    ensures var r := ContractAdd(valid, unitsOf, st, x);
      && !r.raised
      && r.db.commits == st.db.commits + (if (r.contracts + r.units) % BatchSize == 0 then 1 else 0)
      && ((r.contracts + r.units) % BatchSize == 0 ==> r.db.durable == r.db.live)
      && ((r.contracts + r.units) % BatchSize != 0 ==> r.db.durable == st.db.durable)
  {
    var step := UnitAddFn(x.id, valid);
    var inv := (v: Tally) => !v.raised && v.db.commits == st.db.commits && v.db.durable == st.db.durable;
    forall v: Tally, u: UnitItem | inv(v) ensures inv(step(v, u)) {
    }
    FoldKeeps(step, inv, ContractAdded(st, x), Replied(unitsOf(x.id)));
  }

  /** A contract handled: it is stored with every unit of its reply that has a non-zero id. */
  predicate ContractLoaded(unitsOf: int -> Outcome<Body<UnitItem>>, t: Tables, x: ContractItem) {
    x.id in t.contracts && forall u :: u in Replied(unitsOf(x.id)) && u.id != 0 ==> u.id in t.units
  }

  predicate ContractSettled(unitsOf: int -> Outcome<Body<UnitItem>>, st: Tally, x: ContractItem) {
    st.raised || x.id == 0 || ContractLoaded(unitsOf, st.db.live, x)
  }

  /** A step never removes a row and never clears the exception. */
  lemma ContractAddGrows(valid: set<int>, unitsOf: int -> Outcome<Body<UnitItem>>, st: Tally, x: ContractItem)
    ensures Grows(st.db.live, ContractAdd(valid, unitsOf, st, x).db.live)
    ensures st.raised ==> ContractAdd(valid, unitsOf, st, x).raised
    ensures ContractSettled(unitsOf, ContractAdd(valid, unitsOf, st, x), x)
  {
    if !st.raised && x.id != 0 && !BadDate(x.crdate) {
      var step := UnitAddFn(x.id, valid);
      var st1 := ContractAdded(st, x);
      var inv := (v: Tally) => Grows(st.db.live, v.db.live) && x.id in v.db.live.contracts && !v.raised;
      FoldKeeps(step, inv, st1, Replied(unitsOf(x.id)));
      FoldSettles(step, (v: Tally, u: UnitItem) => u.id == 0 || u.id in v.db.live.units, st1, Replied(unitsOf(x.id)));
    }
  }

  /** When no exception escapes, every contract of the feed with an id is stored with all of its units. */
  lemma BinContractsComplete(d: Db, valid: set<int>, f: ContractFeeds)
    requires !BinContractsLoaded(d, valid, f).raised
    ensures forall x :: x in f.contracts.items && x.id != 0 ==> ContractLoaded(f.unitsOf, BinContractsLoaded(d, valid, f).db.live, x)
  {
    var step := ContractAddFn(valid, f.unitsOf);
    forall t: Tally, x: ContractItem ensures ContractSettled(f.unitsOf, step(t, x), x) {
      ContractAddGrows(valid, f.unitsOf, t, x);
    }
    forall t: Tally, x: ContractItem, y: ContractItem | ContractSettled(f.unitsOf, t, y)
      ensures ContractSettled(f.unitsOf, step(t, x), y)
    {
      ContractAddGrows(valid, f.unitsOf, t, x);
    }
    FoldSettles(step, (t: Tally, x: ContractItem) => ContractSettled(f.unitsOf, t, x), Tally(d, 0, 0, false), f.contracts.items);
  }

  /** Over contracts already loaded, the steps insert nothing and raise nothing. */
  lemma {:induction false} ReloadAddsNothing(valid: set<int>, unitsOf: int -> Outcome<Body<UnitItem>>, d: Db,
                                             items: seq<ContractItem>)
    requires forall x :: x in items && x.id != 0 ==> !BadDate(x.crdate) && ContractLoaded(unitsOf, d.live, x)
    ensures var r := FoldL(ContractAddFn(valid, unitsOf), Tally(d, 0, 0, false), items);
      r.db.live == d.live && r.contracts == 0 && r.units == 0 && !r.raised
    decreases |items|
  {
    if items != [] {
      var init := items[..|items| - 1];
      var x := items[|items| - 1];
      assert forall y :: y in init ==> y in items;
      ReloadAddsNothing(valid, unitsOf, d, init);
      var st := FoldL(ContractAddFn(valid, unitsOf), Tally(d, 0, 0, false), init);
      if x.id != 0 {
        UnitsUnchanged(x.id, valid, st, Replied(unitsOf(x.id)), d.live);
      }
    }
  }

  /** Units already stored leave the state as it was. */
  lemma {:induction false} UnitsUnchanged(contractId: int, valid: set<int>, st: Tally, units: seq<UnitItem>, t: Tables)
    requires st.db.live == t && st.contracts == 0 && st.units == 0 && !st.raised
    requires forall u :: u in units && u.id != 0 ==> u.id in t.units
    ensures FoldL(UnitAddFn(contractId, valid), st, units) == st
    decreases |units|
  {
    if units != [] {
      assert forall u :: u in units[..|units| - 1] ==> u in units;
      UnitsUnchanged(contractId, valid, st, units[..|units| - 1], t);
      assert units[|units| - 1] in units;
    }
  }

  /** A second run of the same BIN right after a clean one inserts nothing and counts nothing. */
  lemma BinContractsReloadAddsNothing(d: Db, valid: set<int>, f: ContractFeeds)
    requires !BinContractsLoaded(d, valid, f).raised
    ensures var r := BinContractsLoaded(d, valid, f);
      var r2 := BinContractsLoaded(r.db, valid, f);
      r2.db.live == r.db.live && r2.contracts == 0 && r2.units == 0 && !r2.raised
  {
    var r := BinContractsLoaded(d, valid, f);
    BinContractsComplete(d, valid, f);
    FoldRaisedFree(valid, f.unitsOf, Tally(d, 0, 0, false), f.contracts.items);
    ReloadAddsNothing(valid, f.unitsOf, r.db, f.contracts.items);
  }

  /** A run that raised nothing met no malformed `crdate` on a contract with an id. */
  lemma {:induction false} FoldRaisedFree(valid: set<int>, unitsOf: int -> Outcome<Body<UnitItem>>, st: Tally,
                                          items: seq<ContractItem>)
    requires !FoldL(ContractAddFn(valid, unitsOf), st, items).raised
    ensures forall x :: x in items && x.id != 0 ==> !BadDate(x.crdate)
    decreases |items|
  {
    if items != [] {
      var init := items[..|items| - 1];
      var pre := FoldL(ContractAddFn(valid, unitsOf), st, init);
      ContractAddGrows(valid, unitsOf, pre, items[|items| - 1]);
      FoldRaisedFree(valid, unitsOf, st, init);
      forall x | x in items && x.id != 0 ensures !BadDate(x.crdate) {
        if x != items[|items| - 1] {
          assert x in init;
        }
      }
    }
  }

  /** What the run keeps: a safe store whose plan-id snapshot names stored plans. */
  predicate LoadSafe(st: Tally, valid: set<int>) {
    SafeDb(st.db) && valid <= st.db.live.plans.Keys
  }

  lemma ContractAddSafe(valid: set<int>, unitsOf: int -> Outcome<Body<UnitItem>>, st: Tally, x: ContractItem)
    requires LoadSafe(st, valid)
    ensures LoadSafe(ContractAdd(valid, unitsOf, st, x), valid)
  {
    if !st.raised && x.id != 0 && !BadDate(x.crdate) {
      if x.id !in st.db.live.contracts {
        PutContractSafe(st.db.live, LoadedContractRow(x));
      }
      var st1 := ContractAdded(st, x);
      UnitPassSafe(x.id, valid, st1, Replied(unitsOf(x.id)));
      var st2 := FoldL(UnitAddFn(x.id, valid), st1, Replied(unitsOf(x.id)));
      CommitKeepsSafe(st2.db);
    }
  }

  /** The units of a stored contract keep the session safe. */
  lemma UnitPassSafe(id: int, valid: set<int>, st: Tally, items: seq<UnitItem>)
    requires LoadSafe(st, valid) && id in st.db.live.contracts
    ensures LoadSafe(FoldL(UnitAddFn(id, valid), st, items), valid)
  {
    var step := UnitAddFn(id, valid);
    var inv := (v: Tally) => LoadSafe(v, valid) && id in v.db.live.contracts;
    forall v: Tally, u: UnitItem | inv(v) ensures inv(step(v, u)) {
      if u.id != 0 && u.id !in v.db.live.units {
        PutUnitSafe(v.db.live, UnitRow(u, id, KeepIfIn(u.plnPointId, valid)));
      }
    }
    FoldKeeps(step, inv, st, items);
  }


  /** A plan snapshot of stored plans keeps every unit's references resolvable. */
  lemma BinContractsSafe(d: Db, valid: set<int>, f: ContractFeeds)
    requires SafeDb(d) && valid <= d.live.plans.Keys
    ensures SafeDb(BinContractsLoaded(d, valid, f).db) && valid <= BinContractsLoaded(d, valid, f).db.live.plans.Keys
  {
    var step := ContractAddFn(valid, f.unitsOf);
    forall st: Tally, x: ContractItem | LoadSafe(st, valid) ensures LoadSafe(step(st, x), valid) {
      ContractAddSafe(valid, f.unitsOf, st, x);
    }
    FoldKeeps(step, (st: Tally) => LoadSafe(st, valid), Tally(d, 0, 0, false), f.contracts.items);
  }

  lemma {:induction false} BinsContractsSafe(d: Db, valid: set<int>, feeds: string -> ContractFeeds, bins: seq<string>)
    requires SafeDb(d) && valid <= d.live.plans.Keys
    ensures SafeDb(BinsContractsLoaded(d, valid, feeds, bins).db)
    ensures valid <= BinsContractsLoaded(d, valid, feeds, bins).db.live.plans.Keys
    decreases |bins|
  {
    if bins != [] {
      BinsContractsSafe(d, valid, feeds, bins[..|bins| - 1]);
      var p := BinsContractsLoaded(d, valid, feeds, bins[..|bins| - 1]);
      if !p.raised {
        BinContractsSafe(p.db, valid, feeds(bins[|bins| - 1]));
      }
    }
  }

  /** The whole script keeps a safe store safe. */
  lemma ContractsScriptSafe(d: Db, feeds: string -> ContractFeeds)
    requires SafeDb(d)
    ensures SafeDb(ContractsScript(d, feeds))
  {
    BinsContractsSafe(d, d.live.plans.Keys, feeds, AllBins);
  }
}
