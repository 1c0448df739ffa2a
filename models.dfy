/**
 * The database rows (src/db/models.py, extended with the tables the loaders
 * write) and the store as one map per table, keyed by primary key.
 */
module Models {
  import opened Wrappers
  import opened Dates

  /** A buyer or supplier organisation, keyed by its BIN. */
  datatype Subject = Subject(bin: string, nameRu: Option<string>, nameKz: Option<string>,
                             isCustomer: bool, isSupplier: bool)

  /** An annual plan position (`plans`). */
  datatype PlanPoint = PlanPoint(id: int, subjectBiin: Option<string>, enstruCode: Option<string>,
                                 unitsCode: Option<string>, price: Option<real>, count: Option<real>,
                                 amount: Option<real>, dateApproved: Option<DateTime>,
                                 katoCode: Option<string>)

  /** A procurement announcement (`trd-buy`). */
  datatype Announcement = Announcement(id: int, numberAnno: Option<string>, nameRu: Option<string>,
                                       orgBin: Option<string>, totalSum: Option<real>,
                                       publishDate: Option<DateTime>, startDate: Option<DateTime>,
                                       endDate: Option<DateTime>, buyStatus: Option<int>)

  /** A lot of an announcement. */
  datatype Lot = Lot(id: int, trdBuyId: int, lotNumber: Option<string>, nameRu: Option<string>,
                     amount: Option<real>, count: Option<real>, customerBin: Option<string>,
                     lotStatus: Option<int>)

  /** A contract (`contracts`); `trdBuyId` is the announcement it came from. */
  datatype Contract = Contract(id: int, number: Option<string>, trdBuyId: Option<int>,
                               crdate: Option<DateTime>, sum: Option<real>,
                               supplierBiin: Option<string>, customerBin: Option<string>,
                               status: Option<int>)

  /** A contract line (`contract_units`), pointing at its contract and, optionally, a plan. */
  datatype ContractUnit = ContractUnit(id: int, contractId: int, plnPointId: Option<int>,
                                       itemPrice: Option<real>, quantity: Option<real>,
                                       totalSum: Option<real>)

  /** A dictionary row (units of measure, KATO regions, ENSTRU/KTRU items). */
  datatype RefRow = RefRow(code: string, nameRu: Option<string>, nameKz: Option<string>)

  /** Every table, each a map from primary key to row. */
  datatype Tables = Tables(subjects: map<string, Subject>, plans: map<int, PlanPoint>,
                           announcements: map<int, Announcement>, lots: map<int, Lot>,
                           contracts: map<int, Contract>, units: map<int, ContractUnit>,
                           refUnits: map<string, RefRow>, refKato: map<string, RefRow>,
                           refEnstru: map<string, RefRow>)
  {
    function PutSubject(r: Subject): Tables { this.(subjects := subjects[r.bin := r]) }
    function PutPlan(r: PlanPoint): Tables { this.(plans := plans[r.id := r]) }
    function PutAnnouncement(r: Announcement): Tables { this.(announcements := announcements[r.id := r]) }
    function PutLot(r: Lot): Tables { this.(lots := lots[r.id := r]) }
    function PutContract(r: Contract): Tables { this.(contracts := contracts[r.id := r]) }
    function PutUnit(r: ContractUnit): Tables { this.(units := units[r.id := r]) }
    function PutRefUnit(r: RefRow): Tables { this.(refUnits := refUnits[r.code := r]) }
    function PutRefKato(r: RefRow): Tables { this.(refKato := refKato[r.code := r]) }
    function PutRefEnstru(r: RefRow): Tables { this.(refEnstru := refEnstru[r.code := r]) }
  }

  /** Keys are the rows' own primary keys. */
  predicate Keyed(t: Tables) {
    && (forall k :: k in t.subjects ==> t.subjects[k].bin == k)
    && (forall k :: k in t.plans ==> t.plans[k].id == k)
    && (forall k :: k in t.announcements ==> t.announcements[k].id == k)
    && (forall k :: k in t.lots ==> t.lots[k].id == k)
    && (forall k :: k in t.contracts ==> t.contracts[k].id == k)
    && (forall k :: k in t.units ==> t.units[k].id == k)
    && (forall k :: k in t.refUnits ==> t.refUnits[k].code == k)
    && (forall k :: k in t.refKato ==> t.refKato[k].code == k)
    && (forall k :: k in t.refEnstru ==> t.refEnstru[k].code == k)
  }

  /**
   * The foreign keys: a unit's contract exists and its plan, when set, exists;
   * a contract's announcement, when set, exists; a lot's announcement exists.
   */
  predicate UnitsSafe(t: Tables) {
    forall k :: k in t.units ==>
      t.units[k].contractId in t.contracts
      && (t.units[k].plnPointId.Some? ==> t.units[k].plnPointId.value in t.plans)
  }

  predicate ContractsSafe(t: Tables) {
    forall k :: k in t.contracts ==> t.contracts[k].trdBuyId.Some? ==> t.contracts[k].trdBuyId.value in t.announcements
  }

  predicate LotsSafe(t: Tables) {
    forall k :: k in t.lots ==> t.lots[k].trdBuyId in t.announcements
  }

  predicate Safe(t: Tables) {
    Keyed(t) && UnitsSafe(t) && ContractsSafe(t) && LotsSafe(t)
  }

  /** No write of the loaders removes a row: every key set only grows. */
  predicate Grows(t: Tables, u: Tables) {
    && t.subjects.Keys <= u.subjects.Keys
    && t.plans.Keys <= u.plans.Keys
    && t.announcements.Keys <= u.announcements.Keys
    && t.lots.Keys <= u.lots.Keys
    && t.contracts.Keys <= u.contracts.Keys
    && t.units.Keys <= u.units.Keys
    && t.refUnits.Keys <= u.refUnits.Keys
    && t.refKato.Keys <= u.refKato.Keys
    && t.refEnstru.Keys <= u.refEnstru.Keys
  }

  const Empty := Tables(map[], map[], map[], map[], map[], map[], map[], map[], map[])

  // Each write keeps the store referentially safe when the written row's own
  // references exist; writes never remove a row, so no other reference breaks.

  lemma PutSubjectSafe(t: Tables, r: Subject)
    requires Safe(t)
    ensures Safe(t.PutSubject(r))
  {
  }

  lemma PutPlanSafe(t: Tables, r: PlanPoint)
    requires Safe(t)
    ensures Safe(t.PutPlan(r))
  {
  }

  lemma PutAnnouncementSafe(t: Tables, r: Announcement)
    requires Safe(t)
    ensures Safe(t.PutAnnouncement(r))
  {
  }

  lemma PutLotSafe(t: Tables, r: Lot)
    requires Safe(t) && r.trdBuyId in t.announcements
    ensures Safe(t.PutLot(r))
  {
  }

  lemma PutContractSafe(t: Tables, r: Contract)
    requires Safe(t) && (r.trdBuyId.Some? ==> r.trdBuyId.value in t.announcements)
    ensures Safe(t.PutContract(r))
  {
  }

  lemma PutUnitSafe(t: Tables, r: ContractUnit)
    requires Safe(t) && r.contractId in t.contracts
    requires r.plnPointId.Some? ==> r.plnPointId.value in t.plans
    ensures Safe(t.PutUnit(r))
  {
  }

  lemma PutRefUnitSafe(t: Tables, r: RefRow)
    requires Safe(t)
    ensures Safe(t.PutRefUnit(r))
  {
  }

  lemma PutRefKatoSafe(t: Tables, r: RefRow)
    requires Safe(t)
    ensures Safe(t.PutRefKato(r))
  {
  }

  lemma PutRefEnstruSafe(t: Tables, r: RefRow)
    requires Safe(t)
    ensures Safe(t.PutRefEnstru(r))
  {
  }
}
