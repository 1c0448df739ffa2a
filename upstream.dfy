/**
 * The records the loaders read from the procurement API, with only the
 * fields they use. A feed is the sequence of items `paginate` yielded and
 * whether the walk ended by raising the client's error, which then
 * propagates into the loader.
 */
module Upstream {
  import opened Wrappers
  import opened Client

  datatype KatoEntry = KatoEntry(refKatoCode: Option<string>)

  datatype PlanItem = PlanItem(id: int, subjectBiin: Option<string>, enstruCode: Option<string>,
                               unitsCode: Option<string>, price: Option<real>, count: Option<real>,
                               amount: Option<real>, dateApproved: Option<string>,
                               indexDate: Option<string>, timestamp: Option<string>,
                               kato: seq<KatoEntry>)

  datatype AnnItem = AnnItem(id: int, numberAnno: Option<string>, nameRu: Option<string>,
                             orgBin: Option<string>, totalSum: Option<real>,
                             publishDate: Option<string>, startDate: Option<string>,
                             endDate: Option<string>, buyStatus: Option<int>)

  datatype LotItem = LotItem(id: int, lotNumber: Option<string>, nameRu: Option<string>,
                             amount: Option<real>, count: Option<real>, customerBin: Option<string>,
                             lotStatus: Option<int>)

  datatype ContractItem = ContractItem(id: int, number: Option<string>, trdBuyId: Option<int>,
                                       crdate: Option<string>, indexDate: Option<string>,
                                       sum: Option<real>, supplierBiin: Option<string>,
                                       customerBin: Option<string>, status: Option<int>)

  datatype UnitItem = UnitItem(id: int, plnPointId: Option<int>, itemPrice: Option<real>,
                               quantity: Option<real>, totalSum: Option<real>)

  /** An entry of a dictionary endpoint (`ref_units`, `ref_kato`). */
  datatype RefItem = RefItem(code: Option<string>, nameRu: Option<string>, nameKz: Option<string>,
                             fullNameRu: Option<string>, fullNameKz: Option<string>)

  /** An object of a single-record endpoint: with an `id` key, or empty / without one. */
  datatype Entry<T> = WithId(rec: T) | NoId

  /** A single-record body: a JSON list of objects, or one object. */
  datatype RecordBody<T> = ListOf(entries: seq<Entry<T>>) | Single(entry: Entry<T>)

  /** `data[0] if isinstance(data, list) and len(data) > 0 else data`, then "has an id". */
  function FirstRecord<T>(b: RecordBody<T>): (r: Option<T>)
    ensures b.Single? ==> (r.Some? <==> b.entry.WithId?)
    ensures b.ListOf? ==> (r.Some? <==> |b.entries| > 0 && b.entries[0].WithId?)
  {
    match b
    case ListOf(es) => if |es| > 0 && es[0].WithId? then Some(es[0].rec) else None
    case Single(e) => if e.WithId? then Some(e.rec) else None
  }

  /** A subject profile (`/v3/subject/biin/{bin}`). */
  datatype Profile = Profile(nameRu: Option<string>, nameKz: Option<string>)

  /** A plan detail body (`/v3/plans/view/{id}`): an object, or a list (which has no `.get`). */
  datatype PlanView = ViewList | ViewObject(nameRu: Option<string>, nameKz: Option<string>)

  /** The items a paginated walk yielded, and whether it ended by raising. */
  datatype Stream<T> = Stream(items: seq<T>, raised: bool)

  /** The feed a loader sees from a walk. */
  function FeedOf<T>(items: seq<T>, end: End): (f: Stream<T>)
    ensures f.items == items && (f.raised <==> end.Raised?)
  {
    Stream(items, end.Raised?)
  }

  /** `items` of a single (non-paginated) GET body. */
  function ItemsOf<T>(o: Outcome<Body<T>>): seq<T>
    requires o.Ok?
  {
    PageItems(o.body)
  }

  /** The items of a single request whose failure is caught and ignored: none when it failed. */
  function Replied<T>(o: Outcome<Body<T>>): (r: seq<T>)
    ensures o.Failed? ==> r == []
    ensures o.Ok? ==> r == ItemsOf(o)
  {
    if o.Ok? then PageItems(o.body) else []
  }
}
