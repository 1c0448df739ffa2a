/**
 * `GoszakupClient` (src/etl/client.py): a GET with bounded retries and two
 * exponential back-off schedules, and a cursor walk over `next_page` tokens.
 * The HTTP session is an oracle from attempt (or page) number to reply; the
 * sleeps the client would take are returned as a trace.
 */
module Client {
  import opened Wrappers
  import Text

  // ------------------------------------------------------------- replies

  /**
   * What one `session.get` gives: a response with a status code and a body
   * that either parses as JSON or not, or a transport error (timeout,
   * connection failure) raised as a `RequestException`.
   */
  datatype Reply<J> = Response(status: int, json: Option<J>) | TransportError

  /** The error `get` raises once every attempt failed. */
  datatype FetchError = FetchError(url: string, retries: int)

  datatype Outcome<J> = Ok(body: J) | Failed(err: FetchError)

  const RateLimitPause: real := 0.35
  const DefaultRetries: int := 4
  const PageLimit: int := 200

  function Pow2(n: nat): (r: nat)
    ensures r >= 1
  {
    if n == 0 then 1 else 2 * Pow2(n - 1)
  }

  /**
   * An attempt succeeds when the status is not 429, `raise_for_status` does
   * not raise (it raises for 400..599) and the body is JSON; an invalid body
   * raises a `RequestException` subclass and is retried like any other error.
   */
  predicate Succeeds<J>(r: Reply<J>) {
    r.Response? && r.status != 429 && !(400 <= r.status < 600) && r.json.Some?
  }

  /** The sleep after failed attempt `attempt`: 5·2^attempt after a 429, 3·2^attempt otherwise. */
  function Backoff<J>(attempt: nat, r: Reply<J>): real {
    if r.Response? && r.status == 429 then (Pow2(attempt) * 5) as real else (Pow2(attempt) * 3) as real
  }

  function BackoffTrace<J>(reply: nat -> Reply<J>, n: nat): (t: seq<real>)
    ensures |t| == n
    ensures forall k :: 0 <= k < n ==> t[k] == Backoff(k, reply(k))
  {
    if n == 0 then [] else BackoffTrace(reply, n - 1) + [Backoff(n - 1, reply(n - 1))]
  }

  function MaxZero(n: int): nat { if n < 0 then 0 else n }

  /** `base_url.rstrip('/')`. */
  function StripSlashes(s: string): (r: string)
    ensures |r| <= |s| && r == s[..|r|]
    ensures r == [] || r[|r| - 1] != '/'
    ensures forall i :: |r| <= i < |s| ==> s[i] == '/'
  {
    if s != [] && s[|s| - 1] == '/' then StripSlashes(s[..|s| - 1]) else s
  }

  function Url(baseUrl: string, path: string): string {
    StripSlashes(baseUrl) + path
  }

  /**
   * `get(path, params, max_retries)`: one courtesy pause, then up to
   * `max_retries` attempts; the first successful attempt's JSON is returned,
   * otherwise the call fails naming the URL and the retry count.
   */
  method Get<J>(baseUrl: string, path: string, maxRetries: int, reply: nat -> Reply<J>)
    returns (r: Outcome<J>, sleeps: seq<real>, attempts: nat)
    ensures attempts <= MaxZero(maxRetries)
    ensures r.Ok? ==> attempts >= 1 && Succeeds(reply(attempts - 1)) && r.body == reply(attempts - 1).json.value
    ensures r.Failed? ==> attempts == MaxZero(maxRetries) && r.err == FetchError(Url(baseUrl, path), maxRetries)
    ensures var failed := if r.Ok? then attempts - 1 else attempts;
      (forall k :: 0 <= k < failed ==> !Succeeds(reply(k)))
      && sleeps == [RateLimitPause] + BackoffTrace(reply, failed)
  {
    sleeps := [RateLimitPause];
    var attempt: nat := 0;
    while attempt < maxRetries
      invariant attempt <= MaxZero(maxRetries)
      invariant forall k :: 0 <= k < attempt ==> !Succeeds(reply(k))
      invariant sleeps == [RateLimitPause] + BackoffTrace(reply, attempt)
    {
      var response := reply(attempt);
      if response.Response? && response.status == 429 {
        sleeps := sleeps + [(Pow2(attempt) * 5) as real];
        attempt := attempt + 1;
        continue;
      }
      if Succeeds(response) {
        return Ok(response.json.value), sleeps, attempt + 1;
      }
      sleeps := sleeps + [(Pow2(attempt) * 3) as real];
      attempt := attempt + 1;
    }
    return Failed(FetchError(Url(baseUrl, path), maxRetries)), sleeps, attempt;
  }

  /** With the defaults, a call that keeps failing sleeps 0.35, 3, 6, 12, 24 seconds and gives up. */
  lemma DefaultScheduleOnErrors<J>(reply: nat -> Reply<J>)
    requires forall k :: reply(k) == TransportError
    ensures BackoffTrace(reply, 4) == [3.0, 6.0, 12.0, 24.0]
  {
    assert Pow2(3) == 8;
  }

  // ------------------------------------------------------------ pagination

  /** A query-parameter value. */
  datatype Param = PStr(s: string) | PInt(i: int)

  /** A page body: a bare JSON list, or an object with `items` and `next_page`. */
  datatype Body<T> = Bare(list: seq<T>) | Envelope(items: Option<seq<T>>, nextPage: Option<string>)

  /** The items of a page: the list itself, else `items`, defaulting to none. */
  function PageItems<T>(b: Body<T>): seq<T> {
    match b
    case Bare(l) => l
    case Envelope(items, _) => items.GetOr([])
  }

  /** The follow-up token: only object bodies carry one, and it must be truthy. */
  function NextToken<T>(b: Body<T>): Option<string> {
    if b.Envelope? && b.nextPage.Some? && b.nextPage.value != "" then b.nextPage else None
  }

  /** Why a walk ended. `OutOfPages` is the bound of the model, not of the client. */
  datatype End = EmptyPage | LastPage | Raised(err: FetchError) | OutOfPages

  /** The parameters of the first request: a copy of the caller's with `limit=200`. */
  function FirstParams(params: map<string, Param>): map<string, Param> {
    params["limit" := PInt(PageLimit)]
  }

  /**
   * The walk from page `k` on, with at most `fuel` more requests: the items
   * yielded, the parameters of every request sent, and why it ended.
   */
  function Walk<T>(page: nat -> Outcome<Body<T>>, k: nat, params: map<string, Param>, fuel: nat)
    : (w: (seq<T>, seq<map<string, Param>>, End))
    ensures |w.1| <= fuel
    ensures fuel > 0 ==> |w.1| >= 1 && w.1[0] == params
    decreases fuel
  {
    if fuel == 0 then ([], [], OutOfPages)
    else match page(k)
      case Failed(e) => ([], [params], Raised(e))
      case Ok(b) =>
        var items := PageItems(b);
        if items == [] then ([], [params], EmptyPage)
        else match NextToken(b)
          case None => (items, [params], LastPage)
          case Some(tok) =>
            var rest := Walk(page, k + 1, params["next_page" := PStr(tok)], fuel - 1);
            (items + rest.0, [params] + rest.1, rest.2)
  }

  /**
   * `paginate(path, params)` as a loop: request a page, stop on an error, an
   * empty page or a missing token, otherwise yield its items and follow the
   * token. `maxPages` bounds the model only; the client itself has no bound.
   */
  method Paginate<T>(params: map<string, Param>, page: nat -> Outcome<Body<T>>, maxPages: nat)
    returns (items: seq<T>, requests: seq<map<string, Param>>, end: End)
    ensures (items, requests, end) == Walk(page, 0, FirstParams(params), maxPages)
  {
    var p := FirstParams(params);
    var k: nat, left: nat := 0, maxPages;
    items, requests := [], [];
    ghost var whole := Walk(page, 0, p, maxPages);
    ghost var w := whole;
    assert whole.0 == items + whole.0 && whole.1 == requests + whole.1;
    while true
      invariant w == Walk(page, k, p, left)
      invariant whole.0 == items + w.0 && whole.1 == requests + w.1 && whole.2 == w.2
      decreases left
    {
      if left == 0 {
        assert items + [] == items && requests + [] == requests;
        return items, requests, OutOfPages;
      }
      var reply := page(k);
      ghost var before := requests;
      requests := requests + [p];
      if reply.Failed? {
        assert items + [] == items;
        return items, requests, Raised(reply.err);
      }
      var pageItems := PageItems(reply.body);
      if pageItems == [] {
        assert items + [] == items;
        return items, requests, EmptyPage;
      }
      ghost var earlier := items;
      items := items + pageItems;
      var next := NextToken(reply.body);
      if next.None? {
        return items, requests, LastPage;
      }
      var p' := p["next_page" := PStr(next.value)];
      ghost var rest := Walk(page, k + 1, p', left - 1);
      WalkNext(page, k, p, left, reply.body);
      assert w == (pageItems + rest.0, [p] + rest.1, rest.2);
      Text.ConcatAssoc3(earlier, pageItems, rest.0);
      Text.ConcatAssoc3(before, [p], rest.1);
      p, k, left, w := p', k + 1, left - 1, rest;
    }
  }

  /** A page with items and a token: its items, then the walk from the next page. */
  lemma WalkNext<T>(page: nat -> Outcome<Body<T>>, k: nat, params: map<string, Param>, fuel: nat, b: Body<T>)
    requires fuel > 0 && page(k) == Ok(b) && PageItems(b) != [] && NextToken(b).Some?
    ensures var rest := Walk(page, k + 1, params["next_page" := PStr(NextToken(b).value)], fuel - 1);
      Walk(page, k, params, fuel) == (PageItems(b) + rest.0, [params] + rest.1, rest.2)
  {
  }


  /** The items of pages `k .. k+n-1`, in order; a failed request contributes none. */
  function PagesItems<T>(page: nat -> Outcome<Body<T>>, k: nat, n: nat): seq<T>
    decreases n
  {
    if n == 0 then [] else (if page(k).Ok? then PageItems(page(k).body) else []) + PagesItems(page, k + 1, n - 1)
  }

  /** Every item of every page requested is yielded, in page order. */
  lemma {:induction false} WalkYieldsEveryPage<T>(page: nat -> Outcome<Body<T>>, k: nat, params: map<string, Param>, fuel: nat)
    ensures var w := Walk(page, k, params, fuel); w.0 == PagesItems(page, k, |w.1|)
    decreases fuel
  {
    var w := Walk(page, k, params, fuel);
    if fuel > 0 && page(k).Ok? && PageItems(page(k).body) != [] && NextToken(page(k).body).Some? {
      var tok := NextToken(page(k).body).value;
      WalkYieldsEveryPage(page, k + 1, params["next_page" := PStr(tok)], fuel - 1);
    } else if fuel > 0 {
      assert |w.1| == 1;
      assert PagesItems(page, k + 1, 0) == [];
    }
  }

  /** A page that makes the walk go on: answered, non-empty, with a token. */
  predicate Continues<T>(o: Outcome<Body<T>>) {
    o.Ok? && PageItems(o.body) != [] && NextToken(o.body).Some?
  }

  function TokenOf<T>(o: Outcome<Body<T>>): string {
    if Continues(o) then NextToken(o.body).value else ""
  }

  /**
   * Every request but the last was answered with a non-empty page carrying a
   * token, and the next request is the previous one with `next_page` set to
   * exactly that token.
   */
  predicate FollowsTokens<T>(page: nat -> Outcome<Body<T>>, k: nat, reqs: seq<map<string, Param>>)
    decreases |reqs|
  {
    |reqs| <= 1 ||
    (Continues(page(k)) && reqs[1] == reqs[0]["next_page" := PStr(TokenOf(page(k)))]
     && FollowsTokens(page, k + 1, reqs[1..]))
  }

  lemma {:induction false} WalkFollowsTokens<T>(page: nat -> Outcome<Body<T>>, k: nat, params: map<string, Param>, fuel: nat)
    ensures FollowsTokens(page, k, Walk(page, k, params, fuel).1)
    decreases fuel
  {
    var reqs := Walk(page, k, params, fuel).1;
    if fuel > 0 && Continues(page(k)) {
      var p' := params["next_page" := PStr(TokenOf(page(k)))];
      var r := Walk(page, k + 1, p', fuel - 1).1;
      WalkFollowsTokens(page, k + 1, p', fuel - 1);
      assert reqs == [params] + r;
      assert reqs[1..] == r;
    } else {
      assert |reqs| <= 1;
    }
  }

  /** Why the walk ended is a fact about the last page requested. */
  lemma {:induction false} WalkEnds<T>(page: nat -> Outcome<Body<T>>, k: nat, params: map<string, Param>, fuel: nat)
    ensures var w := Walk(page, k, params, fuel);
      && (w.2 == OutOfPages <==> |w.1| == fuel && (fuel == 0 || Continues(page(k + fuel - 1))))
      && (w.2.Raised? ==> |w.1| >= 1 && page(k + |w.1| - 1) == Failed(w.2.err))
      && (w.2 == EmptyPage ==> |w.1| >= 1 && page(k + |w.1| - 1).Ok? && PageItems(page(k + |w.1| - 1).body) == [])
      && (w.2 == LastPage ==>
            (|w.1| >= 1 && page(k + |w.1| - 1).Ok? && PageItems(page(k + |w.1| - 1).body) != []
             && NextToken(page(k + |w.1| - 1).body).None?))
    decreases fuel
  {
    if fuel > 0 && Continues(page(k)) {
      var p' := params["next_page" := PStr(TokenOf(page(k)))];
      WalkEnds(page, k + 1, p', fuel - 1);
      var r := Walk(page, k + 1, p', fuel - 1);
      assert k + |r.1| == (k + 1) + |r.1| - 1;
      if fuel > 1 {
        assert k + fuel - 1 == (k + 1) + (fuel - 1) - 1;
      }
    }
  }

  /** The `limit=200` parameter and every caller parameter other than the token reach every request. */
  lemma {:induction false} WalkKeepsParams<T>(page: nat -> Outcome<Body<T>>, k: nat, params: map<string, Param>, fuel: nat,
                                             reqs: seq<map<string, Param>>)
    requires reqs == Walk(page, k, params, fuel).1
    ensures forall i, key :: 0 <= i < |reqs| && key in params && key != "next_page" ==> key in reqs[i] && reqs[i][key] == params[key]
    decreases fuel
  {
    if fuel > 0 && Continues(page(k)) {
      var p' := params["next_page" := PStr(TokenOf(page(k)))];
      var r := Walk(page, k + 1, p', fuel - 1).1;
      WalkKeepsParams(page, k + 1, p', fuel - 1, r);
      assert reqs == [params] + r;
      forall i, key | 0 <= i < |reqs| && key in params && key != "next_page"
        ensures key in reqs[i] && reqs[i][key] == params[key]
      {
        if i > 0 {
          assert reqs[i] == r[i - 1];
          assert key in p' && p'[key] == params[key];
        }
      }
    }
  }

  /**
   * Nothing stops a server that keeps answering with the same page and the
   * same token: the walk repeats that page until the model's bound.
   */
  lemma {:induction false} NoRepeatedTokenGuard<T>(page: nat -> Outcome<Body<T>>, k: nat, xs: seq<T>, tok: string,
                                                  params: map<string, Param>, fuel: nat)
    requires xs != [] && tok != ""
    requires forall j :: page(j) == Ok(Envelope(Some(xs), Some(tok)))
    ensures var w := Walk(page, k, params, fuel);
      |w.1| == fuel && |w.0| == fuel * |xs| && w.2 == OutOfPages
    decreases fuel
  {
    if fuel > 0 {
      assert NextToken(page(k).body) == Some(tok);
      NoRepeatedTokenGuard(page, k + 1, xs, tok, params["next_page" := PStr(tok)], fuel - 1);
      assert fuel * |xs| == |xs| + (fuel - 1) * |xs|;
    }
  }

  /** A first request that fails yields nothing and raises. */
  lemma WalkFirstFailure<T>(page: nat -> Outcome<Body<T>>, params: map<string, Param>, fuel: nat, e: FetchError)
    requires fuel > 0 && page(0) == Failed(e)
    ensures Walk(page, 0, params, fuel) == ([], [params], Raised(e))
  {
  }
}
