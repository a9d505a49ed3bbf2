/** The market snapshot of lookup_prices.py: it walks the
    `/commerce/prices` pages, turns every record into a Listing, retries
    from the page that failed, and finally adds the listings to the store,
    each in a nested transaction of its own, skipping those whose item is
    not stored. */
module LookupPrices {
  import opened Json
  import opened Database
  import opened Connector
  import opened Pager

  /** `PAGE_SIZE` of lookup_prices.py. */
  const PricePageSize: nat := 200

  // ---------------------------------------------------------------------
  // One page

  /** What a run depends on: the connector, the HTTP oracle, the number of
      requests made before the first page (the page-bound probe),
      `g_max_page`, and the clock reading the listings are stamped with. */
  datatype Env = Env(conn: Connector, api: Api, first: nat, maxPage: nat, now: int)

  /** What a run has gathered: the pages it requested (one HTTP request
      each, in order) and `g_listings`. */
  datatype Progress = Progress(requested: seq<nat>, listings: seq<Listing>)

  /** The URL of `connector.get('commerce', 'prices', params={'page': p, 'page_size': PAGE_SIZE})`. */
  function PageUrl(env: Env, p: nat): string {
    env.conn.UrlFor(["commerce", "prices"], [("page", PInt(p)), ("page_size", PInt(PricePageSize))])
  }

  /** `Listing.create` as a function value. */
  function MakeListing(now: int): Json -> Result<Listing> {
    k => CreateListing(k, now)
  }

  /** `[Listing.create(k) for k in data]` */
  function ListingsOf(data: Json, now: int): Result<seq<Listing>> {
    match Iterate(data)
    case Err(e) => Err(e)
    case Ok(recs) => MapAll(MakeListing(now), recs)
  }

  /** A page body that can be iterated gives one listing per record, in
      order, and fails exactly when some record lacks one of its four
      numbers. */
  lemma ListingsOfRecords(data: Json, now: int)
    requires Iterate(data).Ok?
    ensures ListingsOf(data, now).Ok? <==>
              forall i :: 0 <= i < |Iterate(data).value| ==> PricesReadable(Iterate(data).value[i])
    ensures ListingsOf(data, now).Ok? ==> |ListingsOf(data, now).value| == |Iterate(data).value|
    ensures ListingsOf(data, now).Ok? ==>
              forall i :: 0 <= i < |Iterate(data).value| ==>
                CreateListing(Iterate(data).value[i], now) == Ok(ListingsOf(data, now).value[i])
  {
    var recs := Iterate(data).value;
    if ListingsOf(data, now).Ok? {
      forall i | 0 <= i < |recs| ensures CreateListing(recs[i], now) == Ok(ListingsOf(data, now).value[i]) {
        MapAllAt(MakeListing(now), recs, i);
      }
    }
  }

  /** What the loop body does with the response to the request for `page`.
      The comprehension is built in full before `+=`, so a page that raises
      appends nothing. */
  function Absorb(st: Progress, page: nat, resp: Result<Json>, now: int): (r: (Progress, bool))
    ensures r.0.requested == st.requested + [page]
    ensures r.1 <==> resp.Ok? && ListingsOf(resp.value, now).Ok?
    ensures r.1 ==> r.0.listings == st.listings + ListingsOf(resp.value, now).value
    ensures !r.1 ==> r.0.listings == st.listings
  {
    var asked := st.requested + [page];
    match resp
    case Err(_) => (st.(requested := asked), false)
    case Ok(data) =>
      match ListingsOf(data, now)
      case Err(_) => (st.(requested := asked), false)
      case Ok(rows) => (Progress(asked, st.listings + rows), true)
  }

  // ---------------------------------------------------------------------
  // The pager

  /** Requests are numbered from `first` in the order they are made. */
  function RequestNumber(env: Env, st: Progress): nat {
    env.first + |st.requested|
  }

  /** The request of one turn of `update`. */
  function Fetch(env: Env): (Progress, nat) -> Result<Json> {
    (st: Progress, p: nat) => Request(env.api, RequestNumber(env, st), PageUrl(env, p))
  }

  function AbsorbTurn(now: int): (Progress, nat, Result<Json>) -> (Progress, bool) {
    (st: Progress, p: nat, resp: Result<Json>) => Absorb(st, p, resp, now)
  }

  /** One turn of the loop of `update`, as a function value for the pager. */
  function Step(env: Env): (Progress, nat) -> (Progress, bool) {
    Turn(Fetch(env), AbsorbTurn(env.now))
  }

  function Log(): Progress -> seq<nat> {
    (st: Progress) => st.requested
  }

  lemma StepLogs(env: Env)
    ensures Logs(Step(env), Log())
  {
    TurnLogs(Fetch(env), AbsorbTurn(env.now), Log());
  }

  /** The listings page `p` contributes once it completes: the body the API
      serves for its URL, turned into listings. A page whose records cannot
      be read never completes and contributes nothing. */
  function PageRows(env: Env): nat -> seq<Listing> {
    (p: nat) =>
      match ListingsOf(env.api.body(PageUrl(env, p)), env.now)
      case Ok(rows) => rows
      case Err(_) => []
  }

  /** The listings of pages `0 .. n - 1`, each page once, in page order. */
  function Collected(env: Env, n: nat): seq<Listing> {
    Concat(PageRows(env), n)
  }

  /** `g_listings` is `base` followed by the listings of the pages before `p`. */
  ghost function HoldsPages(env: Env, base: seq<Listing>): (Progress, nat) -> bool {
    (st: Progress, p: nat) => st.listings == base + Collected(env, p)
  }

  /** A turn that completes page `p` appends exactly that page's listings;
      one that fails appends nothing. */
  lemma AbsorbAppends(env: Env, st: Progress, p: nat, resp: Result<Json>)
    requires resp.Ok? ==> resp.value == env.api.body(PageUrl(env, p))
    ensures Absorb(st, p, resp, env.now).1 ==> Absorb(st, p, resp, env.now).0.listings == st.listings + PageRows(env)(p)
    ensures !Absorb(st, p, resp, env.now).1 ==> Absorb(st, p, resp, env.now).0.listings == st.listings
  {
  }

  lemma AbsorbAdvances(env: Env, base: seq<Listing>, st: Progress, p: nat, resp: Result<Json>)
    requires st.listings == base + Collected(env, p)
    requires resp.Ok? ==> resp.value == env.api.body(PageUrl(env, p))
    ensures Absorb(st, p, resp, env.now).0.listings == base + Collected(env, After(p, Absorb(st, p, resp, env.now).1))
  {
    var r := Absorb(st, p, resp, env.now);
    AbsorbAppends(env, st, p, resp);
    if r.1 {
      ConcatOnto(PageRows(env), base, p, st.listings);
    }
  }

  lemma StepAdvances(env: Env, base: seq<Listing>)
    ensures Advances(Step(env), HoldsPages(env, base), env.maxPage + 1)
  {
    forall st: Progress, p: nat | p < env.maxPage + 1 && HoldsPages(env, base)(st, p)
      ensures HoldsPages(env, base)(Step(env)(st, p).0, After(p, Step(env)(st, p).1))
    {
      TurnAt(Fetch(env), AbsorbTurn(env.now), st, p);
      assert Fetch(env)(st, p) == Request(env.api, RequestNumber(env, st), PageUrl(env, p));
      AbsorbAdvances(env, base, st, p, Fetch(env)(st, p));
    }
  }

  /** What keep_trying promises: the pages requested start at page 0 and
      restart from exactly the page that failed; and `g_listings` gains the
      listings of the pages before the page it stopped at, each page once
      and in page order, so a finished run has gathered every page
      `0 .. g_max_page` exactly once. */
  lemma KeepTryingGathers(env: Env, st: Progress, fuel: nat)
    ensures st.requested < Pager.KeepTrying(Step(env), env.maxPage, st, fuel).0.requested
    ensures Walk(Pager.KeepTrying(Step(env), env.maxPage, st, fuel).0.requested[|st.requested|..], env.maxPage)
    ensures Pager.KeepTrying(Step(env), env.maxPage, st, fuel).1.None? ==>
              Pager.KeepTrying(Step(env), env.maxPage, st, fuel).0.listings
              == st.listings + Collected(env, env.maxPage + 1)
    ensures Pager.KeepTrying(Step(env), env.maxPage, st, fuel).1.Some? ==>
              Pager.KeepTrying(Step(env), env.maxPage, st, fuel).0.listings
              == st.listings + Collected(env, Pager.KeepTrying(Step(env), env.maxPage, st, fuel).1.value)
  {
    StepLogs(env);
    KeepTryingWalk(Step(env), Log(), env.maxPage, st, fuel);
    StepAdvances(env, st.listings);
    assert HoldsPages(env, st.listings)(st, 0);
    KeepTryingAdvance(Step(env), HoldsPages(env, st.listings), env.maxPage, st, fuel);
  }

  /** A page whose records cannot all be turned into listings fails on
      every attempt, whatever the transport does, so keep_trying never
      finishes: the script retries that page for ever. */
  lemma UnreadablePageStalls(env: Env, st: Progress, fuel: nat, p: nat)
    requires p <= env.maxPage
    requires ListingsOf(env.api.body(PageUrl(env, p)), env.now).Err?
    ensures Pager.KeepTrying(Step(env), env.maxPage, st, fuel).1.Some?
    ensures Pager.KeepTrying(Step(env), env.maxPage, st, fuel).1.value <= p
  {
    forall s: Progress ensures !Step(env)(s, p).1 {
      TurnAt(Fetch(env), AbsorbTurn(env.now), s, p);
      assert Fetch(env)(s, p) == Request(env.api, RequestNumber(env, s), PageUrl(env, p));
    }
    KeepTryingStuck(Step(env), env.maxPage, st, fuel, p);
  }

  // ---------------------------------------------------------------------
  // The insert

  /** A listing the foreign key refuses: its `item_id` is set and is not
      the id of a stored item (a NULL key is never checked). */
  predicate Orphan(parents: set<Json>, l: Listing) {
    l.itemId != Null && l.itemId !in parents
  }

  /** The tests and projections of the insert loop, as function values. */
  function Placed(parents: set<Json>): Listing -> bool { l => !Orphan(parents, l) }
  function Dangling(parents: set<Json>): Listing -> bool { l => Orphan(parents, l) }
  function Whole(): Listing -> Listing { l => l }
  function IdOfListing(): Listing -> Json { (l: Listing) => l.itemId }

  /** The listings `insert` adds, in their order. */
  function Admitted(parents: set<Json>, ls: seq<Listing>): seq<Listing> {
    Filtered(Placed(parents), Whole(), ls)
  }

  /** The `item_id`s `insert` reports as skipped, in order. */
  function Skipped(parents: set<Json>, ls: seq<Listing>): seq<Json> {
    Filtered(Dangling(parents), IdOfListing(), ls)
  }

  /** Adding some listing raises an error that is not an IntegrityError. */
  predicate Refused(rejects: Listing -> bool, ls: seq<Listing>) {
    exists i :: 0 <= i < |ls| && rejects(ls[i])
  }

  /** Every listing is either added or skipped: the added ones are exactly
      those with a stored item (or none), the skipped ids are exactly the
      ids of the others. */
  lemma AdmittedPartition(parents: set<Json>, ls: seq<Listing>)
    ensures |Admitted(parents, ls)| + |Skipped(parents, ls)| == |ls|
    ensures forall l :: l in Admitted(parents, ls) <==> l in ls && !Orphan(parents, l)
    ensures forall id :: id in Skipped(parents, ls) <==>
              exists i :: 0 <= i < |ls| && Orphan(parents, ls[i]) && ls[i].itemId == id
  {
    FilteredSplit(Placed(parents), Dangling(parents), Whole(), IdOfListing(), ls);
    FilteredMembers(Placed(parents), Whole(), ls);
    FilteredMembers(Dangling(parents), IdOfListing(), ls);
  }

  /** The added listings keep their relative order: inserting a
      concatenation adds the first part's listings, then the second's. */
  lemma AdmittedAppend(parents: set<Json>, a: seq<Listing>, b: seq<Listing>)
    ensures Admitted(parents, a + b) == Admitted(parents, a) + Admitted(parents, b)
    ensures Skipped(parents, a + b) == Skipped(parents, a) + Skipped(parents, b)
  {
    FilteredAppend(Placed(parents), Whole(), a, b);
    FilteredAppend(Dangling(parents), IdOfListing(), a, b);
  }

  /** A finished run adds the listings page by page. */
  lemma AdmittedByPage(env: Env, parents: set<Json>, n: nat)
    ensures Admitted(parents, Collected(env, n + 1))
         == Admitted(parents, Collected(env, n)) + Admitted(parents, PageRows(env)(n))
  {
    ConcatNext(PageRows(env), n);
    AdmittedAppend(parents, Collected(env, n), PageRows(env)(n));
  }

  /** The `listings` table, whose primary key the store assigns, and what
      the store checks a new row against: the ids in the `items` table,
      whose foreign key is the table's only constraint and so the only
      source of IntegrityError, and `rejects`, the rows whose add raises
      any other error (a database fault, a value a column refuses); and
      `fails`, whether the final `session.commit()` raises. */
  class ListingStore {
    var rows: seq<Listing>
    const parents: set<Json>
    const rejects: Listing -> bool
    const fails: bool

    constructor (rows: seq<Listing>, parents: set<Json>, rejects: Listing -> bool, fails: bool)
      ensures this.rows == rows && this.parents == parents && this.rejects == rejects
      ensures this.fails == fails
    {
      this.rows := rows;
      this.parents := parents;
      this.rejects := rejects;
      this.fails := fails;
    }
  }

  // ---------------------------------------------------------------------
  // The script's state and operations

  /** The module state of lookup_prices.py once `g_max_page` is known:
      `g_listings` and the pages requested so far. */
  class LookupRun {
    const env: Env
    var requested: seq<nat>
    var listings: seq<Listing>

    function State(): Progress reads this {
      Progress(requested, listings)
    }

    /** `g_listings = []` */
    constructor (env: Env)
      ensures this.env == env
      ensures State() == Progress([], [])
    {
      this.env := env;
      requested := [];
      listings := [];
    }

    /** `update(min_page)`. */
    method Update(minPage: nat) returns (failed: Option<nat>)
      modifies this
      ensures (State(), failed) == Pages(Step(env), old(State()), minPage, env.maxPage + 1)
    {
      var page := minPage;
      while page <= env.maxPage
        invariant minPage <= page
        invariant Pages(Step(env), old(State()), minPage, env.maxPage + 1)
               == Pages(Step(env), State(), page, env.maxPage + 1)
        decreases env.maxPage + 1 - page
      {
        ghost var before := State();
        var ok := FetchPage(page);
        PagesAt(Step(env), before, page, env.maxPage + 1);
        if !ok {
          return Some(page);
        }
        page := page + 1;
      }
      return None;
    }

    /** The `try` block of `update` for one page: request it, then absorb
        the response. */
    method FetchPage(page: nat) returns (ok: bool)
      modifies this
      ensures (State(), ok) == Step(env)(old(State()), page)
    {
      ghost var before := State();
      var params := new Params([("page", PInt(page)), ("page_size", PInt(PricePageSize))]);
      var url := env.conn.CompleteUrl(["commerce", "prices"], params);
      assert url == PageUrl(env, page);
      var resp := Request(env.api, RequestNumber(env, State()), url);
      ok := Take(page, resp);
      TurnAt(Fetch(env), AbsorbTurn(env.now), before, page);
    }

    /** `g_listings += [Listing.create(k) for k in data]`; any exception
        ends the turn with `ok` false. */
    method Take(page: nat, resp: Result<Json>) returns (ok: bool)
      modifies this
      ensures (State(), ok) == Absorb(old(State()), page, resp, env.now)
    {
      requested := requested + [page];
      ok := false;
      if resp.Ok? {
        var made := ListingsOf(resp.value, env.now);
        if made.Ok? {
          listings := listings + made.value;
          ok := true;
        }
      }
    }

    /** One pass of the retry loop: `update` from the page that failed. */
    method RetryOnce(from: Option<nat>, left: nat) returns (failed: Option<nat>)
      requires from.Some? && left > 0
      modifies this
      ensures Resume(Step(env), env.maxPage, (State(), failed), left - 1)
           == Resume(Step(env), env.maxPage, (old(State()), from), left)
    {
      failed := Update(from.value);
    }

    /** The loop `while page is not None: page = update(page)` of
        `keep_trying()`, for at most `fuel` more calls of update. */
    method Retry(from: Option<nat>, fuel: nat) returns (failed: Option<nat>)
      modifies this
      ensures (State(), failed) == Resume(Step(env), env.maxPage, (old(State()), from), fuel)
    {
      ghost var goal := Resume(Step(env), env.maxPage, (State(), from), fuel);
      failed := from;
      var left := fuel;
      while failed.Some? && left > 0
        invariant Resume(Step(env), env.maxPage, (State(), failed), left) == goal
        decreases left
      {
        failed := RetryOnce(failed, left);
        left := left - 1;
      }
      ResumeStops(Step(env), env.maxPage, (State(), failed), left);
    }

    /** `keep_trying()`, giving up after `fuel` retries; None when every
        page has been gathered. */
    method KeepTrying(fuel: nat) returns (failed: Option<nat>)
      modifies this
      ensures (State(), failed) == Pager.KeepTrying(Step(env), env.maxPage, old(State()), fuel)
      ensures failed.None? ==> listings == old(listings) + Collected(env, env.maxPage + 1)
    {
      ghost var start := State();
      failed := Update(0);
      failed := Retry(failed, fuel);
      KeepTryingGathers(env, start, fuel);
    }

    /** `insert()`: each listing is added in a savepoint of its own. A
        listing whose item is not stored fails with IntegrityError; its
        savepoint is rolled back and its id reported. Any error that is not
        an IntegrityError is re-raised before the single commit, and the
        commit itself can raise; either way nothing is committed. */
    method Insert(store: ListingStore) returns (r: Result<seq<Json>>)
      modifies store
      ensures Refused(store.rejects, listings) ==> r == Err(DatabaseError) && store.rows == old(store.rows)
      ensures !Refused(store.rejects, listings) && store.fails ==>
                r == Err(DatabaseError) && store.rows == old(store.rows)
      ensures !Refused(store.rejects, listings) && !store.fails ==>
                && r == Ok(Skipped(store.parents, listings))
                && store.rows == old(store.rows) + Admitted(store.parents, listings)
    {
      var staged: seq<Listing> := [];
      var skipped: seq<Json> := [];
      var i := 0;
      while i < |listings|
        invariant 0 <= i <= |listings|
        invariant staged == Admitted(store.parents, listings[..i])
        invariant skipped == Skipped(store.parents, listings[..i])
        invariant !Refused(store.rejects, listings[..i])
      {
        var l := listings[i];
        assert listings[..i + 1][..i] == listings[..i];
        if store.rejects(l) {
          return Err(DatabaseError);
        }
        if Orphan(store.parents, l) {
          skipped := skipped + [l.itemId];
        } else {
          staged := staged + [l];
        }
        i := i + 1;
      }
      assert listings[..|listings|] == listings;
      if store.fails {
        return Err(DatabaseError);
      }
      store.rows := store.rows + staged;
      return Ok(skipped);
    }
  }

  // ---------------------------------------------------------------------
  // The script

  /** The probe behind `g_max_page`, made at import time as request number 0. */
  function MaxPageOf(conn: Connector, api: Api): Result<nat> {
    conn.MaxPageAt(api, 0, ["commerce", "prices"])
  }

  /** What `keep_trying()` gathers from the empty `g_listings`. */
  function Gather(env: Env, fuel: nat): (Progress, Option<nat>) {
    Pager.KeepTrying(Step(env), env.maxPage, Progress([], []), fuel)
  }

  /** The script: probe `g_max_page`, gather with `keep_trying()` (giving
      up after `fuel` retries), then `insert()`. It gives up exactly when
      gathering does, and crashes when the probe fails or when some
      gathered listing makes the store raise an error other than
      IntegrityError, or when the final commit fails. When it finishes, the store has gained, in order, the
      listings of every page that have a stored item, and the others are
      reported; otherwise it has not changed. */
  method Run(conn: Connector, api: Api, now: int, fuel: nat, store: ListingStore) returns (out: Outcome<seq<Json>>)
    requires conn.apiUrl == BaseUrl + DefaultVersion  // `Connector(API_KEY)`, version v2
    modifies store
    ensures MaxPageOf(conn, api).Err? ==> out == Crashed(MaxPageOf(conn, api).error)
    ensures MaxPageOf(conn, api).Ok? ==>
              var env := Env(conn, api, 1, MaxPageOf(conn, api).value, now);
              && (out.GaveUp? <==> Gather(env, fuel).1.Some?)
              && (out.GaveUp? ==> out.page == Gather(env, fuel).1.value)
              && (out.Done? <==> Gather(env, fuel).1.None? && !Refused(store.rejects, Collected(env, env.maxPage + 1)) && !store.fails)
              && (out == Crashed(DatabaseError) <==>
                    Gather(env, fuel).1.None? && (Refused(store.rejects, Collected(env, env.maxPage + 1)) || store.fails))
    ensures !out.Done? ==> store.rows == old(store.rows)
    ensures out.Done? ==>
              && MaxPageOf(conn, api).Ok?
              && var env := Env(conn, api, 1, MaxPageOf(conn, api).value, now);
              && out.value == Skipped(store.parents, Collected(env, env.maxPage + 1))
              && store.rows == old(store.rows) + Admitted(store.parents, Collected(env, env.maxPage + 1))
  {
    var m := conn.GetMaxPage(api, 0, ["commerce", "prices"]);
    if m.Err? {
      return Crashed(m.error);
    }
    out := GatherAndInsert(Env(conn, api, 1, m.value, now), fuel, store);
  }

  /** `if keep_trying(): insert()`, once `g_max_page` is known. */
  method GatherAndInsert(env: Env, fuel: nat, store: ListingStore) returns (out: Outcome<seq<Json>>)
    modifies store
    ensures out.GaveUp? <==> Gather(env, fuel).1.Some?
    ensures out.GaveUp? ==> out.page == Gather(env, fuel).1.value
    ensures out.Done? <==> Gather(env, fuel).1.None? && !Refused(store.rejects, Collected(env, env.maxPage + 1)) && !store.fails
    ensures out == Crashed(DatabaseError) <==>
              Gather(env, fuel).1.None? && (Refused(store.rejects, Collected(env, env.maxPage + 1)) || store.fails)
    ensures !out.Done? ==> store.rows == old(store.rows)
    ensures out.Done? ==>
              && out.value == Skipped(store.parents, Collected(env, env.maxPage + 1))
              && store.rows == old(store.rows) + Admitted(store.parents, Collected(env, env.maxPage + 1))
  {
    var run := new LookupRun(env);
    var failed := run.KeepTrying(fuel);
    if failed.Some? {
      return GaveUp(failed.value);
    }
    assert run.listings == Collected(env, env.maxPage + 1);
    var r := run.Insert(store);
    if r.Err? {
      return Crashed(r.error);
    }
    return Done(r.value);
  }
}
