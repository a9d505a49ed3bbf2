/** The catalog refresh of python/update_items.py: it walks the `/items`
    pages, turns every record into an Item and the records of each category
    into rows of that category's table, retries from the page that failed,
    and finally merges everything into the store in one transaction. */
module UpdateItems {
  import opened Json
  import opened Database
  import opened Connector
  import opened Pager

  /** `PAGE_SIZE` of update_items.py. */
  const ItemPageSize: nat := 200

  // ---------------------------------------------------------------------
  // typeof and add

  /** `typeof(data, t)`: `data['type'] == t`. */
  function TypeOf(data: Json, name: string): (r: Result<bool>)
    ensures r.Ok? <==> data.Obj? && "type" in data.fields
    ensures r.Ok? ==> (r.value <==> data.fields["type"] == Str(name))
    ensures r.Err? ==> r.error == (if data.Obj? then KeyError("type") else TypeError)
  {
    match Index(data, "type")
    case Ok(v) => Ok(v == Str(name))
    case Err(e) => Err(e)
  }

  /** The record's `type` names table `t`. */
  predicate OfType(k: Json, t: Table) {
    k.Obj? && "type" in k.fields && k.fields["type"] == Str(t.Name())
  }

  /** Every record can be asked for its `type`. */
  predicate TypesReadable(recs: seq<Json>) {
    forall i :: 0 <= i < |recs| ==> recs[i].Obj? && "type" in recs[i].fields
  }

  /** `typeof(k, table.__name__)` as a function value. */
  function IsType(t: Table): Json -> Result<bool> {
    k => TypeOf(k, t.Name())
  }

  /** The records of type `t`, in their order. */
  function Typed(recs: seq<Json>, t: Table): (r: seq<Json>)
    ensures |r| <= |recs|
    ensures forall j :: 0 <= j < |r| ==> r[j] in recs && OfType(r[j], t)
  {
    Kept(IsType(t), recs)
  }

  /** Every record of type `t` is selected, and only those. */
  lemma TypedMembers(recs: seq<Json>, t: Table)
    ensures forall k :: k in Typed(recs, t) <==> k in recs && OfType(k, t)
  {
    KeptMembers(IsType(t), recs);
    assert forall k :: IsType(t)(k) == Ok(true) <==> OfType(k, t);
  }

  /** The selected records keep their page order: selecting from a
      concatenation selects from the first part, then from the second; a
      single record is selected exactly when it has type `t`. */
  lemma TypedAppend(recs: seq<Json>, more: seq<Json>, t: Table)
    ensures Typed(recs + more, t) == Typed(recs, t) + Typed(more, t)
    ensures forall k :: OfType(k, t) ==> Typed([k], t) == [k]
    ensures forall k :: !OfType(k, t) ==> Typed([k], t) == []
  {
    KeptAppend(IsType(t), recs, more);
    forall k ensures OfType(k, t) ==> Typed([k], t) == [k]
      ensures !OfType(k, t) ==> Typed([k], t) == []
    {
      KeptOne(IsType(t), k);
    }
  }

  /** `table.create` as a function value. */
  function Creator(t: Table): Json -> Result<Detail> {
    k => CreateDetail(t, k)
  }

  /** The comprehension `[table.create(k) for k in data if typeof(k, table.__name__)]`. */
  function Select(t: Table, recs: seq<Json>): Result<seq<Detail>> {
    FilterMap(IsType(t), Creator(t), recs)
  }

  /** Filtering with `typeof` and building rows is the same as building a
      row for each record of the type: it succeeds exactly when every record
      has a `type` and every record of the type can be built. */
  lemma SelectFilters(t: Table, recs: seq<Json>)
    ensures Select(t, recs).Ok? <==> TypesReadable(recs) && MapAll(Creator(t), Typed(recs, t)).Ok?
    ensures Select(t, recs).Ok? ==> Select(t, recs) == MapAll(Creator(t), Typed(recs, t))
  {
    FilterMapIsMapAll(IsType(t), Creator(t), recs);
    assert TypesReadable(recs) <==> forall i :: 0 <= i < |recs| ==> IsType(t)(recs[i]).Ok?;
  }

  /** `add(lst, data, table)`. */
  function Add(lst: seq<Detail>, data: Json, t: Table): (r: Result<seq<Detail>>)
    ensures r.Ok? <==> Iterate(data).Ok? && TypesReadable(Iterate(data).value)
                       && MapAll(Creator(t), Typed(Iterate(data).value, t)).Ok?
    ensures r.Ok? ==> r.value == lst + MapAll(Creator(t), Typed(Iterate(data).value, t)).value
  {
    match Iterate(data)
    case Err(e) => Err(e)
    case Ok(recs) =>
      SelectFilters(t, recs);
      match Select(t, recs)
      case Err(e) => Err(e)
      case Ok(rows) => Ok(lst + rows)
  }

  /** The rows built for the records of type `t` belong to `t`'s table and
      carry the id of an item built from the same page. */
  lemma NewRows(recs: seq<Json>, newItems: seq<Item>, t: Table, rows: seq<Detail>)
    requires MapAll(CreateItem, recs) == Ok(newItems)
    requires MapAll(Creator(t), Typed(recs, t)) == Ok(rows)
    ensures forall j :: 0 <= j < |rows| ==> rows[j].Kind() == t && rows[j].itemId in ItemIds(newItems)
  {
    var ks := Typed(recs, t);
    forall j | 0 <= j < |rows| ensures rows[j].Kind() == t && rows[j].itemId in ItemIds(newItems) {
      MapAllAt(Creator(t), ks, j);
      var k := ks[j];
      assert CreateDetail(t, k) == Ok(rows[j]);
      var i :| 0 <= i < |recs| && recs[i] == k;
      MapAllAt(CreateItem, recs, i);
      assert newItems[i].itemId == RecordId(k);
    }
  }

  // ---------------------------------------------------------------------
  // The accumulators

  /** `g_pre_insert`: for each category table, the rows gathered so far. */
  type PreInsert = seq<(seq<Detail>, Table)>

  /** `list(zip([[] for i in range(len(tables))], tables))` */
  function InitialPreInsert(): (pre: PreInsert)
    ensures |pre| == |Tables|
    ensures forall i :: 0 <= i < |pre| ==> pre[i] == ([], Tables[i])
  {
    seq(|Tables|, i requires 0 <= i < |Tables| => ([], Tables[i]))
  }

  /** The comprehension `[(add(k[0], data, k[1]), k[1]) for k in g_pre_insert]`. */
  function AddAll(pre: PreInsert, data: Json): (r: Result<PreInsert>)
    ensures r.Ok? ==> |r.value| == |pre|
  {
    if pre == [] then Ok([])
    else
      match Add(pre[0].0, data, pre[0].1)
      case Err(e) => Err(e)
      case Ok(l) =>
        match AddAll(pre[1..], data)
        case Err(e) => Err(e)
        case Ok(rest) => Ok([(l, pre[0].1)] + rest)
  }

  /** Entry `i` of a successful comprehension is `add` applied to entry `i`,
      paired with the same table. */
  lemma {:induction false} AddAllAt(pre: PreInsert, data: Json, i: nat)
    requires AddAll(pre, data).Ok? && i < |pre|
    ensures AddAll(pre, data).value[i].1 == pre[i].1
    ensures Add(pre[i].0, data, pre[i].1) == Ok(AddAll(pre, data).value[i].0)
  {
    if i > 0 {
      AddAllAt(pre[1..], data, i - 1);
    }
  }

  /** The comprehension fails exactly when `add` fails on some entry. */
  lemma {:induction false} AddAllFails(pre: PreInsert, data: Json)
    ensures AddAll(pre, data).Err? <==> exists i :: 0 <= i < |pre| && Add(pre[i].0, data, pre[i].1).Err?
  {
    if pre != [] {
      AddAllFails(pre[1..], data);
      AddFailsCons(pre, data);
    }
  }

  lemma AddFailsCons(pre: PreInsert, data: Json)
    requires |pre| > 0
    ensures (exists i :: 0 <= i < |pre| && Add(pre[i].0, data, pre[i].1).Err?) <==>
            Add(pre[0].0, data, pre[0].1).Err? ||
            exists i :: 0 <= i < |pre| - 1 && Add(pre[1..][i].0, data, pre[1..][i].1).Err?
  {
    if exists i :: 0 <= i < |pre| && Add(pre[i].0, data, pre[i].1).Err? {
      var i :| 0 <= i < |pre| && Add(pre[i].0, data, pre[i].1).Err?;
      if i > 0 {
        assert pre[1..][i - 1] == pre[i];
      }
    }
    if exists i :: 0 <= i < |pre| - 1 && Add(pre[1..][i].0, data, pre[1..][i].1).Err? {
      var j :| 0 <= j < |pre| - 1 && Add(pre[1..][j].0, data, pre[1..][j].1).Err?;
      assert pre[1..][j] == pre[j + 1];
    }
  }

  /** The ids of a list of items. */
  function ItemIds(items: seq<Item>): set<Json> {
    set i | 0 <= i < |items| :: items[i].itemId
  }

  lemma ItemIdsGrow(a: seq<Item>, b: seq<Item>)
    ensures ItemIds(a) <= ItemIds(a + b) && ItemIds(b) <= ItemIds(a + b)
  {
    forall x | x in ItemIds(b) ensures x in ItemIds(a + b) {
      var i :| 0 <= i < |b| && b[i].itemId == x;
      assert (a + b)[|a| + i] == b[i];
    }
    forall x | x in ItemIds(a) ensures x in ItemIds(a + b) {
      var i :| 0 <= i < |a| && a[i].itemId == x;
      assert (a + b)[i] == a[i];
    }
  }

  /** Table `i` of the accumulator is table `i` of `tables`. */
  predicate Paired(pre: PreInsert) {
    |pre| == |Tables| && forall i :: 0 <= i < |pre| ==> pre[i].1 == Tables[i]
  }

  /** Every gathered row belongs to the table it is gathered for. */
  predicate RowsTyped(pre: PreInsert) {
    forall i, j :: 0 <= i < |pre| && 0 <= j < |pre[i].0| ==> pre[i].0[j].Kind() == pre[i].1
  }

  /** Every gathered row refers to a gathered item, so merging the items
      first leaves no row without its parent. */
  predicate Parented(items: seq<Item>, pre: PreInsert) {
    forall i, j :: 0 <= i < |pre| && 0 <= j < |pre[i].0| ==> pre[i].0[j].itemId in ItemIds(items)
  }

  /** What one run of the script has gathered: the pages it requested (one
      HTTP request each, in order), `g_items` and `g_pre_insert`. */
  datatype Progress = Progress(requested: seq<nat>, items: seq<Item>, preInsert: PreInsert)

  predicate Good(st: Progress) {
    Paired(st.preInsert) && RowsTyped(st.preInsert) && Parented(st.items, st.preInsert)
  }

  /** `b` extends `a`: the accumulators only grow at their ends and the
      table pairing is kept. */
  predicate Grows(a: Progress, b: Progress) {
    && a.requested <= b.requested
    && a.items <= b.items
    && |a.preInsert| == |b.preInsert|
    && forall i :: 0 <= i < |a.preInsert| ==>
         a.preInsert[i].1 == b.preInsert[i].1 && a.preInsert[i].0 <= b.preInsert[i].0
  }

  lemma GrowsTrans(a: Progress, b: Progress, c: Progress)
    requires Grows(a, b) && Grows(b, c)
    ensures Grows(a, c)
  {
  }

  // ---------------------------------------------------------------------
  // The pager

  /** What a run depends on: the connector, the HTTP oracle, the number of
      requests made before the first page (the page-bound probe), and
      `g_max_page`. */
  datatype Env = Env(conn: Connector, api: Api, first: nat, maxPage: nat)

  /** The URL of `connector.get('items', params={'page': p, 'page_size': PAGE_SIZE})`. */
  function PageUrl(env: Env, p: nat): string {
    env.conn.UrlFor(["items"], [("page", PInt(p)), ("page_size", PInt(ItemPageSize))])
  }

  /** `[Item.create(k) for k in data]` */
  function ItemsOf(data: Json): Result<seq<Item>> {
    match Iterate(data)
    case Err(e) => Err(e)
    case Ok(recs) => MapAll(CreateItem, recs)
  }

  /** What the loop body does with the response to the request for `page`.
      The page's items are appended before its category rows are built, so
      a failure while building the rows leaves the items of that page in
      `g_items`. */
  function Absorb(st: Progress, page: nat, resp: Result<Json>): (r: (Progress, bool))
    ensures r.0.requested == st.requested + [page]
  {
    var asked := st.requested + [page];
    match resp
    case Err(_) => (st.(requested := asked), false)
    case Ok(data) =>
      match ItemsOf(data)
      case Err(_) => (st.(requested := asked), false)
      case Ok(newItems) =>
        match AddAll(st.preInsert, data)
        case Err(_) => (Progress(asked, st.items + newItems, st.preInsert), false)
        case Ok(pre) => (Progress(asked, st.items + newItems, pre), true)
  }

  /** A page turn extends the accumulators and keeps their invariant. */
  lemma AbsorbKeeps(st: Progress, page: nat, resp: Result<Json>, next: Progress)
    requires Good(st)
    requires next == Absorb(st, page, resp).0
    ensures Grows(st, next)
    ensures Good(next)
  {
    if resp.Ok? {
      var data := resp.value;
      match ItemsOf(data) {
        case Err(_) =>
        case Ok(newItems) =>
          match AddAll(st.preInsert, data) {
            case Err(_) =>
              ParentedMore(st.items, newItems, st.preInsert);
            case Ok(pre) =>
              AddAllKeeps(st.items, newItems, st.preInsert, data, pre);
          }
      }
    }
  }

  lemma ParentedMore(items: seq<Item>, more: seq<Item>, pre: PreInsert)
    requires Parented(items, pre)
    ensures Parented(items + more, pre)
  {
    ItemIdsGrow(items, more);
  }

  /** Adding a page's rows to every category list keeps the invariant. */
  lemma AddAllKeeps(items: seq<Item>, newItems: seq<Item>, pre: PreInsert, data: Json, pre2: PreInsert)
    requires Paired(pre) && RowsTyped(pre) && Parented(items, pre)
    requires ItemsOf(data) == Ok(newItems) && AddAll(pre, data) == Ok(pre2)
    ensures |pre2| == |pre|
    ensures forall i :: 0 <= i < |pre| ==> pre2[i].1 == pre[i].1 && pre[i].0 <= pre2[i].0
    ensures Paired(pre2) && RowsTyped(pre2) && Parented(items + newItems, pre2)
  {
    forall i | 0 <= i < |pre|
      ensures pre2[i].1 == pre[i].1 && pre[i].0 <= pre2[i].0
      ensures forall j :: 0 <= j < |pre2[i].0| ==>
                pre2[i].0[j].Kind() == pre2[i].1 && pre2[i].0[j].itemId in ItemIds(items + newItems)
    {
      AddAllAt(pre, data, i);
      GroupAt(items, newItems, data, pre[i].0, pre[i].1, pre2[i].0);
    }
  }

  /** `add` on one category list keeps its rows typed and parented. */
  lemma GroupAt(items: seq<Item>, newItems: seq<Item>, data: Json, old_: seq<Detail>, t: Table, new_: seq<Detail>)
    requires forall j :: 0 <= j < |old_| ==> old_[j].Kind() == t && old_[j].itemId in ItemIds(items)
    requires ItemsOf(data) == Ok(newItems) && Add(old_, data, t) == Ok(new_)
    ensures old_ <= new_
    ensures forall j :: 0 <= j < |new_| ==> new_[j].Kind() == t && new_[j].itemId in ItemIds(items + newItems)
  {
    var recs := Iterate(data).value;
    var rows := MapAll(Creator(t), Typed(recs, t)).value;
    ItemIdsGrow(items, newItems);
    NewRows(recs, newItems, t, rows);
    GroupKeeps(items, newItems, t, old_, rows);
  }

  lemma GroupKeeps(items: seq<Item>, newItems: seq<Item>, t: Table, old_: seq<Detail>, rows: seq<Detail>)
    requires forall j :: 0 <= j < |old_| ==> old_[j].Kind() == t && old_[j].itemId in ItemIds(items)
    requires forall j :: 0 <= j < |rows| ==> rows[j].Kind() == t && rows[j].itemId in ItemIds(newItems)
    requires ItemIds(items) <= ItemIds(items + newItems) && ItemIds(newItems) <= ItemIds(items + newItems)
    ensures old_ <= old_ + rows
    ensures forall j :: 0 <= j < |old_ + rows| ==>
              (old_ + rows)[j].Kind() == t && (old_ + rows)[j].itemId in ItemIds(items + newItems)
  {
    forall j | 0 <= j < |old_ + rows|
      ensures (old_ + rows)[j].Kind() == t && (old_ + rows)[j].itemId in ItemIds(items + newItems)
    {
      if j < |old_| {
        assert (old_ + rows)[j] == old_[j];
      } else {
        assert (old_ + rows)[j] == rows[j - |old_|];
      }
    }
  }

  /** The request of one turn of `update`: request number
      `first + |requested|`, for the URL of the page. */
  function Fetch(env: Env): (Progress, nat) -> Result<Json> {
    (st: Progress, p: nat) => Request(env.api, RequestNumber(env, st), PageUrl(env, p))
  }

  /** Requests are numbered from `first` in the order they are made. */
  function RequestNumber(env: Env, st: Progress): nat {
    env.first + |st.requested|
  }

  function AbsorbTurn(): (Progress, nat, Result<Json>) -> (Progress, bool) {
    (st: Progress, p: nat, resp: Result<Json>) => Absorb(st, p, resp)
  }

  /** One turn of the loop of `update`, as a function value for the pager. */
  function Step(env: Env): (Progress, nat) -> (Progress, bool) {
    Turn(Fetch(env), AbsorbTurn())
  }

  function Log(): Progress -> seq<nat> {
    (st: Progress) => st.requested
  }

  /** What a run keeps true from the state `st0` it starts in. */
  ghost function Reach(st0: Progress): Progress -> bool {
    (st: Progress) => Good(st) && Grows(st0, st)
  }

  lemma StepLogs(env: Env)
    ensures Logs(Step(env), Log())
  {
    TurnLogs(Fetch(env), AbsorbTurn(), Log());
  }

  lemma StepReach(env: Env, st0: Progress)
    ensures Preserves(Step(env), Reach(st0))
  {
    forall st, p, resp | Reach(st0)(st) ensures Reach(st0)(AbsorbTurn()(st, p, resp).0) {
      AbsorbReach(st0, st, p, resp);
    }
    TurnPreserves(Fetch(env), AbsorbTurn(), Reach(st0));
  }

  lemma AbsorbReach(st0: Progress, st: Progress, page: nat, resp: Result<Json>)
    requires Reach(st0)(st)
    ensures Reach(st0)(Absorb(st, page, resp).0)
  {
    var next := Absorb(st, page, resp).0;
    AbsorbKeeps(st, page, resp, next);
    GrowsTrans(st0, st, next);
  }

  // ---------------------------------------------------------------------
  // What a finished run has gathered

  /** The body the API serves for page `p`. */
  function PageBody(env: Env, p: nat): Json {
    env.api.body(PageUrl(env, p))
  }

  /** The items page `p` contributes once it completes. */
  function PageItems(env: Env): nat -> seq<Item> {
    (p: nat) =>
      match ItemsOf(PageBody(env, p))
      case Ok(items) => items
      case Err(_) => []
  }

  /** `g_pre_insert` after one failure-free pass over pages `0 .. n - 1`,
      starting from `pre`. */
  function PassGroups(env: Env, pre: PreInsert, n: nat): PreInsert {
    if n == 0 then pre
    else
      match AddAll(PassGroups(env, pre, n - 1), PageBody(env, n - 1))
      case Ok(next) => next
      case Err(_) => PassGroups(env, pre, n - 1)
  }

  /** Page `p` yields its items but not its category rows: every attempt
      appends its items to `g_items` again and then fails. */
  ghost predicate Poisoned(env: Env, pre: PreInsert, p: nat) {
    ItemsOf(PageBody(env, p)).Ok? && AddAll(PassGroups(env, pre, p), PageBody(env, p)).Err?
  }

  /** State `st` holds what a failure-free pass over the pages before `p`
      adds to `st0`, except that the items of a poisoned page `p` may have
      been appended any number of times. */
  ghost function HoldsPass(env: Env, st0: Progress): (Progress, nat) -> bool {
    (st: Progress, p: nat) =>
      && st.preInsert == PassGroups(env, st0.preInsert, p)
      && (|| st.items == st0.items + Concat(PageItems(env), p)
          || (p <= env.maxPage && Poisoned(env, st0.preInsert, p)))
  }

  lemma AbsorbPass(env: Env, st0: Progress, st: Progress, p: nat, resp: Result<Json>)
    requires p <= env.maxPage && HoldsPass(env, st0)(st, p)
    requires resp.Ok? ==> resp.value == PageBody(env, p)
    ensures HoldsPass(env, st0)(Absorb(st, p, resp).0, After(p, Absorb(st, p, resp).1))
  {
    if resp.Ok? {
      var data := resp.value;
      match ItemsOf(data) {
        case Err(_) =>
        case Ok(newItems) =>
          match AddAll(st.preInsert, data) {
            case Err(_) =>
              assert Poisoned(env, st0.preInsert, p);
            case Ok(pre) =>
              assert !Poisoned(env, st0.preInsert, p);
              assert PassGroups(env, st0.preInsert, p + 1) == pre;
              assert newItems == PageItems(env)(p);
              ConcatOnto(PageItems(env), st0.items, p, st.items);
          }
      }
    }
  }

  lemma StepPass(env: Env, st0: Progress)
    ensures Advances(Step(env), HoldsPass(env, st0), env.maxPage + 1)
  {
    forall st: Progress, p: nat | p < env.maxPage + 1 && HoldsPass(env, st0)(st, p)
      ensures HoldsPass(env, st0)(Step(env)(st, p).0, After(p, Step(env)(st, p).1))
    {
      TurnAt(Fetch(env), AbsorbTurn(), st, p);
      assert Fetch(env)(st, p) == Request(env.api, RequestNumber(env, st), PageUrl(env, p));
      AbsorbPass(env, st0, st, p, Fetch(env)(st, p));
    }
  }

  /** A finished keep_trying has gathered what one failure-free pass over
      pages `0 .. g_max_page` gathers: the items of every page exactly once,
      in page order, and the category rows of every page added in page
      order. A page that failed after appending its items would fail on
      every retry, so a finished run never met one. */
  lemma KeepTryingPass(env: Env, st: Progress, fuel: nat)
    ensures Pager.KeepTrying(Step(env), env.maxPage, st, fuel).1.None? ==>
              && Pager.KeepTrying(Step(env), env.maxPage, st, fuel).0.items
                 == st.items + Concat(PageItems(env), env.maxPage + 1)
              && Pager.KeepTrying(Step(env), env.maxPage, st, fuel).0.preInsert
                 == PassGroups(env, st.preInsert, env.maxPage + 1)
  {
    var at := HoldsPass(env, st);
    StepPass(env, st);
    assert at(st, 0);
    KeepTryingAdvance(Step(env), at, env.maxPage, st, fuel);
    var k := Pager.KeepTrying(Step(env), env.maxPage, st, fuel);
    if k.1.None? {
      assert at(k.0, env.maxPage + 1);
    }
  }

  /** A page with a record that cannot become an Item (a missing key)
      fails on every attempt, so keep_trying never finishes on it. */
  lemma UnreadablePageStalls(env: Env, st: Progress, fuel: nat, p: nat)
    requires p <= env.maxPage
    requires ItemsOf(env.api.body(PageUrl(env, p))).Err?
    ensures Pager.KeepTrying(Step(env), env.maxPage, st, fuel).1.Some?
    ensures Pager.KeepTrying(Step(env), env.maxPage, st, fuel).1.value <= p
  {
    forall s: Progress ensures !Step(env)(s, p).1 {
      TurnAt(Fetch(env), AbsorbTurn(), s, p);
      assert Fetch(env)(s, p) == Request(env.api, RequestNumber(env, s), PageUrl(env, p));
    }
    KeepTryingStuck(Step(env), env.maxPage, st, fuel, p);
  }

  /** The last page requested. */
  function Last(s: seq<nat>): nat
    requires |s| > 0
  {
    s[|s| - 1]
  }

  /** What keep_trying promises from a good state: the accumulators keep
      their invariant and only grow, the pages requested start at page 0 and
      restart from exactly the page that failed, and a finished run ends
      with the last page. */
  lemma KeepTryingKeeps(env: Env, st: Progress, fuel: nat)
    requires Good(st)
    ensures Good(Pager.KeepTrying(Step(env), env.maxPage, st, fuel).0)
    ensures Grows(st, Pager.KeepTrying(Step(env), env.maxPage, st, fuel).0)
    ensures Walk(Pager.KeepTrying(Step(env), env.maxPage, st, fuel).0.requested[|st.requested|..], env.maxPage)
    ensures Pager.KeepTrying(Step(env), env.maxPage, st, fuel).1.None? ==>
              Last(Pager.KeepTrying(Step(env), env.maxPage, st, fuel).0.requested) == env.maxPage
  {
    StepReach(env, st);
    KeepTryingPreserves(Step(env), Reach(st), env.maxPage, st, fuel);
    StepLogs(env);
    KeepTryingWalk(Step(env), Log(), env.maxPage, st, fuel);
  }
}

/** The script's mutable state: the store it writes and the module globals
    it accumulates, with `update`, `keep_trying` and `insert` as methods. */
module UpdateItemsScript {
  import opened Json
  import opened Database
  import opened Connector
  import opened Pager
  import opened UpdateItems

  /** `session.merge(item)` for each item in order: an upsert by id. */
  function MergeItems(m: map<Json, Item>, items: seq<Item>): map<Json, Item>
  {
    if items == [] then m
    else MergeItems(m, items[..|items| - 1])[items[|items| - 1].itemId := items[|items| - 1]]
  }

  /** After merging, an id is stored exactly when it was stored before or is
      the id of a merged item; the item stored for it is the last merged
      item with that id, or the old one when none has it. */
  lemma {:induction false} MergeItemsLastWins(m: map<Json, Item>, items: seq<Item>, id: Json)
    ensures id in MergeItems(m, items) <==> id in m || id in ItemIds(items)
    ensures forall i :: 0 <= i < |items| && items[i].itemId == id
                        && (forall j :: i < j < |items| ==> items[j].itemId != id)
                        ==> MergeItems(m, items)[id] == items[i]
    ensures id in m && id !in ItemIds(items) ==> MergeItems(m, items)[id] == m[id]
  {
    if items != [] {
      var n := |items| - 1;
      var front := items[..n];
      MergeItemsLastWins(m, front, id);
      assert ItemIds(items) == ItemIds(front) + {items[n].itemId} by {
        assert items == front + [items[n]];
        assert forall i :: 0 <= i < n ==> items[i] == front[i];
      }
      forall i | 0 <= i < |items| && items[i].itemId == id
                 && (forall j :: i < j < |items| ==> items[j].itemId != id)
        ensures MergeItems(m, items)[id] == items[i]
      {
        if i < n {
          assert front[i] == items[i];
          assert forall j :: i < j < n ==> front[j] == items[j];
        }
      }
    }
  }

  /** The primary key of a category row. */
  function RowKey(d: Detail): (Table, Json) { (d.Kind(), d.itemId) }

  /** `session.merge(row)` for each row of one category list in order. */
  function MergeRows(m: map<(Table, Json), Detail>, rows: seq<Detail>): map<(Table, Json), Detail>
  {
    if rows == [] then m
    else MergeRows(m, rows[..|rows| - 1])[RowKey(rows[|rows| - 1]) := rows[|rows| - 1]]
  }

  /** The category lists merged one after the other, in table order. */
  function MergeGroups(m: map<(Table, Json), Detail>, groups: PreInsert): map<(Table, Json), Detail>
  {
    if groups == [] then m
    else MergeRows(MergeGroups(m, groups[..|groups| - 1]), groups[|groups| - 1].0)
  }

  /** A row that is merged is stored under its key, and merging rows never
      drops a key. */
  lemma {:induction false} MergeRowsStores(m: map<(Table, Json), Detail>, rows: seq<Detail>)
    ensures m.Keys <= MergeRows(m, rows).Keys
    ensures forall j :: 0 <= j < |rows| ==> RowKey(rows[j]) in MergeRows(m, rows)
  {
    if rows != [] {
      var n := |rows| - 1;
      MergeRowsStores(m, rows[..n]);
      assert forall j :: 0 <= j < n ==> rows[j] == rows[..n][j];
    }
  }

  /** Every gathered row is stored under its key once the groups are merged. */
  lemma {:induction false} MergeGroupsStores(m: map<(Table, Json), Detail>, groups: PreInsert)
    ensures m.Keys <= MergeGroups(m, groups).Keys
    ensures forall i, j :: 0 <= i < |groups| && 0 <= j < |groups[i].0| ==>
              RowKey(groups[i].0[j]) in MergeGroups(m, groups)
  {
    if groups != [] {
      var n := |groups| - 1;
      var front := groups[..n];
      MergeGroupsStores(m, front);
      MergeRowsStores(MergeGroups(m, front), groups[n].0);
      assert forall i :: 0 <= i < n ==> groups[i] == front[i];
    }
  }

  /** Every row's item is stored. */
  predicate NoOrphans(parents: map<Json, Item>, groups: PreInsert) {
    forall i, j :: 0 <= i < |groups| && 0 <= j < |groups[i].0| ==> groups[i].0[j].itemId in parents
  }

  /** Because every gathered row refers to a gathered item, and the items
      are merged before any row, the insert never meets a row whose item is
      missing. */
  lemma ParentedNoOrphans(m: map<Json, Item>, items: seq<Item>, groups: PreInsert)
    requires Parented(items, groups)
    ensures NoOrphans(MergeItems(m, items), groups)
  {
    forall i, j | 0 <= i < |groups| && 0 <= j < |groups[i].0|
      ensures groups[i].0[j].itemId in MergeItems(m, items)
    {
      MergeItemsLastWins(m, items, groups[i].0[j].itemId);
    }
  }

  /** The tables the script writes, by primary key: `items` by `item_id`,
      each category table by `item_id` within that table; and `fails`,
      whether the session raises an error of the database's own (a lost
      connection, a refused commit) while the insert merges or commits. */
  class CatalogStore {
    var items: map<Json, Item>
    var details: map<(Table, Json), Detail>
    const fails: bool

    constructor (items: map<Json, Item>, details: map<(Table, Json), Detail>, fails: bool)
      ensures this.items == items && this.details == details && this.fails == fails
    {
      this.items := items;
      this.details := details;
      this.fails := fails;
    }
  }

  // ---------------------------------------------------------------------
  // The script's state and operations

  /** The module state of update_items.py once `g_max_page` is known:
      `g_items`, `g_pre_insert`, and the pages requested so far. */
  class ItemsRun {
    const env: Env
    var requested: seq<nat>
    var items: seq<Item>
    var preInsert: PreInsert

    function State(): Progress reads this {
      Progress(requested, items, preInsert)
    }

    ghost predicate Valid() reads this { Good(State()) }

    /** `g_items = []` and `g_pre_insert` as the empty list of each table. */
    constructor (env: Env)
      ensures this.env == env
      ensures State() == Progress([], [], InitialPreInsert())
      ensures Valid()
    {
      this.env := env;
      requested := [];
      items := [];
      preInsert := InitialPreInsert();
    }

    /** `update(min_page)`. */
    method Update(minPage: nat) returns (failed: Option<nat>)
      modifies this
      ensures (State(), failed) == Pages(Step(env), old(State()), minPage, env.maxPage + 1)
    {
      var page := minPage;
      while page <= env.maxPage
        invariant minPage <= page
        invariant Pages(Step(env), old(State()), minPage, env.maxPage + 1)
               == Pages(Step(env), State(), page, env.maxPage + 1)
        decreases env.maxPage + 1 - page
      {
        ghost var before := State();
        var ok := FetchPage(page);
        PagesAt(Step(env), before, page, env.maxPage + 1);
        if !ok {
          return Some(page);
        }
        page := page + 1;
      }
      return None;
    }

    /** The body of the `try` block of `update` for one page: request it,
        then absorb the response. */
    method FetchPage(page: nat) returns (ok: bool)
      modifies this
      ensures (State(), ok) == Step(env)(old(State()), page)
    {
      ghost var before := State();
      var params := new Params([("page", PInt(page)), ("page_size", PInt(ItemPageSize))]);
      var url := env.conn.CompleteUrl(["items"], params);
      assert url == PageUrl(env, page);
      var resp := Request(env.api, RequestNumber(env, State()), url);
      ok := Take(page, resp);
      TurnAt(Fetch(env), AbsorbTurn(), before, page);
    }

    /** Append the page's items, then rebuild every category list; any
        exception ends the turn with `ok` false. */
    method Take(page: nat, resp: Result<Json>) returns (ok: bool)
      modifies this
      ensures (State(), ok) == Absorb(old(State()), page, resp)
    {
      requested := requested + [page];
      ok := false;
      if resp.Ok? {
        var data := resp.value;
        var made := ItemsOf(data);
        if made.Ok? {
          items := items + made.value;
          var pre := AddAll(preInsert, data);
          if pre.Ok? {
            preInsert := pre.value;
            ok := true;
          }
        }
      }
    }

    /** One pass of the retry loop: `update` from the page that failed. */
    method RetryOnce(from: Option<nat>, left: nat) returns (failed: Option<nat>)
      requires from.Some? && left > 0
      modifies this
      ensures Resume(Step(env), env.maxPage, (State(), failed), left - 1)
           == Resume(Step(env), env.maxPage, (old(State()), from), left)
    {
      failed := Update(from.value);
    }

    /** The loop `while page is not None: page = update(page)` of
        `keep_trying()`, for at most `fuel` more calls of update. */
    method Retry(from: Option<nat>, fuel: nat) returns (failed: Option<nat>)
      modifies this
      ensures (State(), failed) == Resume(Step(env), env.maxPage, (old(State()), from), fuel)
    {
      ghost var goal := Resume(Step(env), env.maxPage, (State(), from), fuel);
      failed := from;
      var left := fuel;
      while failed.Some? && left > 0
        invariant Resume(Step(env), env.maxPage, (State(), failed), left) == goal
        decreases left
      {
        failed := RetryOnce(failed, left);
        left := left - 1;
      }
      ResumeStops(Step(env), env.maxPage, (State(), failed), left);
    }

    /** `keep_trying()`, giving up after `fuel` retries; None when every
        page has been gathered. */
    method KeepTrying(fuel: nat) returns (failed: Option<nat>)
      requires Valid()
      modifies this
      ensures (State(), failed) == Pager.KeepTrying(Step(env), env.maxPage, old(State()), fuel)
      ensures Valid()
      ensures failed.None? ==> items == old(items) + Concat(PageItems(env), env.maxPage + 1)
      ensures failed.None? ==> preInsert == PassGroups(env, old(preInsert), env.maxPage + 1)
    {
      ghost var start := State();
      failed := Update(0);
      failed := Retry(failed, fuel);
      KeepTryingKeeps(env, start, fuel);
      KeepTryingPass(env, start, fuel);
    }

    /** `insert()`: merge every item, then every category row table by
        table, then commit once. A row whose item is stored neither before
        nor by this insert fails the flush with IntegrityError, and a fault
        of the database fails `merge` or `commit` with DatabaseError; the
        script catches neither, so nothing is committed. */
    method Insert(store: CatalogStore) returns (err: Option<Error>)
      modifies store
      ensures store.fails ==>
                && err == Some(DatabaseError)
                && store.items == old(store.items) && store.details == old(store.details)
      ensures !store.fails && NoOrphans(MergeItems(old(store.items), items), preInsert) ==>
                && err == None
                && store.items == MergeItems(old(store.items), items)
                && store.details == MergeGroups(old(store.details), preInsert)
      ensures !store.fails && !NoOrphans(MergeItems(old(store.items), items), preInsert) ==>
                && err == Some(IntegrityError)
                && store.items == old(store.items) && store.details == old(store.details)
    {
      if store.fails {
        return Some(DatabaseError);
      }
      var staged := store.items;
      var i := 0;
      while i < |items|
        invariant 0 <= i <= |items|
        invariant staged == MergeItems(store.items, items[..i])
      {
        assert items[..i + 1][..i] == items[..i];
        staged := staged[items[i].itemId := items[i]];
        i := i + 1;
      }
      assert items[..|items|] == items;
      var rows := store.details;
      var g := 0;
      while g < |preInsert|
        invariant 0 <= g <= |preInsert|
        invariant rows == MergeGroups(store.details, preInsert[..g])
        invariant NoOrphans(staged, preInsert[..g])
      {
        var group := preInsert[g].0;
        ghost var start := rows;
        var j := 0;
        while j < |group|
          invariant 0 <= j <= |group|
          invariant rows == MergeRows(start, group[..j])
          invariant forall k :: 0 <= k < j ==> group[k].itemId in staged
        {
          if group[j].itemId !in staged {
            return Some(IntegrityError);
          }
          assert group[..j + 1][..j] == group[..j];
          rows := rows[RowKey(group[j]) := group[j]];
          j := j + 1;
        }
        assert group[..|group|] == group;
        assert preInsert[..g + 1][..g] == preInsert[..g];
        g := g + 1;
      }
      assert preInsert[..|preInsert|] == preInsert;
      store.items := staged;
      store.details := rows;
      return None;
    }
  }

  // ---------------------------------------------------------------------
  // The script

  /** The probe behind `g_max_page`, made at import time as request number 0. */
  function MaxPageOf(conn: Connector, api: Api): Result<nat> {
    conn.MaxPageAt(api, 0, ["items"])
  }

  /** What `keep_trying()` gathers from the empty accumulators. */
  function Gather(env: Env, fuel: nat): (Progress, Option<nat>) {
    Pager.KeepTrying(Step(env), env.maxPage, Progress([], [], InitialPreInsert()), fuel)
  }

  /** A finished gathering is one failure-free pass over the pages. */
  lemma GatherIsPass(env: Env, fuel: nat)
    ensures Gather(env, fuel).1.None? ==>
              && Gather(env, fuel).0.items == Concat(PageItems(env), env.maxPage + 1)
              && Gather(env, fuel).0.preInsert == PassGroups(env, InitialPreInsert(), env.maxPage + 1)
  {
    KeepTryingPass(env, Progress([], [], InitialPreInsert()), fuel);
  }

  /** The script: probe `g_max_page`, gather with `keep_trying()` (giving
      up after `fuel` retries), then `insert()`. It crashes when the probe
      fails, or when gathering finished and the database faults: every
      gathered row refers to a gathered item and the items are merged
      first, so the insert never meets a missing item. When it finishes,
      the store holds the merge of everything gathered (by GatherIsPass,
      what one failure-free pass over the pages gathers); otherwise it has
      not changed. */
  method Run(conn: Connector, api: Api, fuel: nat, store: CatalogStore) returns (out: Outcome<()>)
    requires conn.apiUrl == BaseUrl + DefaultVersion  // `Connector(API_KEY)`, version v2
    modifies store
    ensures MaxPageOf(conn, api).Err? ==> out == Crashed(MaxPageOf(conn, api).error)
    ensures MaxPageOf(conn, api).Ok? ==>
              var g := Gather(Env(conn, api, 1, MaxPageOf(conn, api).value), fuel);
              && (out.GaveUp? <==> g.1.Some?)
              && (out.GaveUp? ==> out.page == g.1.value)
              && (out.Done? <==> g.1.None? && !store.fails)
              && (out == Crashed(DatabaseError) <==> g.1.None? && store.fails)
    ensures !out.Done? ==> store.items == old(store.items) && store.details == old(store.details)
    ensures out.Done? ==>
              && MaxPageOf(conn, api).Ok?
              && var g := Gather(Env(conn, api, 1, MaxPageOf(conn, api).value), fuel);
              && g.1.None?
              && store.items == MergeItems(old(store.items), g.0.items)
              && store.details == MergeGroups(old(store.details), g.0.preInsert)
  {
    var m := conn.GetMaxPage(api, 0, ["items"]);
    if m.Err? {
      return Crashed(m.error);
    }
    out := GatherAndInsert(Env(conn, api, 1, m.value), fuel, store);
  }

  /** `if keep_trying(): insert()`, once `g_max_page` is known. */
  method GatherAndInsert(env: Env, fuel: nat, store: CatalogStore) returns (out: Outcome<()>)
    modifies store
    ensures out.GaveUp? <==> Gather(env, fuel).1.Some?
    ensures out.GaveUp? ==> out.page == Gather(env, fuel).1.value
    ensures out.Done? <==> Gather(env, fuel).1.None? && !store.fails
    ensures out == Crashed(DatabaseError) <==> Gather(env, fuel).1.None? && store.fails
    ensures !out.Done? ==> store.items == old(store.items) && store.details == old(store.details)
    ensures out.Done? ==>
              && store.items == MergeItems(old(store.items), Gather(env, fuel).0.items)
              && store.details == MergeGroups(old(store.details), Gather(env, fuel).0.preInsert)
  {
    var run := new ItemsRun(env);
    var failed := run.KeepTrying(fuel);
    if failed.Some? {
      return GaveUp(failed.value);
    }
    ParentedNoOrphans(store.items, run.items, run.preInsert);
    var err := run.Insert(store);
    if err.Some? {
      return Crashed(err.value);
    }
    return Done(());
  }
}
