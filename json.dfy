/** Decoded JSON values as the scripts see them after `r.json()`, the Python
    exceptions the ingestion code can raise, and a failure-compatible Result. */
module Json {

  /** A decoded JSON document. `Null` is also Python's `None`. */
  datatype Json =
    | Null
    | Bool(b: bool)
    | Int(i: int)
    | Str(s: string)
    | Arr(elems: seq<Json>)
    | Obj(fields: map<string, Json>)

  /** The exceptions the modelled code raises or catches. */
  datatype Error =
    | KeyError(key: string)      // dict lookup of an absent key
    | TypeError                  // subscripting a non-dict, int(None), iterating a scalar
    | ValueError                 // int() of a string that is not a decimal literal
    | AttributeError             // `.group` on the None that re.search returns
    | TransportError             // the HTTP request or `r.json()` failed
    | IntegrityError             // foreign key references a missing item
    | DatabaseError              // any other failure reported by the store

  datatype Result<+T> = Ok(value: T) | Err(error: Error) {
    predicate IsFailure() { Err? }
    function PropagateFailure<U>(): Result<U> requires Err? { Err(error) }
    function Extract(): T requires Ok? { value }
  }

  datatype Option<+T> = None | Some(value: T)

  /** Python's `d[k]` for a string key. */
  function Index(d: Json, k: string): (r: Result<Json>)
    ensures r.Ok? <==> d.Obj? && k in d.fields
    ensures r.Ok? ==> r.value == d.fields[k]
    ensures r.Err? ==> r.error == (if d.Obj? then KeyError(k) else TypeError)
  {
    match d
    case Obj(m) => if k in m then Ok(m[k]) else Err(KeyError(k))
    case _ => Err(TypeError)
  }

  /** The elements a Python `for k in data` visits, when visiting them cannot
      fail before any element is produced. Iterating a non-empty dict or
      string yields strings, on which every record constructor used here
      raises TypeError; the model reports that TypeError directly. */
  function Iterate(data: Json): (r: Result<seq<Json>>)
    ensures r.Ok? <==> data.Arr? || data == Obj(map[]) || data == Str("")
    ensures data.Arr? ==> r == Ok(data.elems)
    ensures r.Ok? && !data.Arr? ==> r.value == []
  {
    match data
    case Arr(e) => Ok(e)
    case Obj(m) => if m == map[] then Ok([]) else Err(TypeError)
    case Str(s) => if s == "" then Ok([]) else Err(TypeError)
    case _ => Err(TypeError)
  }

  /** A list comprehension `[f(k) for k in xs]`: the first exception aborts it. */
  function MapAll<A, B>(f: A -> Result<B>, xs: seq<A>): (r: Result<seq<B>>)
    ensures r.Ok? ==> |r.value| == |xs|
    ensures r.Err? <==> exists i :: 0 <= i < |xs| && f(xs[i]).Err?
  {
    if xs == [] then Ok([])
    else
      match f(xs[0])
      case Err(e) => Err(e)
      case Ok(y) =>
        match MapAll(f, xs[1..])
        case Err(e) => Err(e)
        case Ok(ys) =>
          assert forall i :: 1 <= i < |xs| ==> xs[i] == xs[1..][i - 1];
          Ok([y] + ys)
  }

  /** Each element of a successful comprehension is what `f` gives the matching input. */
  lemma {:induction false} MapAllAt<A, B>(f: A -> Result<B>, xs: seq<A>, i: nat)
    requires MapAll(f, xs).Ok? && i < |xs|
    ensures f(xs[i]) == Ok(MapAll(f, xs).value[i])
  {
    if i > 0 {
      assert xs[1..][i - 1] == xs[i];
      MapAllAt(f, xs[1..], i - 1);
    }
  }

  /** The error a comprehension reports is the one raised by its first failing element. */
  lemma {:induction false} MapAllFirstError<A, B>(f: A -> Result<B>, xs: seq<A>, i: nat)
    requires i < |xs| && f(xs[i]).Err?
    requires forall j :: 0 <= j < i ==> f(xs[j]).Ok?
    ensures MapAll(f, xs) == Err(f(xs[i]).error)
  {
    if i > 0 {
      assert forall j :: 0 <= j < i - 1 ==> xs[1..][j] == xs[j + 1];
      MapAllFirstError(f, xs[1..], i - 1);
    }
  }

  /** A successful comprehension over a concatenation is the concatenation of the results. */
  lemma {:induction false} MapAllAppend<A, B>(f: A -> Result<B>, xs: seq<A>, ys: seq<A>)
    requires MapAll(f, xs).Ok? && MapAll(f, ys).Ok?
    ensures MapAll(f, xs + ys) == Ok(MapAll(f, xs).value + MapAll(f, ys).value)
  {
    if xs == [] {
      assert xs + ys == ys;
      assert [] + MapAll(f, ys).value == MapAll(f, ys).value;
    } else {
      var x, rest := xs[0], xs[1..];
      assert xs == [x] + rest;
      assert xs + ys == [x] + (rest + ys);
      MapAllCons(f, x, rest);
      MapAllAppend(f, rest, ys);
      MapAllCons(f, x, rest + ys);
      var y, a, b := f(x).value, MapAll(f, rest).value, MapAll(f, ys).value;
      assert [y] + (a + b) == ([y] + a) + b;
    }
  }

  /** A comprehension whose head and tail succeed is the head's result before the tail's. */
  lemma MapAllCons<A, B>(f: A -> Result<B>, x: A, rest: seq<A>)
    requires MapAll(f, [x] + rest).Ok? || (f(x).Ok? && MapAll(f, rest).Ok?)
    ensures f(x).Ok? && MapAll(f, rest).Ok?
    ensures MapAll(f, [x] + rest) == Ok([f(x).value] + MapAll(f, rest).value)
  {
    assert ([x] + rest)[0] == x && ([x] + rest)[1..] == rest;
  }

  /** A filtered comprehension `[f(x) for x in xs if keep(x)]`: for each
      element in turn, `keep` first and `f` when it holds; the first
      exception aborts it. */
  function FilterMap<A, B>(keep: A -> Result<bool>, f: A -> Result<B>, xs: seq<A>): Result<seq<B>>
  {
    if xs == [] then Ok([])
    else
      match keep(xs[0])
      case Err(e) => Err(e)
      case Ok(false) => FilterMap(keep, f, xs[1..])
      case Ok(true) =>
        match f(xs[0])
        case Err(e) => Err(e)
        case Ok(y) =>
          match FilterMap(keep, f, xs[1..])
          case Err(e) => Err(e)
          case Ok(ys) => Ok([y] + ys)
  }

  /** The elements `keep` accepts, in their order. */
  function Kept<A>(keep: A -> Result<bool>, xs: seq<A>): (r: seq<A>)
    ensures |r| <= |xs|
    ensures forall j :: 0 <= j < |r| ==> r[j] in xs && keep(r[j]) == Ok(true)
  {
    if xs == [] then []
    else (if keep(xs[0]) == Ok(true) then [xs[0]] else []) + Kept(keep, xs[1..])
  }

  /** Nothing accepted is dropped: an element is kept exactly when it
      occurs in the input and `keep` accepts it. */
  lemma {:induction false} KeptMembers<A>(keep: A -> Result<bool>, xs: seq<A>)
    ensures forall x :: x in Kept(keep, xs) <==> x in xs && keep(x) == Ok(true)
  {
    if xs != [] {
      KeptMembers(keep, xs[1..]);
      assert forall x :: x in xs <==> x == xs[0] || x in xs[1..];
    }
  }

  /** The kept elements keep their order: filtering a concatenation keeps
      the first part's elements, then the second's. */
  lemma {:induction false} KeptAppend<A>(keep: A -> Result<bool>, xs: seq<A>, ys: seq<A>)
    ensures Kept(keep, xs + ys) == Kept(keep, xs) + Kept(keep, ys)
  {
    if xs == [] {
      assert xs + ys == ys;
    } else {
      var head := if keep(xs[0]) == Ok(true) then [xs[0]] else [];
      KeptAppend(keep, xs[1..], ys);
      assert (xs + ys)[0] == xs[0] && (xs + ys)[1..] == xs[1..] + ys;
      calc {
        Kept(keep, xs + ys);
        head + Kept(keep, xs[1..] + ys);
        head + (Kept(keep, xs[1..]) + Kept(keep, ys));
        (head + Kept(keep, xs[1..])) + Kept(keep, ys);
        Kept(keep, xs) + Kept(keep, ys);
      }
    }
  }

  /** A single element is kept exactly when `keep` accepts it. */
  lemma KeptOne<A>(keep: A -> Result<bool>, x: A)
    ensures keep(x) == Ok(true) ==> Kept(keep, [x]) == [x]
    ensures keep(x) != Ok(true) ==> Kept(keep, [x]) == []
  {
    assert [x][1..] == [];
  }

  /** Filtering and mapping in one pass is mapping over the accepted
      elements: it succeeds exactly when `keep` raises on no element and `f`
      raises on no accepted one. */
  lemma {:induction false} FilterMapIsMapAll<A, B>(keep: A -> Result<bool>, f: A -> Result<B>, xs: seq<A>)
    ensures FilterMap(keep, f, xs).Ok? <==>
              (forall i :: 0 <= i < |xs| ==> keep(xs[i]).Ok?) && MapAll(f, Kept(keep, xs)).Ok?
    ensures FilterMap(keep, f, xs).Ok? ==> FilterMap(keep, f, xs) == MapAll(f, Kept(keep, xs))
  {
    if xs != [] {
      var x, rest := xs[0], xs[1..];
      FilterMapIsMapAll(keep, f, rest);
      AllOkCons(keep, xs);
      match keep(x) {
        case Err(_) =>
        case Ok(false) =>
          assert Kept(keep, xs) == [] + Kept(keep, rest) == Kept(keep, rest);
        case Ok(true) =>
          assert Kept(keep, xs) == [x] + Kept(keep, rest);
          if MapAll(f, Kept(keep, xs)).Ok? || (f(x).Ok? && MapAll(f, Kept(keep, rest)).Ok?) {
            MapAllCons(f, x, Kept(keep, rest));
          }
      }
    }
  }

  lemma AllOkCons<A, B>(g: A -> Result<B>, xs: seq<A>)
    requires |xs| > 0
    ensures (forall i :: 0 <= i < |xs| ==> g(xs[i]).Ok?) <==>
            g(xs[0]).Ok? && (forall i :: 0 <= i < |xs| - 1 ==> g(xs[1..][i]).Ok?)
  {
    assert forall i :: 1 <= i < |xs| ==> xs[i] == xs[1..][i - 1];
  }

  /** `[f(x) for x in xs if keep(x)]` where neither part can raise. */
  function Filtered<T, U>(keep: T -> bool, f: T -> U, xs: seq<T>): seq<U> {
    if xs == [] then []
    else Filtered(keep, f, xs[..|xs| - 1]) + (if keep(xs[|xs| - 1]) then [f(xs[|xs| - 1])] else [])
  }

  /** Filtering a concatenation filters each part, in order. */
  lemma {:induction false} FilteredAppend<T, U>(keep: T -> bool, f: T -> U, xs: seq<T>, ys: seq<T>)
    ensures Filtered(keep, f, xs + ys) == Filtered(keep, f, xs) + Filtered(keep, f, ys)
    decreases |ys|
  {
    if ys == [] {
      assert xs + ys == xs;
    } else {
      var n := |ys| - 1;
      FilteredAppend(keep, f, xs, ys[..n]);
      assert (xs + ys)[..|xs + ys| - 1] == xs + ys[..n];
      assert (xs + ys)[|xs + ys| - 1] == ys[n];
    }
  }

  /** The results are exactly the images of the accepted elements. */
  lemma {:induction false} FilteredMembers<T, U>(keep: T -> bool, f: T -> U, xs: seq<T>)
    ensures |Filtered(keep, f, xs)| <= |xs|
    ensures forall y :: y in Filtered(keep, f, xs) <==> exists i :: 0 <= i < |xs| && keep(xs[i]) && f(xs[i]) == y
  {
    if xs != [] {
      var n := |xs| - 1;
      var front := xs[..n];
      FilteredMembers(keep, f, front);
      forall y ensures y in Filtered(keep, f, xs) <==> exists i :: 0 <= i < |xs| && keep(xs[i]) && f(xs[i]) == y {
        if exists i :: 0 <= i < |xs| && keep(xs[i]) && f(xs[i]) == y {
          var i :| 0 <= i < |xs| && keep(xs[i]) && f(xs[i]) == y;
          if i < n {
            assert front[i] == xs[i];
          }
        }
        if y in Filtered(keep, f, front) {
          var i :| 0 <= i < |front| && keep(front[i]) && f(front[i]) == y;
          assert xs[i] == front[i];
        }
      }
    }
  }

  /** Splitting by a test and by its negation loses and duplicates nothing. */
  lemma {:induction false} FilteredSplit<T, U, V>(keep: T -> bool, drop: T -> bool, f: T -> U, g: T -> V, xs: seq<T>)
    requires forall x :: drop(x) == !keep(x)
    ensures |Filtered(keep, f, xs)| + |Filtered(drop, g, xs)| == |xs|
  {
    if xs != [] {
      FilteredSplit(keep, drop, f, g, xs[..|xs| - 1]);
    }
  }
}
