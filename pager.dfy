/** The resumable pager both ingestion scripts share: `update(min_page)`
    walks the pages `min_page .. g_max_page` and stops at the first page
    that raises, returning it; `keep_trying()` calls `update(0)` and then
    `update(page)` again from each page returned, until it returns None.

    A page turn is a function `step(state, page)` that gives the new state
    and whether the page completed. A state records the pages requested so
    far (`log`); every turn requests its page once. */
module Pager {
  import opened Json

  /** How a run of a script ends: with an exception it does not catch,
      with its retry budget spent while it would still retry from `page`,
      or done. */
  datatype Outcome<T> = Crashed(error: Error) | GaveUp(page: nat) | Done(value: T)

  /** The pages `lo, lo + 1, ..., hi - 1`. */
  function Range(lo: nat, hi: nat): (r: seq<nat>)
    ensures |r| == if lo <= hi then hi - lo else 0
    ensures forall i :: 0 <= i < |r| ==> r[i] == lo + i
  {
    if lo >= hi then [] else seq(hi - lo, i requires 0 <= i < hi - lo => lo + i)
  }

  lemma RangeCons(a: seq<nat>, lo: nat, e: nat)
    requires lo < e
    ensures (a + [lo]) + Range(lo + 1, e) == a + Range(lo, e)
  {
    assert Range(lo, e) == [lo] + Range(lo + 1, e);
  }

  lemma RangeEmpty(a: seq<nat>, lo: nat, hi: nat)
    requires hi <= lo
    ensures a + Range(lo, hi) == a
  {
  }

  /** Every turn requests exactly its own page. */
  ghost predicate Logs<S(!new)>(step: (S, nat) -> (S, bool), log: S -> seq<nat>) {
    forall s, p :: log(step(s, p).0) == log(s) + [p]
  }

  /** `update(lo)` with `g_max_page == hi - 1`: the pages `lo .. hi - 1` in
      order; the first page that raises ends the walk and is returned. */
  function Pages<S>(step: (S, nat) -> (S, bool), st: S, lo: nat, hi: nat): (S, Option<nat>)
    decreases hi - lo
  {
    if lo >= hi then (st, None)
    else
      var (next, ok) := step(st, lo);
      if ok then Pages(step, next, lo + 1, hi) else (next, Some(lo))
  }

  /** One turn of the range, unfolded. */
  lemma PagesAt<S>(step: (S, nat) -> (S, bool), st: S, lo: nat, hi: nat)
    requires lo < hi
    ensures Pages(step, st, lo, hi)
         == if step(st, lo).1 then Pages(step, step(st, lo).0, lo + 1, hi) else (step(st, lo).0, Some(lo))
  {
  }

  /** update visits the pages in ascending order and stops at the first
      failure: it returns None after requesting every page of the range,
      and otherwise a page of the range, after requesting exactly the pages
      up to it. */
  lemma {:induction false} PagesLog<S(!new)>(step: (S, nat) -> (S, bool), log: S -> seq<nat>, st: S, lo: nat, hi: nat)
    requires Logs(step, log)
    ensures Pages(step, st, lo, hi).1.None? ==> log(Pages(step, st, lo, hi).0) == log(st) + Range(lo, hi)
    ensures Pages(step, st, lo, hi).1.Some? ==>
              && lo <= Pages(step, st, lo, hi).1.value < hi
              && log(Pages(step, st, lo, hi).0) == log(st) + Range(lo, Pages(step, st, lo, hi).1.value + 1)
    decreases hi - lo
  {
    if lo < hi {
      var (next, ok) := step(st, lo);
      assert log(next) == log(st) + [lo];
      if ok {
        PagesLog(step, log, next, lo + 1, hi);
        var r := Pages(step, next, lo + 1, hi);
        var e := if r.1.None? then hi else r.1.value + 1;
        RangeCons(log(st), lo, e);
      } else {
        RangeCons(log(st), lo, lo + 1);
        RangeEmpty(log(st) + [lo], lo + 1, lo + 1);
      }
    } else {
      RangeEmpty(log(st), lo, hi);
    }
  }

  /** The page update returns is the first that failed: the pages before it
      all completed, and it failed on the state they left. */
  lemma {:induction false} PagesFailFirst<S>(step: (S, nat) -> (S, bool), st: S, lo: nat, hi: nat)
    requires Pages(step, st, lo, hi).1.Some?
    ensures lo <= Pages(step, st, lo, hi).1.value < hi
    ensures Pages(step, st, lo, Pages(step, st, lo, hi).1.value).1.None?
    ensures step(Pages(step, st, lo, Pages(step, st, lo, hi).1.value).0, Pages(step, st, lo, hi).1.value)
         == (Pages(step, st, lo, hi).0, false)
    decreases hi - lo
  {
    var (next, ok) := step(st, lo);
    if ok {
      PagesFailFirst(step, next, lo + 1, hi);
    }
  }

  /** Splitting a completed walk at any page: the walk up to the page, then
      the walk from it. */
  lemma {:induction false} PagesSplit<S>(step: (S, nat) -> (S, bool), st: S, lo: nat, mid: nat, hi: nat)
    requires lo <= mid <= hi
    requires Pages(step, st, lo, mid).1.None?
    ensures Pages(step, st, lo, hi) == Pages(step, Pages(step, st, lo, mid).0, mid, hi)
    decreases mid - lo
  {
    if lo < mid {
      var (next, ok) := step(st, lo);
      PagesSplit(step, next, lo + 1, mid, hi);
    }
  }

  /** Every turn keeps `inv`. */
  ghost predicate Preserves<S(!new)>(step: (S, nat) -> (S, bool), inv: S -> bool) {
    forall s, p :: inv(s) ==> inv(step(s, p).0)
  }

  /** update keeps every invariant its turns keep. */
  lemma {:induction false} PagesPreserve<S(!new)>(step: (S, nat) -> (S, bool), inv: S -> bool, st: S, lo: nat, hi: nat)
    requires Preserves(step, inv) && inv(st)
    ensures inv(Pages(step, st, lo, hi).0)
    decreases hi - lo
  {
    if lo < hi {
      var (next, ok) := step(st, lo);
      if ok {
        PagesPreserve(step, inv, next, lo + 1, hi);
      }
    }
  }

  /** A turn made of a request (`fetch`, which may depend on the state, e.g.
      on the number of requests made so far) and of what is done with its
      response (`absorb`). */
  function Turn<S, R>(fetch: (S, nat) -> R, absorb: (S, nat, R) -> (S, bool)): (S, nat) -> (S, bool) {
    (s: S, p: nat) => absorb(s, p, fetch(s, p))
  }

  lemma TurnAt<S, R>(fetch: (S, nat) -> R, absorb: (S, nat, R) -> (S, bool), s: S, p: nat)
    ensures Turn(fetch, absorb)(s, p) == absorb(s, p, fetch(s, p))
  {
  }

  /** Whatever the response, absorbing it keeps `inv`. */
  ghost predicate Absorbs<S(!new), R(!new)>(absorb: (S, nat, R) -> (S, bool), inv: S -> bool) {
    forall s, p, r :: inv(s) ==> inv(absorb(s, p, r).0)
  }

  lemma TurnPreserves<S(!new), R(!new)>(fetch: (S, nat) -> R, absorb: (S, nat, R) -> (S, bool), inv: S -> bool)
    requires Absorbs(absorb, inv)
    ensures Preserves(Turn(fetch, absorb), inv)
  {
  }

  /** Whatever the response, absorbing it logs the page once. */
  ghost predicate AbsorbLogs<S(!new), R(!new)>(absorb: (S, nat, R) -> (S, bool), log: S -> seq<nat>) {
    forall s, p, r :: log(absorb(s, p, r).0) == log(s) + [p]
  }

  lemma TurnLogs<S(!new), R(!new)>(fetch: (S, nat) -> R, absorb: (S, nat, R) -> (S, bool), log: S -> seq<nat>)
    requires AbsorbLogs(absorb, log)
    ensures Logs(Turn(fetch, absorb), log)
  {
  }

  // ---------------------------------------------------------------------
  // keep_trying

  /** The `while page is not None: page = update(page)` loop, for at most
      `fuel` more calls of update. */
  function Resume<S>(step: (S, nat) -> (S, bool), maxPage: nat, r: (S, Option<nat>), fuel: nat): (S, Option<nat>)
    decreases fuel
  {
    match r.1
    case None => r
    case Some(p) => if fuel == 0 then r else Resume(step, maxPage, Pages(step, r.0, p, maxPage + 1), fuel - 1)
  }

  /** The loop stops once no page has failed or no retry is left. */
  lemma ResumeStops<S>(step: (S, nat) -> (S, bool), maxPage: nat, r: (S, Option<nat>), fuel: nat)
    requires r.1.None? || fuel == 0
    ensures Resume(step, maxPage, r, fuel) == r
  {
  }

  /** `keep_trying()`: `update(0)`, then resume from each failing page. */
  function KeepTrying<S>(step: (S, nat) -> (S, bool), maxPage: nat, st: S, fuel: nat): (S, Option<nat>) {
    Resume(step, maxPage, Pages(step, st, 0, maxPage + 1), fuel)
  }

  /** The pages a run requested, in order: they start at page 0, each
      request is for the same page as the request before it (a retry
      from the page that failed) or the next one, and none is beyond `g_max_page`. */
  predicate Walk(w: seq<nat>, maxPage: nat) {
    && |w| > 0 && w[0] == 0
    && (forall i :: 0 <= i < |w| ==> w[i] <= maxPage)
    && (forall i :: 0 < i < |w| ==> w[i] == w[i - 1] || w[i] == w[i - 1] + 1)
  }

  lemma WalkExtend(w: seq<nat>, added: seq<nat>, maxPage: nat)
    requires Walk(w, maxPage)
    requires |added| > 0 && added[0] == w[|w| - 1]
    requires forall i :: 0 <= i < |added| ==> added[i] == added[0] + i && added[i] <= maxPage
    ensures Walk(w + added, maxPage)
  {
    var v := w + added;
    forall i | 0 < i < |v| ensures v[i] == v[i - 1] || v[i] == v[i - 1] + 1 {
      if i > |w| {
        assert v[i] == added[i - |w|] && v[i - 1] == added[i - 1 - |w|];
      } else if i == |w| {
        assert v[i] == added[0] && v[i - 1] == w[|w| - 1];
      } else {
        assert v[i] == w[i] && v[i - 1] == w[i - 1];
      }
    }
  }

  /** The log of `r` extends `base` by a walk, which ends with the page
      `r` failed on, or with the last page when `r` completed. */
  ghost predicate Ready<S>(log: S -> seq<nat>, maxPage: nat, base: seq<nat>, r: (S, Option<nat>)) {
    && |base| < |log(r.0)| && log(r.0)[..|base|] == base
    && Walk(log(r.0)[|base|..], maxPage)
    && (r.1.Some? ==> r.1.value == log(r.0)[|log(r.0)| - 1])
    && (r.1.None? ==> log(r.0)[|log(r.0)| - 1] == maxPage)
  }

  /** Resuming from the failing page keeps the log a walk. */
  lemma ReadyAfterPages<S(!new)>(step: (S, nat) -> (S, bool), log: S -> seq<nat>, maxPage: nat,
                                  base: seq<nat>, r: (S, Option<nat>))
    requires Logs(step, log) && Ready(log, maxPage, base, r) && r.1.Some?
    ensures Ready(log, maxPage, base, Pages(step, r.0, r.1.value, maxPage + 1))
  {
    var p := r.1.value;
    var next := Pages(step, r.0, p, maxPage + 1);
    PagesLog(step, log, r.0, p, maxPage + 1);
    var e := if next.1.None? then maxPage + 1 else next.1.value + 1;
    var added := Range(p, e);
    assert log(next.0) == log(r.0) + added;
    WalkAppend(log(r.0), added, base, maxPage);
    assert log(next.0)[|log(next.0)| - 1] == added[|added| - 1];
  }

  /** A walk that is resumed stays a walk. */
  lemma {:induction false} ResumeWalk<S(!new)>(step: (S, nat) -> (S, bool), log: S -> seq<nat>, maxPage: nat,
                                                base: seq<nat>, r: (S, Option<nat>), fuel: nat)
    requires Logs(step, log) && Ready(log, maxPage, base, r)
    ensures Ready(log, maxPage, base, Resume(step, maxPage, r, fuel))
    decreases fuel
  {
    if r.1.Some? && fuel > 0 {
      ReadyAfterPages(step, log, maxPage, base, r);
      ResumeWalk(step, log, maxPage, base, Pages(step, r.0, r.1.value, maxPage + 1), fuel - 1);
    }
  }

  lemma WalkAppend(l: seq<nat>, added: seq<nat>, base: seq<nat>, maxPage: nat)
    requires |base| <= |l| && l[..|base|] == base
    requires Walk(l[|base|..], maxPage)
    requires |added| > 0 && added[0] == l[|l| - 1]
    requires forall i :: 0 <= i < |added| ==> added[i] == added[0] + i && added[i] <= maxPage
    ensures (l + added)[..|base|] == base
    ensures Walk((l + added)[|base|..], maxPage)
  {
    var w := l[|base|..];
    assert (l + added)[|base|..] == w + added;
    WalkExtend(w, added, maxPage);
  }

  /** keep_trying restarts from exactly the page that failed, never an
      earlier one: the pages it requests form a walk, and when it finishes
      the last request was for the last page. */
  lemma KeepTryingWalk<S(!new)>(step: (S, nat) -> (S, bool), log: S -> seq<nat>, maxPage: nat, st: S, fuel: nat)
    requires Logs(step, log)
    ensures |log(st)| < |log(KeepTrying(step, maxPage, st, fuel).0)|
    ensures log(KeepTrying(step, maxPage, st, fuel).0)[..|log(st)|] == log(st)
    ensures Walk(log(KeepTrying(step, maxPage, st, fuel).0)[|log(st)|..], maxPage)
    ensures KeepTrying(step, maxPage, st, fuel).1.None? ==>
              log(KeepTrying(step, maxPage, st, fuel).0)[|log(KeepTrying(step, maxPage, st, fuel).0)| - 1] == maxPage
  {
    var r := Pages(step, st, 0, maxPage + 1);
    ReadyAfterFirst(step, log, maxPage, st, r);
    ResumeWalk(step, log, maxPage, log(st), r, fuel);
  }

  /** The first call `update(0)` leaves a walk from page 0. */
  lemma ReadyAfterFirst<S(!new)>(step: (S, nat) -> (S, bool), log: S -> seq<nat>, maxPage: nat, st: S, r: (S, Option<nat>))
    requires Logs(step, log) && r == Pages(step, st, 0, maxPage + 1)
    ensures Ready(log, maxPage, log(st), r)
  {
    PagesLog(step, log, st, 0, maxPage + 1);
    var e := if r.1.None? then maxPage + 1 else r.1.value + 1;
    RangeWalk(e, maxPage);
    ReadyOf(log, maxPage, log(st), r, Range(0, e));
  }

  /** The pages `0 .. e - 1` form a walk ending with page `e - 1`. */
  lemma RangeWalk(e: nat, maxPage: nat)
    requires 0 < e <= maxPage + 1
    ensures Walk(Range(0, e), maxPage)
    ensures Range(0, e)[e - 1] == e - 1
  {
  }

  /** A log that extends `base` by a walk ending where `r` stopped. */
  lemma ReadyOf<S>(log: S -> seq<nat>, maxPage: nat, base: seq<nat>, r: (S, Option<nat>), w: seq<nat>)
    requires log(r.0) == base + w && Walk(w, maxPage)
    requires r.1.Some? ==> r.1.value == w[|w| - 1]
    requires r.1.None? ==> w[|w| - 1] == maxPage
    ensures Ready(log, maxPage, base, r)
  {
    assert log(r.0)[..|base|] == base;
    assert log(r.0)[|base|..] == w;
  }

  /** keep_trying keeps every invariant its turns keep. */
  lemma {:induction false} ResumePreserves<S(!new)>(step: (S, nat) -> (S, bool), inv: S -> bool, maxPage: nat,
                                                     r: (S, Option<nat>), fuel: nat)
    requires Preserves(step, inv) && inv(r.0)
    ensures inv(Resume(step, maxPage, r, fuel).0)
    decreases fuel
  {
    if r.1.Some? && fuel > 0 {
      PagesPreserve(step, inv, r.0, r.1.value, maxPage + 1);
      ResumePreserves(step, inv, maxPage, Pages(step, r.0, r.1.value, maxPage + 1), fuel - 1);
    }
  }

  lemma KeepTryingPreserves<S(!new)>(step: (S, nat) -> (S, bool), inv: S -> bool, maxPage: nat, st: S, fuel: nat)
    requires Preserves(step, inv) && inv(st)
    ensures inv(KeepTrying(step, maxPage, st, fuel).0)
  {
    PagesPreserve(step, inv, st, 0, maxPage + 1);
    ResumePreserves(step, inv, maxPage, Pages(step, st, 0, maxPage + 1), fuel);
  }

  // ---------------------------------------------------------------------
  // What the completed pages contribute

  /** `at(s, p)`: state `s` holds what the pages before `p` contribute. A
      turn that completes a page `p` below `hi` moves this on to `p + 1`;
      a turn that fails on `p` leaves it at `p`. */
  ghost predicate Advances<S(!new)>(step: (S, nat) -> (S, bool), at: (S, nat) -> bool, hi: nat) {
    forall s: S, p: nat :: p < hi && at(s, p) ==> at(step(s, p).0, After(p, step(s, p).1))
  }

  /** The page a turn leaves the walk at. */
  function After(p: nat, ok: bool): nat {
    if ok then p + 1 else p
  }

  /** What pages `0 .. n - 1` contribute, each page once, in page order. */
  function Concat<T>(rows: nat -> seq<T>, n: nat): seq<T> {
    if n == 0 then [] else Concat(rows, n - 1) + rows(n - 1)
  }

  lemma ConcatNext<T>(rows: nat -> seq<T>, n: nat)
    ensures Concat(rows, n + 1) == Concat(rows, n) + rows(n)
  {
  }

  /** Appending what page `p` contributes to a state holding the pages
      before `p` gives a state holding the pages up to `p`. */
  lemma ConcatOnto<T>(rows: nat -> seq<T>, base: seq<T>, p: nat, cur: seq<T>)
    requires cur == base + Concat(rows, p)
    ensures cur + rows(p) == base + Concat(rows, p + 1)
  {
    assert Concat(rows, p + 1) == Concat(rows, p) + rows(p);
  }

  /** What earlier pages contributed stays in place as later pages are added. */
  lemma {:induction false} ConcatPrefix<T>(rows: nat -> seq<T>, m: nat, n: nat)
    requires m <= n
    ensures Concat(rows, m) <= Concat(rows, n)
    decreases n
  {
    if m < n {
      ConcatPrefix(rows, m, n - 1);
    }
  }

  /** Where a walk over `lo .. hi - 1` stopped: the page that failed, or
      `hi` once every page completed. */
  function StopAt(failed: Option<nat>, hi: nat): nat {
    match failed
    case Some(p) => p
    case None => hi
  }

  /** update moves a state that holds the pages before `lo` on to one that
      holds the pages before the page it stops at. */
  lemma {:induction false} PagesAdvance<S(!new)>(step: (S, nat) -> (S, bool), at: (S, nat) -> bool, st: S, lo: nat, hi: nat)
    requires Advances(step, at, hi) && at(st, lo) && lo <= hi
    ensures at(Pages(step, st, lo, hi).0, StopAt(Pages(step, st, lo, hi).1, hi))
    ensures Pages(step, st, lo, hi).1.Some? ==> Pages(step, st, lo, hi).1.value < hi
    decreases hi - lo
  {
    if lo < hi {
      var (next, ok) := step(st, lo);
      assert at(next, if ok then lo + 1 else lo);
      if ok {
        PagesAdvance(step, at, next, lo + 1, hi);
      }
    }
  }

  lemma {:induction false} ResumeAdvance<S(!new)>(step: (S, nat) -> (S, bool), at: (S, nat) -> bool, maxPage: nat,
                                                   r: (S, Option<nat>), fuel: nat)
    requires Advances(step, at, maxPage + 1) && at(r.0, StopAt(r.1, maxPage + 1))
    requires r.1.Some? ==> r.1.value <= maxPage
    ensures at(Resume(step, maxPage, r, fuel).0, StopAt(Resume(step, maxPage, r, fuel).1, maxPage + 1))
    decreases fuel
  {
    if r.1.Some? && fuel > 0 {
      PagesAdvance(step, at, r.0, r.1.value, maxPage + 1);
      ResumeAdvance(step, at, maxPage, Pages(step, r.0, r.1.value, maxPage + 1), fuel - 1);
    }
  }

  /** Since a retry starts from exactly the page that failed, keep_trying
      ends holding the pages before the one it gave up on, or every page
      `0 .. maxPage` once it finishes. */
  lemma KeepTryingAdvance<S(!new)>(step: (S, nat) -> (S, bool), at: (S, nat) -> bool, maxPage: nat, st: S, fuel: nat)
    requires Advances(step, at, maxPage + 1) && at(st, 0)
    ensures at(KeepTrying(step, maxPage, st, fuel).0, StopAt(KeepTrying(step, maxPage, st, fuel).1, maxPage + 1))
  {
    PagesAdvance(step, at, st, 0, maxPage + 1);
    ResumeAdvance(step, at, maxPage, Pages(step, st, 0, maxPage + 1), fuel);
  }

  /** A page that fails whatever state it is requested in is never passed:
      keep_trying gives up on it or on an earlier page, however many retries
      it is allowed. */
  lemma KeepTryingStuck<S(!new)>(step: (S, nat) -> (S, bool), maxPage: nat, st: S, fuel: nat, p: nat)
    requires p <= maxPage
    requires forall s :: !step(s, p).1
    ensures KeepTrying(step, maxPage, st, fuel).1.Some?
    ensures KeepTrying(step, maxPage, st, fuel).1.value <= p
  {
    var at := (s: S, q: nat) => q <= p;
    assert Advances(step, at, maxPage + 1);
    KeepTryingAdvance(step, at, maxPage, st, fuel);
  }
}
