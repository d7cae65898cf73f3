/** The concurrent fills of the role cache on Go's slices. A cached list is a slice of a
    backing array, and `append` writes into that array when its capacity suffices, so callers
    that hold slices of one array overwrite each other's pages. The lookup, each read, each
    append and each store are atomic steps. */
module SliceRace {
  import opened Paging
  import opened Assignments
  import Race = RoleCacheRace

  /** A backing array: the cells written so far, and how many there can be. `owner` is the
      subscription whose list it was made for; no step looks at it. */
  datatype Array = Array(owner: string, cells: seq<RoleAssignment>, cap: nat)

  datatype Slice = Nil | Slice(base: nat, len: nat)

  datatype Phase =
    | Checking                              // about to look for a hit
    | Fetching(next: nat)                   // about to fetch page `next` and read the cache
    | Appending(next: nat, read: Slice)     // has read the cache, about to append page `next`
    | Storing(next: nat, appended: Slice)   // has appended page `next`, about to store the slice
    | Hit                                   // found a list and returned
    | Finished                              // stored the last page
    | Aborted(next: nat)                    // page `next` failed

  datatype Caller = Caller(subscription: string, phase: Phase)

  datatype State = State(arrays: seq<Array>, cache: map<string, Slice>, callers: seq<Caller>)

  function Cached(s: State, subscription: string): Slice {
    if subscription in s.cache then s.cache[subscription] else Nil
  }

  function Contents(arrays: seq<Array>, slice: Slice): seq<RoleAssignment> {
    if slice.Slice? && slice.base < |arrays| && slice.len <= |arrays[slice.base].cells|
    then arrays[slice.base].cells[..slice.len] else []
  }

  /** The cells after `page` is written at position `at`. */
  function Written(cells: seq<RoleAssignment>, at: nat, page: seq<RoleAssignment>): seq<RoleAssignment>
    requires at <= |cells|
  {
    cells[..at] + page + if at + |page| <= |cells| then cells[at + |page|..] else []
  }

  predicate Fits(arrays: seq<Array>, slice: Slice, page: seq<RoleAssignment>) {
    && slice.Slice? && slice.base < |arrays| && slice.len <= |arrays[slice.base].cells|
    && slice.len + |page| <= arrays[slice.base].cap
  }

  /** Go's `append`: nothing for no elements; in place when they fit; else in a new array of
      any sufficient capacity. */
  ghost predicate Appends(u: string, arrays: seq<Array>, slice: Slice, page: seq<RoleAssignment>,
                          arrays': seq<Array>, slice': Slice) {
    if page == [] then
      arrays' == arrays && slice' == slice
    else if Fits(arrays, slice, page) then
      var a := arrays[slice.base];
      && arrays' == arrays[slice.base := a.(cells := Written(a.cells, slice.len, page))]
      && slice' == Slice(slice.base, slice.len + |page|)
    else
      var cells := Contents(arrays, slice) + page;
      && |arrays'| == |arrays| + 1 && arrays'[..|arrays|] == arrays
      && arrays'[|arrays|].owner == u && arrays'[|arrays|].cells == cells && arrays'[|arrays|].cap >= |cells|
      && slice' == Slice(|arrays|, |cells|)
  }

  function Before(pages: Race.Pages, subscription: string, n: nat): Phase {
    if n < |pages(subscription)| then Fetching(n) else Finished
  }

  /** Caller `c` takes one atomic step. */
  ghost predicate Step(pages: Race.Pages, s: State, s': State, c: nat) {
    && c < |s.callers| == |s'.callers|
    && s'.callers == s.callers[c := Caller(s.callers[c].subscription, s'.callers[c].phase)]
    && var u, phase, phase' := s.callers[c].subscription, s.callers[c].phase, s'.callers[c].phase;
       match phase
       case Checking =>
         s'.arrays == s.arrays && s'.cache == s.cache
         && (phase' == (if u in s.cache then Hit else Before(pages, u, 0)) || (u !in s.cache && phase' == Aborted(0)))
       case Fetching(n) =>
         s'.arrays == s.arrays && s'.cache == s.cache && (phase' == Appending(n, Cached(s, u)) || phase' == Aborted(n))
       case Appending(n, read) =>
         s'.cache == s.cache && n < |pages(u)|
         && phase'.Storing? && phase'.next == n && Appends(u, s.arrays, read, pages(u)[n], s'.arrays, phase'.appended)
       case Storing(n, appended) =>
         s'.arrays == s.arrays && s'.cache == s.cache[u := appended] && phase' == Before(pages, u, n + 1)
       case _ => false
  }

  /** Some run of `n` steps leads from one state to the other. */
  ghost predicate ReachesIn(pages: Race.Pages, s: State, s': State, n: nat)
    decreases n
  {
    if n == 0 then s == s'
    else exists m, c: nat :: ReachesIn(pages, s, m, n - 1) && Step(pages, m, s', c)
  }

  ghost predicate Reaches(pages: Race.Pages, s: State, s': State) {
    exists n: nat :: ReachesIn(pages, s, s', n)
  }

  ghost predicate Initial(s: State) {
    s.arrays == [] && s.cache == map[] && forall c | 0 <= c < |s.callers| :: s.callers[c].phase == Checking
  }

  ghost predicate Reachable(pages: Race.Pages, s: State) {
    exists start :: Initial(start) && Reaches(pages, start, s)
  }

  // ---- page 0 is never overwritten ----

  /** An array holds its owner's assignments only, page 0 first. */
  ghost predicate ArrayOk(pages: Race.Pages, a: Array) {
    && pages(a.owner) != [] && pages(a.owner)[0] <= a.cells && |a.cells| <= a.cap
    && forall x | x in a.cells :: x in Flatten(pages(a.owner))
  }

  /** A slice reaches at least to the end of page 0 of its subscription's array. */
  ghost predicate SliceOk(pages: Race.Pages, arrays: seq<Array>, u: string, slice: Slice)
    requires pages(u) != []
  {
    slice.Slice? ==>
      && slice.base < |arrays| && arrays[slice.base].owner == u
      && |pages(u)[0]| <= slice.len <= |arrays[slice.base].cells|
  }

  /** A slice that holds page 0 at least. */
  ghost predicate Started(pages: Race.Pages, arrays: seq<Array>, u: string, slice: Slice)
    requires pages(u) != []
  {
    SliceOk(pages, arrays, u, slice) && (slice.Nil? ==> pages(u)[0] == [])
  }

  ghost predicate CallerOk(pages: Race.Pages, s: State, caller: Caller)
    requires pages(caller.subscription) != []
  {
    var u := caller.subscription;
    match caller.phase
    case Checking => true
    case Fetching(n) => n < |pages(u)| && (n > 0 ==> u in s.cache)
    case Appending(n, read) =>
      n < |pages(u)| && SliceOk(pages, s.arrays, u, read) && (n > 0 ==> u in s.cache && Started(pages, s.arrays, u, read))
    case Storing(n, appended) => n < |pages(u)| && Started(pages, s.arrays, u, appended) && (n > 0 ==> u in s.cache)
    case Hit => u in s.cache
    case Finished => u in s.cache
    case Aborted(_) => true
  }

  ghost predicate Inv(pages: Race.Pages, s: State)
    requires forall u :: pages(u) != []
  {
    && (forall i | 0 <= i < |s.arrays| :: ArrayOk(pages, s.arrays[i]))
    && (forall u | u in s.cache :: Started(pages, s.arrays, u, s.cache[u]))
    && (forall c | 0 <= c < |s.callers| :: CallerOk(pages, s, s.callers[c]))
  }

  /** Arrays keep their owners and never lose cells. */
  ghost predicate Grown(arrays: seq<Array>, arrays': seq<Array>) {
    && |arrays| <= |arrays'|
    && forall i | 0 <= i < |arrays| ::
         arrays'[i].owner == arrays[i].owner && |arrays'[i].cells| >= |arrays[i].cells| && arrays'[i].cap == arrays[i].cap
  }

  lemma WrittenOk(pages: Race.Pages, a: Array, at: nat, page: seq<RoleAssignment>)
    requires ArrayOk(pages, a) && |pages(a.owner)[0]| <= at <= |a.cells| && at + |page| <= a.cap
    requires forall x | x in page :: x in Flatten(pages(a.owner))
    ensures ArrayOk(pages, a.(cells := Written(a.cells, at, page)))
    ensures |Written(a.cells, at, page)| >= |a.cells| && |Written(a.cells, at, page)| >= at + |page|
  {
    var written := Written(a.cells, at, page);
    forall x | x in written ensures x in Flatten(pages(a.owner)) {
      assert x in a.cells[..at] || x in page || (at + |page| <= |a.cells| && x in a.cells[at + |page|..]);
    }
    assert pages(a.owner)[0] <= a.cells[..at];
  }

  /** `append` keeps arrays good, and makes a slice that holds page 0. */
  lemma AppendOk(pages: Race.Pages, u: string, arrays: seq<Array>, read: Slice, n: nat, arrays': seq<Array>, appended: Slice)
    requires (forall v :: pages(v) != []) && n < |pages(u)|
    requires forall i | 0 <= i < |arrays| :: ArrayOk(pages, arrays[i])
    requires SliceOk(pages, arrays, u, read) && (n > 0 ==> Started(pages, arrays, u, read))
    requires Appends(u, arrays, read, pages(u)[n], arrays', appended)
    ensures forall i | 0 <= i < |arrays'| :: ArrayOk(pages, arrays'[i])
    ensures Started(pages, arrays', u, appended) && Grown(arrays, arrays')
  {
    var page := pages(u)[n];
    forall x | x in page ensures x in Flatten(pages(u)) {
      FlattenMember(pages(u), x);
    }
    if page != [] && Fits(arrays, read, page) {
      WrittenOk(pages, arrays[read.base], read.len, page);
    } else if page != [] {
      var before, made := Contents(arrays, read), arrays'[|arrays|];
      assert pages(u)[0] <= made.cells;
      assert forall x | x in before :: x in Flatten(pages(u));
      assert forall i | 0 <= i < |arrays| :: arrays'[i] == arrays'[..|arrays|][i];
    }
  }

  lemma SliceStays(pages: Race.Pages, arrays: seq<Array>, arrays': seq<Array>, u: string, slice: Slice)
    requires pages(u) != [] && Grown(arrays, arrays') && SliceOk(pages, arrays, u, slice)
    ensures SliceOk(pages, arrays', u, slice)
  {
  }

  lemma ArraysStep(pages: Race.Pages, s: State, s': State, c: nat)
    requires (forall u :: pages(u) != []) && Inv(pages, s) && Step(pages, s, s', c)
    ensures forall i | 0 <= i < |s'.arrays| :: ArrayOk(pages, s'.arrays[i])
    ensures Grown(s.arrays, s'.arrays)
    ensures s'.callers[c].phase.Storing? ==>
              Started(pages, s'.arrays, s.callers[c].subscription, s'.callers[c].phase.appended)
  {
    assert CallerOk(pages, s, s.callers[c]);
    var u, phase := s.callers[c].subscription, s.callers[c].phase;
    if phase.Appending? {
      AppendOk(pages, u, s.arrays, phase.read, phase.next, s'.arrays, s'.callers[c].phase.appended);
    }
  }

  lemma InvStep(pages: Race.Pages, s: State, s': State, c: nat)
    requires (forall u :: pages(u) != []) && Inv(pages, s) && Step(pages, s, s', c)
    ensures Inv(pages, s')
  {
    ArraysStep(pages, s, s', c);
    assert CallerOk(pages, s, s.callers[c]);
    forall u | u in s'.cache ensures Started(pages, s'.arrays, u, s'.cache[u]) {
      if u in s.cache {
        SliceStays(pages, s.arrays, s'.arrays, u, s.cache[u]);
      }
    }
    forall d | 0 <= d < |s'.callers| ensures CallerOk(pages, s', s'.callers[d]) {
      assert CallerOk(pages, s, s.callers[d]);
      if d != c {
        CallerStays(pages, s, s', s.callers[d]);
      }
    }
  }

  lemma CallerStays(pages: Race.Pages, s: State, s': State, caller: Caller)
    requires pages(caller.subscription) != [] && CallerOk(pages, s, caller)
    requires Grown(s.arrays, s'.arrays) && s.cache.Keys <= s'.cache.Keys
    ensures CallerOk(pages, s', caller)
  {
  }

  lemma {:induction false} RunInv(pages: Race.Pages, start: State, s: State, n: nat)
    requires (forall u :: pages(u) != []) && Initial(start) && ReachesIn(pages, start, s, n)
    ensures Inv(pages, s)
    decreases n
  {
    if n > 0 {
      var m, c: nat :| ReachesIn(pages, start, m, n - 1) && Step(pages, m, s, c);
      RunInv(pages, start, m, n - 1);
      InvStep(pages, m, s, c);
    }
  }

  /** In every reachable state, however callers overwrite each other's pages and whichever
      have aborted, a cached list starts with the whole page 0 and holds only assignments of
      the subscription's own listing; and a caller that has returned finds one. */
  lemma {:induction false} PageZeroSurvives(pages: Race.Pages, s: State, u: string)
    requires Reachable(pages, s) && forall v :: pages(v) != []
    ensures u in s.cache ==>
              && pages(u)[0] <= Contents(s.arrays, s.cache[u])
              && forall x | x in Contents(s.arrays, s.cache[u]) :: x in Flatten(pages(u))
    ensures (exists c :: 0 <= c < |s.callers| && s.callers[c].subscription == u
                         && (s.callers[c].phase.Hit? || s.callers[c].phase.Finished?)) ==> u in s.cache
  {
    var start :| Initial(start) && Reaches(pages, start, s);
    var n: nat :| ReachesIn(pages, start, s, n);
    RunInv(pages, start, s, n);
    if c :| 0 <= c < |s.callers| && s.callers[c].subscription == u
            && (s.callers[c].phase.Hit? || s.callers[c].phase.Finished?) {
      assert CallerOk(pages, s, s.callers[c]);
    }
    if u in s.cache && s.cache[u].Slice? {
      var a := s.arrays[s.cache[u].base];
      assert ArrayOk(pages, a) && pages(u)[0] <= a.cells[..s.cache[u].len];
      assert forall x | x in a.cells[..s.cache[u].len] :: x in a.cells;
    }
  }

  // ---- and nothing else is safe ----

  lemma ReachesStep(pages: Race.Pages, start: State, s: State, s': State, c: nat)
    requires Reaches(pages, start, s) && Step(pages, s, s', c)
    ensures Reaches(pages, start, s')
  {
    var n: nat :| ReachesIn(pages, start, s, n);
    assert ReachesIn(pages, start, s', n + 1);
  }

  ghost function At(s: State, c: nat, phase: Phase): State
    requires c < |s.callers|
  {
    s.(callers := s.callers[c := s.callers[c].(phase := phase)])
  }

  lemma Reads(pages: Race.Pages, start: State, s: State, c: nat) returns (s': State)
    requires Reaches(pages, start, s) && c < |s.callers| && s.callers[c].phase.Fetching?
    ensures s' == At(s, c, Appending(s.callers[c].phase.next, Cached(s, s.callers[c].subscription)))
    ensures Reaches(pages, start, s')
  {
    s' := At(s, c, Appending(s.callers[c].phase.next, Cached(s, s.callers[c].subscription)));
    ReachesStep(pages, start, s, s', c);
  }

  lemma AppendsTo(pages: Race.Pages, start: State, s: State, c: nat, arrays: seq<Array>, appended: Slice) returns (s': State)
    requires Reaches(pages, start, s) && c < |s.callers| && s.callers[c].phase.Appending?
    requires s.callers[c].phase.next < |pages(s.callers[c].subscription)|
    requires Appends(s.callers[c].subscription, s.arrays, s.callers[c].phase.read,
                     pages(s.callers[c].subscription)[s.callers[c].phase.next], arrays, appended)
    ensures s' == At(s, c, Storing(s.callers[c].phase.next, appended)).(arrays := arrays)
    ensures Reaches(pages, start, s')
  {
    s' := At(s, c, Storing(s.callers[c].phase.next, appended)).(arrays := arrays);
    ReachesStep(pages, start, s, s', c);
  }

  lemma Stores(pages: Race.Pages, start: State, s: State, c: nat) returns (s': State)
    requires Reaches(pages, start, s) && c < |s.callers| && s.callers[c].phase.Storing?
    ensures var u := s.callers[c].subscription;
            s' == At(s, c, Before(pages, u, s.callers[c].phase.next + 1)).(cache := s.cache[u := s.callers[c].phase.appended])
    ensures Reaches(pages, start, s')
  {
    var u := s.callers[c].subscription;
    s' := At(s, c, Before(pages, u, s.callers[c].phase.next + 1)).(cache := s.cache[u := s.callers[c].phase.appended]);
    ReachesStep(pages, start, s, s', c);
  }

  lemma AtTwice(s: State, c: nat, phase: Phase, phase': Phase)
    requires c < |s.callers|
    ensures s.callers[c := Caller(s.callers[c].subscription, phase)][c := Caller(s.callers[c].subscription, phase')]
         == s.callers[c := Caller(s.callers[c].subscription, phase')]
  {
  }

  /** Caller `c` does one whole page: read, append, store. */
  lemma DoesPage(pages: Race.Pages, start: State, s: State, c: nat, arrays: seq<Array>, appended: Slice) returns (s': State)
    requires Reaches(pages, start, s) && c < |s.callers| && s.callers[c].phase.Fetching?
    requires s.callers[c].phase.next < |pages(s.callers[c].subscription)|
    requires Appends(s.callers[c].subscription, s.arrays, Cached(s, s.callers[c].subscription),
                     pages(s.callers[c].subscription)[s.callers[c].phase.next], arrays, appended)
    ensures var u := s.callers[c].subscription;
            s' == State(arrays, s.cache[u := appended], s.callers[c := Caller(u, Before(pages, u, s.callers[c].phase.next + 1))])
    ensures Reaches(pages, start, s')
  {
    var u, n := s.callers[c].subscription, s.callers[c].phase.next;
    var s1 := Reads(pages, start, s, c);
    var s2 := AppendsTo(pages, start, s1, c, arrays, appended);
    AtTwice(s, c, Appending(n, Cached(s, u)), Storing(n, appended));
    s' := Stores(pages, start, s2, c);
    AtTwice(s, c, Storing(n, appended), Before(pages, u, n + 1));
  }

  /** The slice fills its array, so that appending a page to it makes a new one. */
  ghost predicate Full(arrays: seq<Array>, slice: Slice) {
    slice.Slice? ==>
      && slice.base < |arrays| && slice.len == |arrays[slice.base].cells| == arrays[slice.base].cap
  }

  /** Appending to a full slice leaves all arrays alone, and a full slice again. */
  lemma AppendFull(u: string, arrays: seq<Array>, slice: Slice, page: seq<RoleAssignment>)
    returns (arrays': seq<Array>, slice': Slice)
    requires Full(arrays, slice)
    ensures Appends(u, arrays, slice, page, arrays', slice')
    ensures arrays <= arrays' && Full(arrays', slice')
  {
    if page == [] {
      arrays', slice' := arrays, slice;
    } else {
      var cells := Contents(arrays, slice) + page;
      arrays', slice' := arrays + [Array(u, cells, |cells|)], Slice(|arrays|, |cells|);
    }
  }

  /** Caller `c`, left alone on a full list, does its pages up to `m` and overwrites nothing. */
  lemma {:induction false} RunsAlone(pages: Race.Pages, start: State, s: State, c: nat, m: nat) returns (s': State)
    requires Reaches(pages, start, s) && c < |s.callers| && s.callers[c].phase.Fetching?
    requires s.callers[c].phase.next < m <= |pages(s.callers[c].subscription)|
    requires Full(s.arrays, Cached(s, s.callers[c].subscription))
    ensures Reaches(pages, start, s') && s.arrays <= s'.arrays
    ensures var u := s.callers[c].subscription;
            && s'.callers == s.callers[c := Caller(u, Before(pages, u, m))]
            && s'.cache.Keys == s.cache.Keys + {u} && Full(s'.arrays, s'.cache[u])
    decreases m - s.callers[c].phase.next
  {
    var u, n := s.callers[c].subscription, s.callers[c].phase.next;
    var arrays, appended := AppendFull(u, s.arrays, Cached(s, u), pages(u)[n]);
    s' := DoesPage(pages, start, s, c, arrays, appended);
    if n + 1 < m {
      s' := RunsAlone(pages, start, s', c, m);
    }
  }

  /** Callers of one subscription, in the given phases. */
  ghost function Callers(u: string, phases: seq<Phase>): seq<Caller> {
    seq(|phases|, i requires 0 <= i < |phases| => Caller(u, phases[i]))
  }

  lemma CallersAt(u: string, phases: seq<Phase>, c: nat, phase: Phase)
    requires c < |phases|
    ensures Callers(u, phases)[c := Caller(u, phase)] == Callers(u, phases[c := phase])
  {
  }

  /** All callers look before anything is cached. */
  lemma {:induction false} AllMiss(pages: Race.Pages, u: string, k: nat, i: nat) returns (start: State)
    requires i <= k && pages(u) != []
    ensures Initial(start)
    ensures Reaches(pages, start, State([], map[], Callers(u, seq(k, j => if j < i then Fetching(0) else Checking))))
  {
    if i == 0 {
      start := State([], map[], Callers(u, seq(k, j => if j < 0 then Fetching(0) else Checking)));
      assert ReachesIn(pages, start, start, 0);
    } else {
      start := AllMiss(pages, u, k, i - 1);
      var before, after := seq(k, j => if j < i - 1 then Fetching(0) else Checking), seq(k, j => if j < i then Fetching(0) else Checking);
      CallersAt(u, before, i - 1, Fetching(0));
      assert before[i - 1 := Fetching(0)] == after;
      ReachesStep(pages, start, State([], map[], Callers(u, before)), State([], map[], Callers(u, after)), i - 1);
    }
  }

  /** Callers from `i` on finish, one after the other. */
  lemma {:induction false} AllFinish(pages: Race.Pages, start: State, s: State, u: string, i: nat) returns (s': State)
    requires Reaches(pages, start, s) && i <= |s.callers| && u in s.cache && Full(s.arrays, s.cache[u])
    requires |pages(u)| >= 2 && forall d | i <= d < |s.callers| :: s.callers[d] == Caller(u, Fetching(1))
    ensures Reaches(pages, start, s') && s.arrays <= s'.arrays && |s'.callers| == |s.callers|
    ensures forall d | 0 <= d < |s.callers| :: s'.callers[d] == if d < i then s.callers[d] else Caller(u, Finished)
    decreases |s.callers| - i
  {
    s' := s;
    if i < |s.callers| {
      var s1 := RunsAlone(pages, start, s, i, |pages(u)|);
      s' := AllFinish(pages, start, s1, u, i + 1);
    }
  }

  function Times(n: nat, z: nat): nat {
    if n == 0 then 0 else Times(n - 1, z) + z
  }

  lemma {:induction false} TimesGrows(n: nat, m: nat, z: nat)
    requires n <= m
    ensures Times(n, z) <= Times(m, z)
    ensures z > 0 ==> Times(m, z) >= Times(n, z) + (m - n)
  {
    if n < m {
      TimesGrows(n, m - 1, z);
    }
  }

  /** The first `j + 1` stretches of array `base` are copies of page 0, of `k + 1` that it can
      hold. The list ends with the last of them; caller 0 is about to store its last page,
      which it wrote at the second, and `j` more callers have stored page 0. */
  ghost predicate Repeating(pages: Race.Pages, u: string, s: State, base: nat, j: nat, k: nat)
    requires |pages(u)| >= 2
  {
    && base < |s.arrays| && Copied(pages(u)[0], s.arrays[base], j + 1, k + 1)
    && s.cache == map[u := Slice(base, Times(j + 1, |pages(u)[0]|))]
    && s.callers == Callers(u, Phases(pages, u, base, j, k))
  }

  /** The array has room for `m` copies of the page, and its first `n` stretches are some. */
  ghost predicate Copied(page: seq<RoleAssignment>, a: Array, n: nat, m: nat) {
    && Times(n, |page|) <= |a.cells| <= a.cap == Times(m, |page|)
    && forall i | 0 <= i < Times(n, |page|) :: a.cells[i] in page
  }

  ghost function Phases(pages: Race.Pages, u: string, base: nat, j: nat, k: nat): seq<Phase>
    requires |pages(u)| >= 2
  {
    seq(k + 2, d => if d == 0 then Storing(|pages(u)| - 1, Slice(base, |pages(u)[0]| + k))
                    else if d < j + 2 then Fetching(1) else Fetching(0))
  }

  lemma CopyOnce(page: seq<RoleAssignment>, a: Array, n: nat, m: nat)
    requires Copied(page, a, n, m) && n < m
    ensures Copied(page, a.(cells := Written(a.cells, Times(n, |page|), page)), n + 1, m)
  {
    TimesGrows(n + 1, m, |page|);
    var at := Times(n, |page|);
    var cells := Written(a.cells, at, page);
    assert Times(n + 1, |page|) == at + |page|;
    forall i | 0 <= i < at + |page| ensures cells[i] in page {
      assert cells[i] == if i < at then a.cells[i] else page[i - at];
    }
  }

  /** An append that fits writes in place; the empty one writes nothing. */
  lemma AppendInPlace(u: string, arrays: seq<Array>, base: nat, at: nat, page: seq<RoleAssignment>)
    requires base < |arrays| && at <= |arrays[base].cells| && at + |page| <= arrays[base].cap
    ensures var a := arrays[base];
            Appends(u, arrays, Slice(base, at), page, arrays[base := a.(cells := Written(a.cells, at, page))], Slice(base, at + |page|))
  {
    var a := arrays[base];
    if page == [] {
      assert Written(a.cells, at, page) == a.cells;
      assert arrays[base := a] == arrays;
    }
  }

  lemma PhasesNext(pages: Race.Pages, u: string, base: nat, j: nat, k: nat)
    requires |pages(u)| >= 2 && j < k
    ensures Callers(u, Phases(pages, u, base, j, k))[j + 2 := Caller(u, Fetching(1))] == Callers(u, Phases(pages, u, base, j + 1, k))
    ensures Callers(u, Phases(pages, u, base, j, k))[j + 2] == Caller(u, Fetching(0))
  {
    CallersAt(u, Phases(pages, u, base, j, k), j + 2, Fetching(1));
    assert Phases(pages, u, base, j, k)[j + 2 := Fetching(1)] == Phases(pages, u, base, j + 1, k);
  }

  /** One more caller stores page 0 behind the copies that are there. */
  lemma RepeatOnce(pages: Race.Pages, u: string, start: State, s: State, base: nat, j: nat, k: nat) returns (s': State)
    requires |pages(u)| >= 2 && pages(u)[0] != [] && j < k
    requires Reaches(pages, start, s) && Repeating(pages, u, s, base, j, k)
    ensures Reaches(pages, start, s') && Repeating(pages, u, s', base, j + 1, k)
  {
    var page, at, a := pages(u)[0], Times(j + 1, |pages(u)[0]|), s.arrays[base];
    var after := a.(cells := Written(a.cells, at, page));
    TimesGrows(j + 2, k + 1, |page|);
    assert Times(j + 2, |page|) == at + |page|;
    CopyOnce(page, a, j + 1, k + 1);
    AppendInPlace(u, s.arrays, base, at, page);
    PhasesNext(pages, u, base, j, k);
    s' := DoesPage(pages, start, s, j + 2, s.arrays[base := after], Slice(base, at + |page|));
  }

  lemma {:induction false} Repeats(pages: Race.Pages, u: string, start: State, s: State, base: nat, j: nat, k: nat) returns (s': State)
    requires |pages(u)| >= 2 && pages(u)[0] != [] && j <= k
    requires Reaches(pages, start, s) && Repeating(pages, u, s, base, j, k)
    ensures Reaches(pages, start, s') && Repeating(pages, u, s', base, k, k)
    decreases k - j
  {
    s' := s;
    if j < k {
      s' := RepeatOnce(pages, u, start, s, base, j, k);
      s' := Repeats(pages, u, start, s', base, j + 1, k);
    }
  }

  /** All callers miss; then caller 1 reads nothing. */
  lemma ReadsNothing(pages: Race.Pages, u: string, k: nat) returns (start: State, s: State)
    requires pages(u) != []
    ensures Initial(start) && Reaches(pages, start, s)
    ensures s == State([], map[], Callers(u, seq(k + 2, d => if d == 1 then Appending(0, Nil) else Fetching(0))))
  {
    var missed: seq<Phase> := seq(k + 2, j => if j < k + 2 then Fetching(0) else Checking);
    start := AllMiss(pages, u, k + 2, k + 2);
    s := Reads(pages, start, State([], map[], Callers(u, missed)), 1);
    CallersAt(u, missed, 1, Appending(0, Nil));
    assert missed[1 := Appending(0, Nil)] == seq(k + 2, d => if d == 1 then Appending(0, Nil) else Fetching(0));
  }

  /** Caller 0 does all pages but the last. */
  lemma ReadsFirst(pages: Race.Pages, u: string, k: nat) returns (start: State, s: State, phases: seq<Phase>)
    requires |pages(u)| >= 2
    ensures Initial(start) && Reaches(pages, start, s)
    ensures |phases| == k + 2 && phases[0] == Fetching(|pages(u)| - 1) && phases[1] == Appending(0, Nil)
    ensures forall d | 2 <= d < k + 2 :: phases[d] == Fetching(0)
    ensures s.callers == Callers(u, phases) && s.cache.Keys == {u}
  {
    var s0: State;
    start, s0 := ReadsNothing(pages, u, k);
    var before: seq<Phase> := seq(k + 2, d => if d == 1 then Appending(0, Nil) else Fetching(0));
    phases := before[0 := Fetching(|pages(u)| - 1)];
    CallersAt(u, before, 0, Fetching(|pages(u)| - 1));
    s := RunsAlone(pages, start, s0, 0, |pages(u)| - 1);
  }

  /** Caller 1 then starts the list again, in an array for `k + 1` copies of page 0. */
  lemma StartsAgain(pages: Race.Pages, u: string, k: nat) returns (start: State, s: State, base: nat, phases: seq<Phase>)
    requires |pages(u)| >= 2 && pages(u)[0] != []
    ensures Initial(start) && Reaches(pages, start, s)
    ensures |phases| == k + 2 && phases[0] == Fetching(|pages(u)| - 1) && phases[1] == Fetching(1)
    ensures forall d | 2 <= d < k + 2 :: phases[d] == Fetching(0)
    ensures s.callers == Callers(u, phases) && s.cache == map[u := Slice(base, |pages(u)[0]|)]
    ensures base < |s.arrays| && s.arrays[base] == Array(u, pages(u)[0], Times(k + 1, |pages(u)[0]|))
  {
    var page := pages(u)[0];
    var s0: State, before: seq<Phase>;
    start, s0, before := ReadsFirst(pages, u, k);
    base := |s0.arrays|;
    var made := Array(u, page, Times(k + 1, |page|));
    TimesGrows(1, k + 1, |page|);
    assert Contents(s0.arrays, Nil) + page == page;
    var s1 := AppendsTo(pages, start, s0, 1, s0.arrays + [made], Slice(base, |page|));
    CallersAt(u, before, 1, Storing(0, Slice(base, |page|)));
    s := Stores(pages, start, s1, 1);
    phases := before[1 := Storing(0, Slice(base, |page|))][1 := Fetching(1)];
    CallersAt(u, before[1 := Storing(0, Slice(base, |page|))], 1, Fetching(1));
    assert s.cache == map[u := Slice(base, |page|)];
  }

  lemma CopiedFirst(a: Array, page: seq<RoleAssignment>, last: seq<RoleAssignment>, k: nat)
    requires a.cells == page && a.cap == Times(k + 1, |page|) && k == |last| && page != []
    ensures |page| + k <= a.cap && Times(1, |page|) == |page|
    ensures Copied(page, a.(cells := Written(a.cells, |page|, last)), 1, k + 1)
  {
    TimesGrows(1, k + 1, |page|);
    assert Times(1, |page|) == Times(0, |page|) + |page|;
    var cells := Written(a.cells, |page|, last);
    assert forall i | 0 <= i < |page| :: cells[i] == page[i];
  }

  lemma PhasesFirst(pages: Race.Pages, u: string, base: nat, phases: seq<Phase>, k: nat)
    requires |pages(u)| >= 2 && |phases| == k + 2 && phases[1] == Fetching(1)
    requires forall d | 2 <= d < k + 2 :: phases[d] == Fetching(0)
    ensures Callers(u, phases)[0 := Caller(u, Storing(|pages(u)| - 1, Slice(base, |pages(u)[0]| + k)))]
         == Callers(u, Phases(pages, u, base, 0, k))
  {
    var first := Storing(|pages(u)| - 1, Slice(base, |pages(u)[0]| + k));
    CallersAt(u, phases, 0, first);
    assert phases[0 := first] == Phases(pages, u, base, 0, k);
  }

  lemma AppendsLastTo(pages: Race.Pages, u: string, start: State, s: State, base: nat, k: nat) returns (s': State)
    requires |pages(u)| >= 2 && pages(u)[0] != [] && k == |pages(u)[|pages(u)| - 1]|
    requires Reaches(pages, start, s) && base < |s.arrays|
    requires s.arrays[base] == Array(u, pages(u)[0], Times(k + 1, |pages(u)[0]|))
    requires s.callers != [] && s.callers[0] == Caller(u, Appending(|pages(u)| - 1, Slice(base, |pages(u)[0]|)))
    ensures Reaches(pages, start, s') && base < |s'.arrays| && Copied(pages(u)[0], s'.arrays[base], 1, k + 1)
    ensures s'.cache == s.cache && Times(1, |pages(u)[0]|) == |pages(u)[0]|
    ensures s'.callers == s.callers[0 := Caller(u, Storing(|pages(u)| - 1, Slice(base, |pages(u)[0]| + k)))]
  {
    var page, last, a := pages(u)[0], pages(u)[|pages(u)| - 1], s.arrays[base];
    var after := a.(cells := Written(a.cells, |page|, last));
    CopiedFirst(a, page, last, k);
    AppendInPlace(u, s.arrays, base, |page|, last);
    s' := AppendsTo(pages, start, s, 0, s.arrays[base := after], Slice(base, |page| + k));
    assert s'.arrays[base] == after;
  }

  /** Caller 0 appends its last page, of `k` assignments, behind the one page of that list. */
  lemma AppendsLast(pages: Race.Pages, u: string, k: nat) returns (start: State, s: State, base: nat)
    requires |pages(u)| >= 2 && pages(u)[0] != [] && k == |pages(u)[|pages(u)| - 1]|
    ensures Initial(start) && Reaches(pages, start, s) && Repeating(pages, u, s, base, 0, k)
  {
    var s0: State, before: seq<Phase>;
    start, s0, base, before := StartsAgain(pages, u, k);
    var reading := Appending(|pages(u)| - 1, Slice(base, |pages(u)[0]|));
    var s1 := Reads(pages, start, s0, 0);
    CallersAt(u, before, 0, reading);
    s := AppendsLastTo(pages, u, start, s1, base, k);
    PhasesFirst(pages, u, base, before[0 := reading], k);
  }

  /** No caller is filling the subscription's list and none has aborted. */
  ghost predicate Settled(s: State, u: string) {
    forall c | 0 <= c < |s.callers| && s.callers[c].subscription == u ::
      s.callers[c].phase.Checking? || s.callers[c].phase.Hit? || s.callers[c].phase.Finished?
  }

  /** The other callers finish in other arrays; then caller 0 stores its slice. */
  lemma StoresLast(pages: Race.Pages, u: string, start: State, s: State, base: nat, k: nat) returns (s': State)
    requires |pages(u)| >= 2 && pages(u)[0] != []
    requires Reaches(pages, start, s) && Repeating(pages, u, s, base, k, k)
    ensures Reaches(pages, start, s') && Settled(s', u) && base < |s'.arrays|
    ensures u in s'.cache && s'.cache[u] == Slice(base, |pages(u)[0]| + k) && Copied(pages(u)[0], s'.arrays[base], k + 1, k + 1)
  {
    var phases := Phases(pages, u, base, k, k);
    forall d | 1 <= d < |s.callers| ensures s.callers[d] == Caller(u, Fetching(1)) {
      assert s.callers[d] == Caller(u, phases[d]);
    }
    assert s.callers[0] == Caller(u, phases[0]);
    var s1 := AllFinish(pages, start, s, u, 1);
    assert s1.arrays[base] == s.arrays[base];
    s' := Stores(pages, start, s1, 0);
  }

  /** Callers that all finish can leave a list of nothing but copies of page 0: the others
      write those over the last page that caller 0 has appended, and finish in other
      arrays, before caller 0 stores its slice. */
  lemma OnlyPageZero(pages: Race.Pages, u: string) returns (s: State)
    requires |pages(u)| >= 2 && pages(u)[0] != []
    ensures Reachable(pages, s) && Settled(s, u) && u in s.cache
    ensures forall x | x in Contents(s.arrays, s.cache[u]) :: x in pages(u)[0]
  {
    var page, k := pages(u)[0], |pages(u)[|pages(u)| - 1]|;
    var start, s0, base := AppendsLast(pages, u, k);
    var s1 := Repeats(pages, u, start, s0, base, 0, k);
    s := StoresLast(pages, u, start, s1, base, k);
    TimesGrows(1, k + 1, |page|);
    assert Times(1, |page|) == Times(0, |page|) + |page|;
  }

  /** Some run of callers that all finish leaves a list without `x`. */
  ghost predicate CanBeLost(pages: Race.Pages, u: string, x: RoleAssignment) {
    exists s :: Reachable(pages, s) && Settled(s, u) && u in s.cache && x !in Contents(s.arrays, s.cache[u])
  }

  /** Which assignments concurrent fills can lose, though no page fails: exactly those that
      are not on page 0. Appends in place make the last page as unsafe as those between. */
  lemma LostExactlyBehindPageZero(pages: Race.Pages, u: string, x: RoleAssignment)
    requires (forall v :: pages(v) != []) && pages(u)[0] != [] && x in Flatten(pages(u))
    ensures CanBeLost(pages, u, x) <==> x !in pages(u)[0]
  {
    if CanBeLost(pages, u, x) {
      var s :| Reachable(pages, s) && Settled(s, u) && u in s.cache && x !in Contents(s.arrays, s.cache[u]);
      PageZeroSurvives(pages, s, u);
    }
    if x !in pages(u)[0] {
      FlattenMember(pages(u), x);
      var s := OnlyPageZero(pages, u);
    }
  }
}
