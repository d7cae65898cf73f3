/** Several callers fill the role cache at once. `cacheRoleAssignments` checks for a hit,
    then for each page reads the cached list and stores it back with the page appended;
    the check, each read and each store are atomic, a page's read and store together are not.
    Here every append makes a new list; SliceRace has appends that write in place. */
module RoleCacheRace {
  import opened Paging
  import opened Assignments

  /** Where a caller of `cacheRoleAssignments` stands. */
  datatype Phase =
    | Checking                                           // about to look for a hit
    | Fetching(next: nat)                                // about to fetch page `next` and read the cache
    | Storing(next: nat, read: seq<RoleAssignment>)      // has read the cache, about to store it with page `next`
    | Hit                                                // found a list and returned
    | Finished                                           // stored the last page
    | Aborted(next: nat)                                 // page `next` failed

  datatype Caller = Caller(subscription: string, phase: Phase)

  datatype State = State(cache: map<string, seq<RoleAssignment>>, callers: seq<Caller>)

  /** The pages every pager of a subscription returns. */
  type Pages = string -> seq<seq<RoleAssignment>>

  function Cached(s: State, subscription: string): seq<RoleAssignment> {
    if subscription in s.cache then s.cache[subscription] else []
  }

  /** The phase in which page `n` comes next. */
  function Before(pages: Pages, subscription: string, n: nat): Phase {
    if n < |pages(subscription)| then Fetching(n) else Finished
  }

  /** Caller `c` takes one atomic step. */
  ghost predicate Step(pages: Pages, s: State, s': State, c: nat) {
    && c < |s.callers| == |s'.callers|
    && s'.callers == s.callers[c := Caller(s.callers[c].subscription, s'.callers[c].phase)]
    && var subscription, phase, phase' := s.callers[c].subscription, s.callers[c].phase, s'.callers[c].phase;
       match phase
       case Checking =>
         s'.cache == s.cache
         && (phase' == (if subscription in s.cache then Hit else Before(pages, subscription, 0))
             || (subscription !in s.cache && phase' == Aborted(0)))
       case Fetching(n) =>
         s'.cache == s.cache && (phase' == Storing(n, Cached(s, subscription)) || phase' == Aborted(n))
       case Storing(n, read) =>
         n < |pages(subscription)| && s'.cache == s.cache[subscription := read + pages(subscription)[n]]
         && phase' == Before(pages, subscription, n + 1)
       case _ => false
  }

  /** Some caller takes a step. */
  ghost predicate Advances(pages: Pages, s: State, s': State) {
    exists c: nat :: Step(pages, s, s', c)
  }

  ghost predicate IsTrace(pages: Pages, trace: seq<State>) {
    && |trace| >= 1
    && (|trace| > 1 ==> IsTrace(pages, trace[..|trace| - 1]) && Advances(pages, trace[|trace| - 2], trace[|trace| - 1]))
  }

  ghost predicate Reaches(pages: Pages, s: State, s': State) {
    exists trace :: IsTrace(pages, trace) && trace[0] == s && trace[|trace| - 1] == s'
  }

  /** Nothing is cached and every caller is about to look. */
  ghost predicate Initial(s: State) {
    s.cache == map[] && forall c | 0 <= c < |s.callers| :: s.callers[c].phase == Checking
  }

  /** How many pages a caller has stored. */
  function Progress(pages: Pages, caller: Caller): nat {
    match caller.phase
    case Fetching(n) => n
    case Storing(n, _) => n
    case Aborted(n) => n
    case Finished => |pages(caller.subscription)|
    case _ => 0
  }

  predicate HasStored(pages: Pages, caller: Caller, subscription: string, page: nat) {
    caller.subscription == subscription && Progress(pages, caller) > page
  }

  /** How many callers have stored page `page` of the subscription. */
  function StoredBy(pages: Pages, callers: seq<Caller>, subscription: string, page: nat): nat {
    if callers == [] then 0
    else (if HasStored(pages, callers[0], subscription, page) then 1 else 0)
         + StoredBy(pages, callers[1..], subscription, page)
  }

  lemma {:induction false} StoredByUpdate(pages: Pages, callers: seq<Caller>, c: nat, caller: Caller, subscription: string, page: nat)
    requires c < |callers|
    ensures StoredBy(pages, callers[c := caller], subscription, page)
         == StoredBy(pages, callers, subscription, page)
            + (if HasStored(pages, caller, subscription, page) then 1 else 0)
            - (if HasStored(pages, callers[c], subscription, page) then 1 else 0)
  {
    if c == 0 {
      assert callers[c := caller][1..] == callers[1..];
    } else {
      assert callers[c := caller][1..] == callers[1..][c - 1 := caller];
      StoredByUpdate(pages, callers[1..], c - 1, caller, subscription, page);
    }
  }

  // ---- which pages make up a list ----

  ghost predicate InRange(pages: seq<seq<RoleAssignment>>, log: seq<nat>) {
    forall i | 0 <= i < |log| :: log[i] < |pages|
  }

  /** The concatenation of the pages with the given numbers. */
  ghost function Gather(pages: seq<seq<RoleAssignment>>, log: seq<nat>): seq<RoleAssignment>
    requires InRange(pages, log)
  {
    if log == [] then [] else Gather(pages, log[..|log| - 1]) + pages[log[|log| - 1]]
  }

  /** The numbers in `log` are pages of the subscription, start with page 0, and name no
      page more often than callers have stored it. */
  ghost predicate GoodLog(pages: Pages, callers: seq<Caller>, subscription: string, log: seq<nat>) {
    && InRange(pages(subscription), log)
    && (log != [] ==> log[0] == 0)
    && forall page: nat :: multiset(log)[page] <= StoredBy(pages, callers, subscription, page)
  }

  /** For each cached list, and for each list a caller has read, the pages it is made of. */
  datatype Shadow = Shadow(cache: map<string, seq<nat>>, read: seq<seq<nat>>)

  ghost predicate CacheOk(pages: Pages, s: State, w: Shadow, u: string)
    requires u in s.cache && u in w.cache
  {
    w.cache[u] != [] && GoodLog(pages, s.callers, u, w.cache[u]) && s.cache[u] == Gather(pages(u), w.cache[u])
  }

  ghost predicate ReadOk(pages: Pages, s: State, w: Shadow, c: nat)
    requires c < |s.callers| == |w.read| && s.callers[c].phase.Storing?
  {
    var u, phase := s.callers[c].subscription, s.callers[c].phase;
    && GoodLog(pages, s.callers, u, w.read[c])
    && phase.read == Gather(pages(u), w.read[c])
    && (phase.next > 0 ==> w.read[c] != [])
  }

  ghost predicate Corresponds(pages: Pages, s: State, w: Shadow) {
    && w.cache.Keys == s.cache.Keys
    && |w.read| == |s.callers|
    && (forall u | u in s.cache :: CacheOk(pages, s, w, u))
    && (forall c | 0 <= c < |s.callers| && s.callers[c].phase.Storing? :: ReadOk(pages, s, w, c))
  }

  /** A caller past its first page or a hit has left a list behind, and fetches pages that exist. */
  ghost predicate CallerOk(pages: Pages, s: State, caller: Caller) {
    && (Progress(pages, caller) > 0 || caller.phase.Hit? ==> caller.subscription in s.cache)
    && (caller.phase.Fetching? || caller.phase.Storing? ==> caller.phase.next < |pages(caller.subscription)|)
  }

  ghost predicate CallersValid(pages: Pages, s: State) {
    forall c | 0 <= c < |s.callers| :: CallerOk(pages, s, s.callers[c])
  }

  ghost predicate Wrote(pages: Pages, caller: Caller, u: string, page: nat) {
    caller.subscription == u && Progress(pages, caller) == page + 1
  }

  /** Some caller stored the page that ends the list last. */
  ghost predicate Ended(pages: Pages, s: State, u: string, log: seq<nat>)
    requires log != []
  {
    exists c :: 0 <= c < |s.callers| && Wrote(pages, s.callers[c], u, log[|log| - 1])
  }

  /** The last page of a cached list is the last one some caller has stored. */
  ghost predicate LastWriter(pages: Pages, s: State, w: Shadow) {
    forall u | u in w.cache && w.cache[u] != [] :: Ended(pages, s, u, w.cache[u])
  }

  ghost predicate Inv(pages: Pages, s: State, w: Shadow) {
    Corresponds(pages, s, w) && CallersValid(pages, s) && LastWriter(pages, s, w)
  }

  /** The step the shadow takes. */
  ghost function ShadowStep(s: State, s': State, w: Shadow, c: nat): Shadow
    requires c < |s.callers| == |s'.callers| == |w.read|
  {
    var u, phase := s.callers[c].subscription, s.callers[c].phase;
    match phase
    case Storing(n, _) => w.(cache := w.cache[u := w.read[c] + [n]])
    case Fetching(_) => w.(read := w.read[c := if u in w.cache then w.cache[u] else []])
    case _ => w
  }

  lemma GatherSnoc(pages: seq<seq<RoleAssignment>>, log: seq<nat>, n: nat)
    requires n < |pages| && InRange(pages, log)
    ensures InRange(pages, log + [n]) && Gather(pages, log + [n]) == Gather(pages, log) + pages[n]
  {
    assert (log + [n])[..|log|] == log;
  }

  /** What the callers have stored only grows, so a good log stays good. */
  lemma GoodLogStays(pages: Pages, s: State, s': State, c: nat, u: string, log: seq<nat>)
    requires Step(pages, s, s', c) && GoodLog(pages, s.callers, u, log)
    ensures GoodLog(pages, s'.callers, u, log)
  {
    forall page: nat ensures StoredBy(pages, s'.callers, u, page) >= StoredBy(pages, s.callers, u, page) {
      StoredByUpdate(pages, s.callers, c, s'.callers[c], u, page);
    }
  }

  /** Storing page `n` on top of a good log makes a good log: the caller had not stored it. */
  lemma GoodLogStore(pages: Pages, s: State, s': State, c: nat, log: seq<nat>)
    requires Step(pages, s, s', c) && s.callers[c].phase.Storing?
    requires GoodLog(pages, s.callers, s.callers[c].subscription, log)
    requires s.callers[c].phase.next > 0 ==> log != []
    ensures GoodLog(pages, s'.callers, s.callers[c].subscription, log + [s.callers[c].phase.next])
  {
    var u, n := s.callers[c].subscription, s.callers[c].phase.next;
    forall page: nat
      ensures multiset(log + [n])[page] <= StoredBy(pages, s'.callers, u, page)
    {
      StoredByUpdate(pages, s.callers, c, s'.callers[c], u, page);
    }
  }

  lemma CacheOkStep(pages: Pages, s: State, s': State, w: Shadow, c: nat, v: string)
    requires Inv(pages, s, w) && Step(pages, s, s', c) && v in s'.cache
    ensures v in ShadowStep(s, s', w, c).cache && CacheOk(pages, s', ShadowStep(s, s', w, c), v)
  {
    if v == s.callers[c].subscription && s.callers[c].phase.Storing? {
      assert ReadOk(pages, s, w, c);
      GoodLogStore(pages, s, s', c, w.read[c]);
      GatherSnoc(pages(v), w.read[c], s.callers[c].phase.next);
    } else {
      assert CacheOk(pages, s, w, v);
      GoodLogStays(pages, s, s', c, v, w.cache[v]);
    }
  }

  lemma ReadOkStep(pages: Pages, s: State, s': State, w: Shadow, c: nat, d: nat)
    requires Inv(pages, s, w) && Step(pages, s, s', c)
    requires d < |s'.callers| && s'.callers[d].phase.Storing?
    ensures ReadOk(pages, s', ShadowStep(s, s', w, c), d)
  {
    var u := s'.callers[d].subscription;
    if d == c {
      assert CallerOk(pages, s, s.callers[c]);
      if u in s.cache {
        assert CacheOk(pages, s, w, u);
        GoodLogStays(pages, s, s', c, u, w.cache[u]);
      }
    } else {
      assert s'.callers[d] == s.callers[d];
      assert ReadOk(pages, s, w, d);
      GoodLogStays(pages, s, s', c, u, w.read[d]);
    }
  }

  lemma CallersValidStep(pages: Pages, s: State, s': State, c: nat)
    requires CallersValid(pages, s) && Step(pages, s, s', c) && forall u :: |pages(u)| >= 1
    ensures CallersValid(pages, s')
  {
    forall d | 0 <= d < |s'.callers| ensures CallerOk(pages, s', s'.callers[d]) {
      assert CallerOk(pages, s, s.callers[d]);
      assert d != c ==> s'.callers[d] == s.callers[d];
    }
  }

  lemma EndedStays(pages: Pages, s: State, s': State, c: nat, u: string, log: seq<nat>)
    requires Step(pages, s, s', c) && log != [] && Ended(pages, s, u, log)
    requires u == s.callers[c].subscription ==> !s.callers[c].phase.Storing?
    ensures Ended(pages, s', u, log)
  {
    var d :| 0 <= d < |s.callers| && Wrote(pages, s.callers[d], u, log[|log| - 1]);
    assert Wrote(pages, s'.callers[d], u, log[|log| - 1]);
  }

  lemma EndedStore(pages: Pages, s: State, s': State, c: nat, log: seq<nat>)
    requires Step(pages, s, s', c) && s.callers[c].phase.Storing?
    ensures Ended(pages, s', s.callers[c].subscription, log + [s.callers[c].phase.next])
  {
    assert Wrote(pages, s'.callers[c], s.callers[c].subscription, s.callers[c].phase.next);
  }

  lemma LastWriterStep(pages: Pages, s: State, s': State, w: Shadow, c: nat)
    requires Inv(pages, s, w) && Step(pages, s, s', c)
    ensures LastWriter(pages, s', ShadowStep(s, s', w, c))
  {
    var w' := ShadowStep(s, s', w, c);
    forall v | v in w'.cache && w'.cache[v] != [] ensures Ended(pages, s', v, w'.cache[v]) {
      if v == s.callers[c].subscription && s.callers[c].phase.Storing? {
        EndedStore(pages, s, s', c, w.read[c]);
      } else {
        EndedStays(pages, s, s', c, v, w.cache[v]);
      }
    }
  }

  lemma InvStep(pages: Pages, s: State, s': State, w: Shadow, c: nat)
    requires Inv(pages, s, w) && Step(pages, s, s', c)
    requires forall u :: |pages(u)| >= 1
    ensures Inv(pages, s', ShadowStep(s, s', w, c))
  {
    var w' := ShadowStep(s, s', w, c);
    forall v | v in s'.cache ensures v in w'.cache && CacheOk(pages, s', w', v) {
      CacheOkStep(pages, s, s', w, c, v);
    }
    forall d | 0 <= d < |s'.callers| && s'.callers[d].phase.Storing? ensures ReadOk(pages, s', w', d) {
      ReadOkStep(pages, s, s', w, c, d);
    }
    CallersValidStep(pages, s, s', c);
    LastWriterStep(pages, s, s', w, c);
  }

  /** Every state a run reaches has a shadow. */
  lemma {:induction false} RunInv(pages: Pages, trace: seq<State>) returns (w: Shadow)
    requires IsTrace(pages, trace) && Initial(trace[0]) && forall u :: |pages(u)| >= 1
    ensures Inv(pages, trace[|trace| - 1], w)
  {
    if |trace| == 1 {
      w := Shadow(map[], seq(|trace[0].callers|, _ => []));
    } else {
      var before := trace[..|trace| - 1];
      var v := RunInv(pages, before);
      var s, s' := trace[|trace| - 2], trace[|trace| - 1];
      assert before[|before| - 1] == s;
      var c: nat :| Step(pages, s, s', c);
      InvStep(pages, s, s', v, c);
      w := ShadowStep(s, s', v, c);
    }
  }

  /** `s` comes up in some run of any number of callers from an empty cache. */
  ghost predicate Reachable(pages: Pages, s: State) {
    exists start :: Initial(start) && Reaches(pages, start, s)
  }

  /** The list cached for `u` is the concatenation of the pages numbered by `log`: page 0
      first, no page more often than callers have stored it, the last one stored by a caller last. */
  ghost predicate MadeOf(pages: Pages, s: State, u: string, log: seq<nat>)
    requires u in s.cache
  {
    && log != [] && GoodLog(pages, s.callers, u, log)
    && s.cache[u] == Gather(pages(u), log)
    && Ended(pages, s, u, log)
  }

  /** In every reachable state, whatever the interleaving and whichever callers have
      aborted, a cached list is a concatenation of the subscription's pages that starts with
      page 0, and no page occurs in it more often than callers have stored that page. */
  lemma {:induction false} RacedCache(pages: Pages, s: State, u: string)
    requires Reachable(pages, s) && (forall v :: |pages(v)| >= 1) && u in s.cache
    ensures exists log :: MadeOf(pages, s, u, log)
  {
    var start :| Initial(start) && Reaches(pages, start, s);
    var trace :| IsTrace(pages, trace) && trace[0] == start && trace[|trace| - 1] == s;
    var w := RunInv(pages, trace);
    assert CacheOk(pages, s, w, u);
    assert MadeOf(pages, s, u, w.cache[u]);
  }

  /** A cached subscription stays cached. */
  lemma {:induction false} KeyStays(pages: Pages, trace: seq<State>, u: string)
    requires IsTrace(pages, trace) && u in trace[0].cache
    ensures u in trace[|trace| - 1].cache
  {
    if |trace| > 1 {
      KeyStays(pages, trace[..|trace| - 1], u);
      var c: nat :| Step(pages, trace[|trace| - 2], trace[|trace| - 1], c);
    }
  }

  lemma KeyNeverDisappears(pages: Pages, s: State, s': State, u: string)
    requires Reaches(pages, s, s') && u in s.cache
    ensures u in s'.cache
  {
    var trace :| IsTrace(pages, trace) && trace[0] == s && trace[|trace| - 1] == s';
    KeyStays(pages, trace, u);
  }

  // ---- one filler ----

  /** The caller has stored nothing and holds nothing it has read. */
  ghost predicate Idle(pages: Pages, caller: Caller) {
    Progress(pages, caller) == 0 && !caller.phase.Storing?
  }

  /** Only caller `c` fills the subscription's list. */
  ghost predicate Sole(pages: Pages, s: State, u: string, c: nat) {
    && c < |s.callers| && s.callers[c].subscription == u
    && forall d | 0 <= d < |s.callers| && d != c && s.callers[d].subscription == u :: Idle(pages, s.callers[d])
  }

  /** The list is what caller `c` has stored, page by page from the first. */
  ghost predicate Prefix(pages: Pages, s: State, u: string, c: nat)
    requires c < |s.callers| && s.callers[c].subscription == u
  {
    var n, phase := Progress(pages, s.callers[c]), s.callers[c].phase;
    && n <= |pages(u)|
    && (u in s.cache <==> n > 0)
    && Cached(s, u) == Flatten(pages(u)[..n])
    && (phase.Fetching? || phase.Storing? ==> n < |pages(u)|)
    && (phase.Storing? ==> phase.read == Flatten(pages(u)[..n]))
  }

  lemma PrefixStep(pages: Pages, s: State, s': State, u: string, c: nat, e: nat)
    requires Sole(pages, s, u, c) && Prefix(pages, s, u, c) && Step(pages, s, s', e) && Sole(pages, s', u, c)
    requires |pages(u)| >= 1
    ensures Prefix(pages, s', u, c)
  {
    if e == c {
      if s.callers[c].phase.Storing? {
        FlattenNext(pages(u), s.callers[c].phase.next);
      }
    } else {
      assert s'.callers[c] == s.callers[c];
      if s.callers[e].subscription == u {
        assert Idle(pages, s.callers[e]);
      }
    }
  }

  lemma SoleBefore(pages: Pages, s: State, s': State, u: string, c: nat, e: nat)
    requires Step(pages, s, s', e) && Sole(pages, s', u, c) && |pages(u)| >= 1
    ensures Sole(pages, s, u, c)
  {
    assert c != e ==> s'.callers[c] == s.callers[c];
    forall d | 0 <= d < |s.callers| && d != c && s.callers[d].subscription == u ensures Idle(pages, s.callers[d]) {
      assert d != e ==> s'.callers[d] == s.callers[d];
      assert Idle(pages, s'.callers[d]);
    }
  }

  /** With a single filler the list is exactly what it stored: complete when it finished,
      the pages before the failing one when it aborted. */
  lemma {:induction false} SoleFiller(pages: Pages, trace: seq<State>, u: string, c: nat)
    requires IsTrace(pages, trace) && Initial(trace[0]) && |pages(u)| >= 1
    requires Sole(pages, trace[|trace| - 1], u, c)
    ensures Prefix(pages, trace[|trace| - 1], u, c)
    ensures var s := trace[|trace| - 1];
            s.callers[c].phase.Finished? ==> u in s.cache && s.cache[u] == Flatten(pages(u))
  {
    if |trace| > 1 {
      var before := trace[..|trace| - 1];
      var s, s' := trace[|trace| - 2], trace[|trace| - 1];
      assert before[|before| - 1] == s;
      var e: nat :| Step(pages, s, s', e);
      SoleBefore(pages, s, s', u, c, e);
      SoleFiller(pages, before, u, c);
      PrefixStep(pages, s, s', u, c, e);
    }
    assert pages(u)[..|pages(u)|] == pages(u);
  }

  // ---- several fillers, none of which fails ----

  /** No caller is filling the subscription's list and none has aborted. */
  ghost predicate Settled(s: State, u: string) {
    forall c | 0 <= c < |s.callers| && s.callers[c].subscription == u ::
      s.callers[c].phase.Checking? || s.callers[c].phase.Hit? || s.callers[c].phase.Finished?
  }

  lemma {:induction false} GatherHolds(pages: seq<seq<RoleAssignment>>, log: seq<nat>, i: nat, x: RoleAssignment)
    requires InRange(pages, log) && i < |log| && x in pages[log[i]]
    ensures x in Gather(pages, log)
  {
    if i < |log| - 1 {
      GatherHolds(pages, log[..|log| - 1], i, x);
    }
  }

  /** Once all fillers have finished, the last page of the listing ends the list. */
  lemma {:induction false} SettledEnd(pages: Pages, s: State, u: string, log: seq<nat>)
    requires u in s.cache && Settled(s, u) && MadeOf(pages, s, u, log)
    ensures log[|log| - 1] == |pages(u)| - 1
  {
    var c :| 0 <= c < |s.callers| && Wrote(pages, s.callers[c], u, log[|log| - 1]);
    assert s.callers[c].phase.Finished?;
  }

  lemma EndsInLog(pages: Pages, s: State, u: string, log: seq<nat>, x: RoleAssignment)
    requires u in s.cache && Settled(s, u) && MadeOf(pages, s, u, log) && pages(u) != []
    requires x in pages(u)[0] || x in pages(u)[|pages(u)| - 1]
    ensures x in s.cache[u]
  {
    SettledEnd(pages, s, u, log);
    if x in pages(u)[0] {
      GatherHolds(pages(u), log, 0, x);
    } else {
      GatherHolds(pages(u), log, |log| - 1, x);
    }
  }

  /** Once all fillers have finished, whatever their interleaving, the first and the last
      page are in the list. */
  lemma EndsAreKept(pages: Pages, s: State, u: string, x: RoleAssignment)
    requires Reachable(pages, s) && (forall v :: |pages(v)| >= 1)
    requires u in s.cache && Settled(s, u)
    requires x in pages(u)[0] || x in pages(u)[|pages(u)| - 1]
    ensures x in s.cache[u]
  {
    RacedCache(pages, s, u);
    var log :| MadeOf(pages, s, u, log);
    EndsInLog(pages, s, u, log, x);
  }

  // ---- composing runs ----

  lemma TraceSnoc(pages: Pages, trace: seq<State>, s: State)
    requires IsTrace(pages, trace) && Advances(pages, trace[|trace| - 1], s)
    ensures IsTrace(pages, trace + [s])
  {
    var whole := trace + [s];
    assert whole[..|whole| - 1] == trace && whole[|whole| - 2] == trace[|trace| - 1];
  }

  lemma ReachesSame(pages: Pages, s: State)
    ensures Reaches(pages, s, s)
  {
    assert IsTrace(pages, [s]) && [s][0] == s;
  }

  lemma ReachesStep(pages: Pages, s: State, t: State, u: State, c: nat)
    requires Reaches(pages, s, t) && Step(pages, t, u, c)
    ensures Reaches(pages, s, u)
  {
    var a :| IsTrace(pages, a) && a[0] == s && a[|a| - 1] == t;
    TraceSnoc(pages, a, u);
    var whole := a + [u];
    assert whole[0] == s && whole[|whole| - 1] == u;
  }

  /** The state with caller `c` in another phase. */
  ghost function At(s: State, c: nat, phase: Phase): State
    requires c < |s.callers|
  {
    s.(callers := s.callers[c := s.callers[c].(phase := phase)])
  }

  /** Caller `c` reads the cache for its next page. */
  lemma Reads(pages: Pages, s: State, t: State, c: nat) returns (t': State)
    requires Reaches(pages, s, t) && c < |t.callers| && t.callers[c].phase.Fetching?
    ensures t' == At(t, c, Storing(t.callers[c].phase.next, Cached(t, t.callers[c].subscription)))
    ensures Reaches(pages, s, t')
  {
    t' := At(t, c, Storing(t.callers[c].phase.next, Cached(t, t.callers[c].subscription)));
    ReachesStep(pages, s, t, t', c);
  }

  /** Caller `c` stores what it has read with its next page appended. */
  lemma Stores(pages: Pages, s: State, t: State, c: nat) returns (t': State)
    requires Reaches(pages, s, t) && c < |t.callers| && t.callers[c].phase.Storing?
    requires t.callers[c].phase.next < |pages(t.callers[c].subscription)|
    ensures var u, n := t.callers[c].subscription, t.callers[c].phase.next;
            t' == At(t, c, Before(pages, u, n + 1)).(cache := t.cache[u := t.callers[c].phase.read + pages(u)[n]])
    ensures Reaches(pages, s, t')
  {
    var u, n := t.callers[c].subscription, t.callers[c].phase.next;
    t' := At(t, c, Before(pages, u, n + 1)).(cache := t.cache[u := t.callers[c].phase.read + pages(u)[n]]);
    ReachesStep(pages, s, t, t', c);
  }

  /** The state after caller `c` has stored its pages up to page `m` undisturbed. */
  ghost function Ran(pages: Pages, t: State, c: nat, m: nat): State
    requires c < |t.callers| && t.callers[c].phase.Fetching?
    requires t.callers[c].phase.next < m <= |pages(t.callers[c].subscription)|
  {
    var u, n := t.callers[c].subscription, t.callers[c].phase.next;
    At(t, c, Before(pages, u, m)).(cache := t.cache[u := Cached(t, u) + Flatten(pages(u)[n..m])])
  }

  lemma RanNext(pages: Pages, t: State, c: nat, m: nat)
    requires c < |t.callers| && t.callers[c].phase.Fetching?
    requires t.callers[c].phase.next + 1 < m <= |pages(t.callers[c].subscription)|
    ensures Ran(pages, Ran(pages, t, c, t.callers[c].phase.next + 1), c, m) == Ran(pages, t, c, m)
  {
    var u, n := t.callers[c].subscription, t.callers[c].phase.next;
    var p := pages(u);
    assert p[n..m] == p[n..n + 1] + p[n + 1..m];
    FlattenConcat(p[n..n + 1], p[n + 1..m]);
    assert Cached(t, u) + (Flatten(p[n..n + 1]) + Flatten(p[n + 1..m]))
        == (Cached(t, u) + Flatten(p[n..n + 1])) + Flatten(p[n + 1..m]);
  }

  lemma FlattenOne(p: seq<seq<RoleAssignment>>, n: nat)
    requires n < |p|
    ensures Flatten(p[n..n + 1]) == p[n]
  {
    var one := p[n..n + 1];
    assert one == [p[n]] && one[1..] == [];
    assert Flatten(one) == p[n] + [];
  }

  lemma AtTwice(s: State, c: nat, phase: Phase, phase': Phase)
    requires c < |s.callers|
    ensures At(At(s, c, phase), c, phase') == At(s, c, phase')
  {
  }

  lemma RunsOnce(pages: Pages, s: State, t: State, c: nat)
    requires Reaches(pages, s, t) && c < |t.callers| && t.callers[c].phase.Fetching?
    requires t.callers[c].phase.next < |pages(t.callers[c].subscription)|
    ensures Reaches(pages, s, Ran(pages, t, c, t.callers[c].phase.next + 1))
  {
    var u, n := t.callers[c].subscription, t.callers[c].phase.next;
    FlattenOne(pages(u), n);
    var t1 := Reads(pages, s, t, c);
    AtTwice(t, c, t1.callers[c].phase, Before(pages, u, n + 1));
    var t2 := Stores(pages, s, t1, c);
  }

  /** Caller `c`, left alone, stores its pages up to page `m`. */
  lemma {:induction false} RunsAlone(pages: Pages, s: State, t: State, c: nat, m: nat)
    requires Reaches(pages, s, t) && c < |t.callers| && t.callers[c].phase.Fetching?
    requires t.callers[c].phase.next < m <= |pages(t.callers[c].subscription)|
    ensures Reaches(pages, s, Ran(pages, t, c, m))
    decreases m - t.callers[c].phase.next
  {
    var n := t.callers[c].phase.next;
    RunsOnce(pages, s, t, c);
    if n + 1 < m {
      RunsAlone(pages, s, Ran(pages, t, c, n + 1), c, m);
      RanNext(pages, t, c, m);
    }
  }

  /** A two-caller state of one subscription. */
  ghost function Two(u: string, list: seq<RoleAssignment>, first: Phase, second: Phase): State {
    State(map[u := list], [Caller(u, first), Caller(u, second)])
  }

  /** What a step of either caller makes of such a state. */
  lemma TwoAt(u: string, list: seq<RoleAssignment>, first: Phase, second: Phase, phase: Phase, list': seq<RoleAssignment>)
    ensures var s := Two(u, list, first, second);
            && Cached(s, u) == list
            && At(s, 0, phase) == Two(u, list, phase, second)
            && At(s, 1, phase) == Two(u, list, first, phase)
            && At(s, 0, phase).(cache := s.cache[u := list']) == Two(u, list', phase, second)
            && At(s, 1, phase).(cache := s.cache[u := list']) == Two(u, list', first, phase)
  {
    var s := Two(u, list, first, second);
    assert s.callers[0 := Caller(u, phase)] == [Caller(u, phase), Caller(u, second)];
    assert s.callers[1 := Caller(u, phase)] == [Caller(u, first), Caller(u, phase)];
    assert s.cache[u := list'] == map[u := list'];
  }

  /** Both callers miss, and the second reads the empty cache. */
  lemma BothMiss(pages: Pages, u: string) returns (start: State)
    requires |pages(u)| >= 1
    ensures Initial(start)
    ensures Reaches(pages, start, State(map[], [Caller(u, Fetching(0)), Caller(u, Storing(0, []))]))
  {
    start := State(map[], [Caller(u, Checking), Caller(u, Checking)]);
    ReachesSame(pages, start);
    var s1 := State(map[], [Caller(u, Fetching(0)), Caller(u, Checking)]);
    ReachesStep(pages, start, start, s1, 0);
    var s2 := State(map[], [Caller(u, Fetching(0)), Caller(u, Fetching(0))]);
    ReachesStep(pages, start, s1, s2, 1);
    var s3 := Reads(pages, start, s2, 1);
    assert s3.callers == [Caller(u, Fetching(0)), Caller(u, Storing(0, []))];
  }

  /** The first caller stores all pages but the last while the second holds its stale, empty read. */
  lemma StaleRead(pages: Pages, u: string, start: State)
    requires |pages(u)| >= 3
    requires Reaches(pages, start, State(map[], [Caller(u, Fetching(0)), Caller(u, Storing(0, []))]))
    ensures Reaches(pages, start, Two(u, Flatten(pages(u)[..|pages(u)| - 1]), Fetching(|pages(u)| - 1), Storing(0, [])))
  {
    var s := State(map[], [Caller(u, Fetching(0)), Caller(u, Storing(0, []))]);
    RunsAlone(pages, start, s, 0, |pages(u)| - 1);
    var front := pages(u)[..|pages(u)| - 1];
    assert pages(u)[0..|pages(u)| - 1] == front && [] + Flatten(front) == Flatten(front);
    assert Ran(pages, s, 0, |pages(u)| - 1).callers == [Caller(u, Fetching(|pages(u)| - 1)), Caller(u, Storing(0, []))];
  }

  /** The second caller's stale store leaves page 0 alone. */
  lemma StaleStore(pages: Pages, u: string, start: State, list: seq<RoleAssignment>, first: Phase)
    requires |pages(u)| >= 2
    requires Reaches(pages, start, Two(u, list, first, Storing(0, [])))
    ensures Reaches(pages, start, Two(u, pages(u)[0], first, Fetching(1)))
  {
    var page := pages(u)[0];
    assert [] + page == page;
    TwoAt(u, list, first, Storing(0, []), Fetching(1), page);
    var s := Stores(pages, start, Two(u, list, first, Storing(0, [])), 1);
  }

  /** The first caller reads what is cached for its next page. */
  lemma FirstReads(pages: Pages, u: string, start: State, list: seq<RoleAssignment>, n: nat, second: Phase)
    requires Reaches(pages, start, Two(u, list, Fetching(n), second))
    ensures Reaches(pages, start, Two(u, list, Storing(n, list), second))
  {
    var s := Reads(pages, start, Two(u, list, Fetching(n), second), 0);
    TwoAt(u, list, Fetching(n), second, Storing(n, list), list);
  }

  /** The second caller, alone, stores every page but the last; then the first stores its
      last page on top of the page 0 it has read. */
  lemma StaleAgain(pages: Pages, u: string, start: State)
    requires |pages(u)| >= 3
    requires Reaches(pages, start, Two(u, pages(u)[0], Storing(|pages(u)| - 1, pages(u)[0]), Fetching(1)))
    ensures Reaches(pages, start, Two(u, pages(u)[0] + pages(u)[|pages(u)| - 1], Finished, Fetching(|pages(u)| - 1)))
  {
    var n := |pages(u)|;
    var held := Storing(n - 1, pages(u)[0]);
    var list := pages(u)[0] + Flatten(pages(u)[1..n - 1]);
    RunsAlone(pages, start, Two(u, pages(u)[0], held, Fetching(1)), 1, n - 1);
    TwoAt(u, pages(u)[0], held, Fetching(1), Fetching(n - 1), list);
    var s := Stores(pages, start, Two(u, list, held, Fetching(n - 1)), 0);
    TwoAt(u, list, held, Fetching(n - 1), Finished, pages(u)[0] + pages(u)[n - 1]);
  }

  /** The second caller stores its last page, too. */
  lemma LastStore(pages: Pages, u: string, start: State, list: seq<RoleAssignment>)
    requires |pages(u)| >= 1
    requires Reaches(pages, start, Two(u, list, Finished, Fetching(|pages(u)| - 1)))
    ensures Reaches(pages, start, Two(u, list + pages(u)[|pages(u)| - 1], Finished, Finished))
  {
    var n := |pages(u)| - 1;
    var s := Two(u, list, Finished, Fetching(n));
    var s1 := Reads(pages, start, s, 1);
    TwoAt(u, list, Finished, Fetching(n), Storing(n, list), list);
    var s2 := Stores(pages, start, s1, 1);
    TwoAt(u, list, Finished, Storing(n, list), Finished, list + pages(u)[n]);
  }

  /** From both misses to both ends. */
  lemma StaleRun(pages: Pages, u: string, start: State)
    requires |pages(u)| >= 3
    requires Reaches(pages, start, State(map[], [Caller(u, Fetching(0)), Caller(u, Storing(0, []))]))
    ensures var last := pages(u)[|pages(u)| - 1];
            Reaches(pages, start, Two(u, pages(u)[0] + last + last, Finished, Finished))
  {
    var first, n := pages(u)[0], |pages(u)| - 1;
    StaleRead(pages, u, start);
    StaleStore(pages, u, start, Flatten(pages(u)[..n]), Fetching(n));
    FirstReads(pages, u, start, first, n, Fetching(1));
    StaleAgain(pages, u, start);
    LastStore(pages, u, start, first + pages(u)[n]);
  }

  /** Two callers that both miss and both finish without a failure can leave a list that
      holds only the first page and, twice, the last: stale stores drop every page between. */
  lemma MiddleDropped(pages: Pages, u: string) returns (s: State)
    requires |pages(u)| >= 3
    ensures Reachable(pages, s) && Settled(s, u)
    ensures var last := pages(u)[|pages(u)| - 1]; s == Two(u, pages(u)[0] + last + last, Finished, Finished)
  {
    var start := BothMiss(pages, u);
    StaleRun(pages, u, start);
    var last := pages(u)[|pages(u)| - 1];
    s := Two(u, pages(u)[0] + last + last, Finished, Finished);
  }

  /** Some run of callers that all finish leaves a list without `x`. */
  ghost predicate CanBeLost(pages: Pages, u: string, x: RoleAssignment) {
    exists s :: Reachable(pages, s) && Settled(s, u) && u in s.cache && x !in s.cache[u]
  }

  /** Which assignments concurrent fills can lose, though no page fails: exactly those that
      are on neither the first nor the last page. */
  lemma LostExactlyInTheMiddle(pages: Pages, u: string, x: RoleAssignment)
    requires (forall v :: |pages(v)| >= 1) && x in Flatten(pages(u))
    ensures CanBeLost(pages, u, x) <==> x !in pages(u)[0] && x !in pages(u)[|pages(u)| - 1]
  {
    if CanBeLost(pages, u, x) {
      var s :| Reachable(pages, s) && Settled(s, u) && u in s.cache && x !in s.cache[u];
      if x in pages(u)[0] || x in pages(u)[|pages(u)| - 1] {
        EndsAreKept(pages, s, u, x);
      }
    }
    if x !in pages(u)[0] && x !in pages(u)[|pages(u)| - 1] {
      FlattenMember(pages(u), x);
      var s := MiddleDropped(pages, u);
    }
  }

  // ---- what a caller reads after it has returned ----

  /** Caller `c` has returned without an error, and no caller has met a failing page. */
  ghost predicate HasReturned(s: State, u: string, c: nat, filled: bool) {
    && c < |s.callers| && s.callers[c].subscription == u
    && (if filled then s.callers[c].phase.Finished? else s.callers[c].phase.Hit?)
    && forall d | 0 <= d < |s.callers| :: !s.callers[d].phase.Aborted?
  }

  /** Though no page fails, a caller that has returned, after filling the list itself to the
      end or after a hit, can read a list without `x`. */
  ghost predicate CanBeMissed(pages: Pages, u: string, x: RoleAssignment, filled: bool) {
    exists s, c :: Reachable(pages, s) && HasReturned(s, u, c, filled) && x !in Cached(s, u)
  }

  /** Every later read of a caller that has returned holds page 0. */
  lemma {:induction false} ReadsPageZero(pages: Pages, s: State, u: string, c: nat, filled: bool, x: RoleAssignment)
    requires Reachable(pages, s) && (forall v :: |pages(v)| >= 1)
    requires HasReturned(s, u, c, filled) && x in pages(u)[0]
    ensures x in Cached(s, u)
  {
    var start :| Initial(start) && Reaches(pages, start, s);
    var trace :| IsTrace(pages, trace) && trace[0] == start && trace[|trace| - 1] == s;
    var w := RunInv(pages, trace);
    assert CallerOk(pages, s, s.callers[c]);
    assert CacheOk(pages, s, w, u);
    GatherHolds(pages(u), w.cache[u], 0, x);
  }

  /** The first caller fills the list to the end; then the second, which missed as well,
      stores page 0 on its stale, empty read. */
  lemma OnlyPageZero(pages: Pages, u: string) returns (s: State)
    requires |pages(u)| >= 2
    ensures Reachable(pages, s) && s == Two(u, pages(u)[0], Finished, Fetching(1))
  {
    var start := BothMiss(pages, u);
    var missed := State(map[], [Caller(u, Fetching(0)), Caller(u, Storing(0, []))]);
    RunsAlone(pages, start, missed, 0, |pages(u)|);
    assert pages(u)[0..|pages(u)|] == pages(u) && [] + Flatten(pages(u)) == Flatten(pages(u));
    assert Ran(pages, missed, 0, |pages(u)|).callers == [Caller(u, Finished), Caller(u, Storing(0, []))];
    StaleStore(pages, u, start, Flatten(pages(u)), Finished);
    s := Two(u, pages(u)[0], Finished, Fetching(1));
  }

  /** The first caller has missed, and the second has not looked. */
  lemma FirstMisses(pages: Pages, u: string) returns (start: State)
    requires |pages(u)| >= 1
    ensures Initial(start) && Reaches(pages, start, State(map[], [Caller(u, Fetching(0)), Caller(u, Checking)]))
  {
    start := State(map[], [Caller(u, Checking), Caller(u, Checking)]);
    ReachesSame(pages, start);
    ReachesStep(pages, start, start, State(map[], [Caller(u, Fetching(0)), Caller(u, Checking)]), 0);
  }

  /** The first caller has stored page 0, and the second has not looked. */
  lemma StoresPageZero(pages: Pages, u: string) returns (start: State)
    requires |pages(u)| >= 2
    ensures Initial(start) && Reaches(pages, start, Two(u, pages(u)[0], Fetching(1), Checking))
  {
    start := FirstMisses(pages, u);
    var s := State(map[], [Caller(u, Fetching(0)), Caller(u, Checking)]);
    RunsOnce(pages, start, s, 0);
    FlattenOne(pages(u), 0);
    assert [] + pages(u)[0] == pages(u)[0];
    assert Ran(pages, s, 0, 1).callers == [Caller(u, Fetching(1)), Caller(u, Checking)];
  }

  /** The second caller looks then, and hits. */
  lemma HitsPageZero(pages: Pages, u: string) returns (s: State)
    requires |pages(u)| >= 2
    ensures Reachable(pages, s) && s == Two(u, pages(u)[0], Fetching(1), Hit)
  {
    var start := StoresPageZero(pages, u);
    s := Two(u, pages(u)[0], Fetching(1), Hit);
    ReachesStep(pages, start, Two(u, pages(u)[0], Fetching(1), Checking), s, 1);
  }

  /** What `Grants` can miss after `cacheRoleAssignments` has succeeded, though no page
      fails: exactly the assignments that are not on page 0, for a caller that filled the
      whole list itself as for one that hit. */
  lemma MissedExactly(pages: Pages, u: string, x: RoleAssignment, filled: bool)
    requires (forall v :: |pages(v)| >= 1) && x in Flatten(pages(u))
    ensures CanBeMissed(pages, u, x, filled) <==> x !in pages(u)[0]
  {
    if CanBeMissed(pages, u, x, filled) && x in pages(u)[0] {
      var s, c :| Reachable(pages, s) && HasReturned(s, u, c, filled) && x !in Cached(s, u);
      ReadsPageZero(pages, s, u, c, filled, x);
    }
    if x !in pages(u)[0] {
      FlattenMember(pages(u), x);
      if filled {
        var s := OnlyPageZero(pages, u);
        assert HasReturned(s, u, 0, filled);
      } else {
        var s := HitsPageZero(pages, u);
        assert HasReturned(s, u, 1, filled);
      }
    }
  }
}
