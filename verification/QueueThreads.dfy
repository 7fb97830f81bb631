/** Any number of threads using one `async_queue` at once: every semaphore operation, every access to
    the vector and every turn of a search is a step of its own, and the steps of different threads
    interleave freely. */
module QueueThreads {
  import opened Basics

  /** An entry of the vector. Its stamp is its rank among all entries ever pushed. */
  datatype Entry<T> = Entry(id: int, item: T, stamp: nat)

  /** Where a thread is. A search is `pop_by_id` when it retries and `try_pop_by_id` when not. */
  datatype Pc<T> =
    | Idle
    | PushWaits(id: int, item: T)           // for `mutex`
    | PushHolds(id: int, item: T)           // has `mutex`, about to append
    | PushAppended                          // has `mutex`, about to give it back
    | PushPosts                             // about to post `awaiting`
    | PopWaits                              // took a token, waits for `mutex`
    | PopHolds                              // has a token and `mutex`, about to take the front
    | SearchAwaits(id: int, retries: bool)  // waits for a token
    | SearchWaits(id: int, retries: bool)   // has a token, waits for `mutex`
    | Searching(id: int, retries: bool, i: nat)   // has a token and `mutex`, about to look at entry i
    | SearchPosts(id: int, retries: bool)   // gave `mutex` back, about to give the token back
    | Returns(entry: Entry<T>)              // took an entry, about to give `mutex` back
    | SizeWaits                             // for `mutex`
    | SizeHolds                             // has `mutex`

  /** An entry that was taken, and the id that was asked for, if one was. */
  datatype Taking<T> = Taking(id: Option<int>, entry: Entry<T>)

  datatype State<T> = State(
    queue: seq<Entry<T>>,
    mutex: nat,
    awaiting: nat,
    threads: map<nat, Pc<T>>,
    pushed: seq<Entry<T>>,    // everything ever appended
    taken: seq<Taking<T>>)    // everything ever taken, in order

  datatype Action<T> =
    | CallPush(t: nat, id: int, item: T)
    | CallTryPop(t: nat)
    | CallSearch(t: nat, id: int, retries: bool)
    | CallSize(t: nat)
    | Step(t: nat)

  predicate Waits<T>(pc: Pc<T>) { pc.PushWaits? || pc.PopWaits? || pc.SearchWaits? || pc.SizeWaits? }

  predicate Enabled<T>(s: State<T>, a: Action<T>) {
    a.t in s.threads &&
    if !a.Step? then s.threads[a.t].Idle?
    else
      var pc := s.threads[a.t];
      && !pc.Idle?
      && (Waits(pc) ==> s.mutex > 0)
      && (pc.SearchAwaits? ==> s.awaiting > 0)
      && (pc.PopHolds? ==> s.queue != [])   // `front()` of an empty vector is undefined
  }

  predicate HoldsMutex<T>(pc: Pc<T>) {
    pc.PushHolds? || pc.PushAppended? || pc.PopHolds? || pc.Searching? || pc.Returns? || pc.SizeHolds?
  }

  /** Took a token from `awaiting` that stands for an entry still in the vector. */
  predicate HoldsToken<T>(pc: Pc<T>) {
    pc.PopWaits? || pc.PopHolds? || pc.SearchWaits? || pc.Searching? || pc.SearchPosts?
  }

  /** Appended an entry for which `awaiting` was not posted yet. */
  predicate OwesToken<T>(pc: Pc<T>) { pc.PushAppended? || pc.PushPosts? }

  function At<T>(s: State<T>, t: nat, pc: Pc<T>): State<T> { s.(threads := s.threads[t := pc]) }

  function Take<T>(s: State<T>, t: nat, id: Option<int>, i: nat): State<T>
    requires i < |s.queue|
  {
    At(s.(queue := RemoveAt(s.queue, i), taken := s.taken + [Taking(id, s.queue[i])]), t, Returns(s.queue[i]))
  }

  function Next<T>(s: State<T>, a: Action<T>): State<T>
    requires Enabled(s, a)
  {
    match a
    case CallPush(t, id, item) => At(s, t, PushWaits(id, item))
    case CallTryPop(t) => if s.awaiting > 0 then At(s.(awaiting := s.awaiting - 1), t, PopWaits) else s
    case CallSearch(t, id, retries) => At(s, t, SearchAwaits(id, retries))
    case CallSize(t) => At(s, t, SizeWaits)
    case Step(t) =>
      var locked := s.(mutex := if s.mutex > 0 then s.mutex - 1 else 0);
      var unlocked := s.(mutex := s.mutex + 1);
      match s.threads[t]
      case Idle => s
      case PushWaits(id, item) => At(locked, t, PushHolds(id, item))
      case PushHolds(id, item) =>
        var entry := Entry(id, item, |s.pushed|);
        At(s.(queue := s.queue + [entry], pushed := s.pushed + [entry]), t, PushAppended)
      case PushAppended => At(unlocked, t, PushPosts)
      case PushPosts => At(s.(awaiting := s.awaiting + 1), t, Idle)
      case PopWaits => At(locked, t, PopHolds)
      case PopHolds => Take(s, t, None, 0)
      case SearchAwaits(id, retries) => At(s.(awaiting := s.awaiting - 1), t, SearchWaits(id, retries))
      case SearchWaits(id, retries) => At(locked, t, Searching(id, retries, 0))
      case Searching(id, retries, i) =>
        if i >= |s.queue| then At(unlocked, t, SearchPosts(id, retries))
        else if s.queue[i].id == id then Take(s, t, Some(id), i)
        else At(s, t, Searching(id, retries, i + 1))
      case SearchPosts(id, retries) =>
        At(s.(awaiting := s.awaiting + 1), t, if retries then SearchAwaits(id, true) else Idle)
      case Returns(_) => At(unlocked, t, Idle)
      case SizeWaits => At(locked, t, SizeHolds)
      case SizeHolds => At(unlocked, t, Idle)
  }

  predicate Run<T>(s: State<T>, actions: seq<Action<T>>)
    decreases |actions|
  {
    actions == [] || (Enabled(s, actions[0]) && Run(Next(s, actions[0]), actions[1..]))
  }

  function After<T>(s: State<T>, actions: seq<Action<T>>): State<T>
    requires Run(s, actions)
    decreases |actions|
  {
    if actions == [] then s else After(Next(s, actions[0]), actions[1..])
  }

  predicate Init<T>(s: State<T>) {
    s.queue == [] && s.mutex == 1 && s.awaiting == 0 && s.pushed == [] && s.taken == []
    && forall t :: t in s.threads ==> s.threads[t].Idle?
  }

  // ------------------------------------------------------------------ the semaphores

  function Those<T>(threads: map<nat, Pc<T>>, p: Pc<T> -> bool): set<nat> {
    set t | t in threads && p(threads[t])
  }

  function One(b: bool): nat { if b then 1 else 0 }

  lemma CountAfter<T>(threads: map<nat, Pc<T>>, p: Pc<T> -> bool, t: nat, pc: Pc<T>)
    requires t in threads
    ensures |Those(threads[t := pc], p)| == |Those(threads, p)| - One(p(threads[t])) + One(p(pc))
    ensures p(threads[t]) ==> |Those(threads, p)| > 0
  {
    var others := Those(threads, p) - {t};
    assert Those(threads, p) == if p(threads[t]) then others + {t} else others;
    assert Those(threads[t := pc], p) == if p(pc) then others + {t} else others;
  }

  /** `mutex` is free, or exactly one thread has it; tokens in `awaiting`, tokens held and tokens owed
      add up to the entries in the vector. */
  ghost predicate Accounted<T>(s: State<T>) {
    && s.mutex + |Those(s.threads, HoldsMutex)| == 1
    && s.awaiting + |Those(s.threads, HoldsToken)| + |Those(s.threads, OwesToken)| == |s.queue|
  }

  lemma StepKeepsAccount<T>(s: State<T>, a: Action<T>)
    requires Accounted(s) && Enabled(s, a)
    ensures Accounted(Next(s, a))
  {
    hide Those, RemoveAt;
    var pc := Next(s, a).threads[a.t];
    assert s.threads[a.t := s.threads[a.t]] == s.threads;
    CountAfter(s.threads, HoldsMutex, a.t, pc);
    CountAfter(s.threads, HoldsToken, a.t, pc);
    CountAfter(s.threads, OwesToken, a.t, pc);
  }

  /** Two threads never have the vector at the same time. */
  lemma MutualExclusion<T>(s: State<T>, t: nat, u: nat)
    requires Accounted(s) && t in s.threads && u in s.threads
    requires HoldsMutex(s.threads[t]) && HoldsMutex(s.threads[u])
    ensures t == u && s.mutex == 0
  {
    var holders := Those(s.threads, HoldsMutex);
    if t != u {
      assert {t, u} <= holders && |{t, u}| == 2;
      SubsetSize({t, u}, holders);
    } else {
      assert {t} <= holders;
      SubsetSize({t}, holders);
    }
  }

  lemma SubsetSize(a: set<nat>, b: set<nat>)
    requires a <= b
    ensures |a| <= |b|
  {
    assert b == a + (b - a);
  }

  /** A thread that is about to take the front finds something there. */
  lemma FrontExists<T>(s: State<T>, t: nat)
    requires Accounted(s) && t in s.threads && s.threads[t].PopHolds?
    ensures s.queue != []
  {
    assert t in Those(s.threads, HoldsToken);
  }

  // ------------------------------------------------------------------ what becomes of the entries

  function Entries<T>(taken: seq<Taking<T>>): (es: seq<Entry<T>>)
    ensures |es| == |taken| && forall n :: 0 <= n < |taken| ==> es[n] == taken[n].entry
  {
    seq(|taken|, n requires 0 <= n < |taken| => taken[n].entry)
  }

  /** Nothing is lost, invented or duplicated, and the vector keeps the order of the pushes. */
  ghost predicate Conserved<T>(s: State<T>) {
    && multiset(s.pushed) == multiset(s.queue) + multiset(Entries(s.taken))
    && (forall k :: 0 <= k < |s.pushed| ==> s.pushed[k].stamp == k)
    && (forall j :: 0 <= j < |s.queue| ==> s.queue[j] in s.pushed)
    && (forall i, j :: 0 <= i < j < |s.queue| ==> s.queue[i].stamp < s.queue[j].stamp)
  }

  predicate Matches<T>(id: Option<int>, e: Entry<T>) { id == None || id == Some(e.id) }

  /** Every entry taken had the id asked for, and was the oldest such: each older one with that id had
      been taken before. */
  ghost predicate OldestFirst<T>(s: State<T>) {
    forall n :: 0 <= n < |s.taken| ==> TookOldest(s, n)
  }

  ghost predicate TookOldest<T>(s: State<T>, n: nat)
    requires n < |s.taken|
  {
    var t := s.taken[n];
    && t.entry in s.pushed && Matches(t.id, t.entry)
    && forall k :: 0 <= k < |s.pushed| && k < t.entry.stamp && Matches(t.id, s.pushed[k]) ==>
      s.pushed[k] in Entries(s.taken[..n])
  }

  /** A search has passed no entry with the id it looks for. */
  ghost predicate SearchOk<T>(s: State<T>, pc: Pc<T>) {
    pc.Searching? ==> pc.i <= |s.queue| && forall j :: 0 <= j < pc.i ==> s.queue[j].id != pc.id
  }

  ghost predicate SearchesOk<T>(s: State<T>) {
    forall t :: t in s.threads ==> SearchOk(s, s.threads[t])
  }

  ghost predicate Good<T>(s: State<T>) {
    Accounted(s) && Conserved(s) && OldestFirst(s) && SearchesOk(s)
  }

  predicate Appends<T>(s: State<T>, a: Action<T>) { a.Step? && a.t in s.threads && s.threads[a.t].PushHolds? }

  predicate Takes<T>(s: State<T>, a: Action<T>) {
    a.Step? && a.t in s.threads &&
    match s.threads[a.t]
    case PopHolds => true
    case Searching(id, _, i) => i < |s.queue| && s.queue[i].id == id
    case _ => false
  }

  lemma RemovedMultiset<T>(q: seq<T>, i: nat)
    requires i < |q|
    ensures multiset(q) == multiset(RemoveAt(q, i)) + multiset{q[i]}
  {
    assert q == q[..i] + ([q[i]] + q[i + 1..]);
  }

  /** What is in the vector, in the middle of taking entry `i`, comes before or after it. */
  lemma TakeKeepsOrder<T>(s: State<T>, t: nat, id: Option<int>, i: nat)
    requires Conserved(s) && i < |s.queue|
    ensures Conserved(Take(s, t, id, i))
  {
    var d := Take(s, t, id, i);
    RemovedMultiset(s.queue, i);
    assert Entries(d.taken) == Entries(s.taken) + [s.queue[i]];
    forall j | 0 <= j < |d.queue| ensures d.queue[j] == s.queue[if j < i then j else j + 1] {
    }
  }

  lemma TakeIsOldest<T>(s: State<T>, t: nat, id: Option<int>, i: nat)
    requires Conserved(s) && OldestFirst(s) && i < |s.queue| && Matches(id, s.queue[i])
    requires forall j :: 0 <= j < i ==> !Matches(id, s.queue[j])
    ensures OldestFirst(Take(s, t, id, i))
  {
    var d := Take(s, t, id, i);
    var last := |s.taken|;
    forall n | 0 <= n < |d.taken| ensures TookOldest(d, n) {
      if n < last {
        assert TookOldest(s, n);
        assert d.taken[..n] == s.taken[..n];
      } else {
        assert d.taken[..n] == s.taken;
        assert s.queue[i] in s.pushed;
        forall k | 0 <= k < |s.pushed| && k < s.queue[i].stamp && Matches(id, s.pushed[k])
          ensures s.pushed[k] in Entries(s.taken)
        {
          assert s.pushed[k] in multiset(s.pushed);
          forall j | 0 <= j < |s.queue| ensures s.queue[j] != s.pushed[k] {
            assert j < i ==> !Matches(id, s.queue[j]);
          }
        }
      }
    }
  }

  lemma AppendIsGood<T>(s: State<T>, a: Action<T>)
    requires Good(s) && Enabled(s, a) && Appends(s, a)
    ensures Good(Next(s, a))
  {
    hide Accounted, Matches;
    StepKeepsAccount(s, a);
    var d := Next(s, a);
    var entry := d.pushed[|s.pushed|];
    forall n | 0 <= n < |d.taken| ensures TookOldest(d, n) {
      assert TookOldest(s, n);
    }
    forall j | 0 <= j < |d.queue| ensures d.queue[j] in d.pushed {
      if j < |s.queue| {
        assert s.queue[j] in s.pushed;
      } else {
        assert d.pushed[|s.pushed|] == d.queue[j];
      }
    }
    forall j | 0 <= j < |s.queue| ensures s.queue[j].stamp < entry.stamp {
      assert s.queue[j] in s.pushed;
    }
    forall t | t in d.threads ensures SearchOk(d, d.threads[t]) {
      if t != a.t && s.threads[t].Searching? {
        MutualExclusion(s, t, a.t);
      }
    }
  }

  lemma TakeIsGood<T>(s: State<T>, a: Action<T>)
    requires Good(s) && Enabled(s, a) && Takes(s, a)
    ensures Good(Next(s, a))
  {
    hide Accounted, Conserved, OldestFirst, RemoveAt;
    StepKeepsAccount(s, a);
    var pc, d := s.threads[a.t], Next(s, a);
    assert SearchOk(s, pc);
    var id, i := if pc.PopHolds? then None else Some(pc.id), if pc.PopHolds? then 0 else pc.i;
    TakeKeepsOrder(s, a.t, id, i);
    TakeIsOldest(s, a.t, id, i);
    forall t | t in d.threads ensures SearchOk(d, d.threads[t]) {
      if t != a.t && s.threads[t].Searching? {
        MutualExclusion(s, t, a.t);
      }
    }
  }

  lemma OtherStepIsGood<T>(s: State<T>, a: Action<T>)
    requires Good(s) && Enabled(s, a) && !Appends(s, a) && !Takes(s, a)
    ensures Good(Next(s, a))
  {
    hide Accounted, Matches;
    StepKeepsAccount(s, a);
    var d := Next(s, a);
    assert d.queue == s.queue && d.pushed == s.pushed && d.taken == s.taken;
    forall n | 0 <= n < |d.taken| ensures TookOldest(d, n) {
      assert TookOldest(s, n);
    }
    assert SearchOk(s, s.threads[a.t]);
  }

  /** What every step of every thread keeps. */
  lemma StepIsGood<T>(s: State<T>, a: Action<T>)
    requires Good(s) && Enabled(s, a)
    ensures Good(Next(s, a))
  {
    if Appends(s, a) {
      AppendIsGood(s, a);
    } else if Takes(s, a) {
      TakeIsGood(s, a);
    } else {
      OtherStepIsGood(s, a);
    }
  }

  lemma {:induction false} RunIsGood<T>(s: State<T>, actions: seq<Action<T>>)
    requires Good(s) && Run(s, actions)
    ensures Good(After(s, actions))
    decreases |actions|
  {
    if actions != [] {
      StepIsGood(s, actions[0]);
      RunIsGood(Next(s, actions[0]), actions[1..]);
    }
  }

  lemma InitIsGood<T>(s: State<T>)
    requires Init(s)
    ensures Good(s)
  {
    assert Those(s.threads, HoldsMutex) == Those(s.threads, HoldsToken) == Those(s.threads, OwesToken) == {};
  }

  /** Safety of the queue under any interleaving of any number of threads: the vector is guarded, the
      semaphores account for every entry, `front()` is never called on an empty vector, pushed entries
      are exactly those queued and those taken, the rest keep their order, and every taker got the
      oldest entry it may take. */
  lemma EveryRunIsSafe<T>(s: State<T>, actions: seq<Action<T>>)
    requires Init(s) && Run(s, actions)
    ensures var d := After(s, actions);
      && Accounted(d) && Conserved(d) && OldestFirst(d)
      && (forall t :: t in d.threads && d.threads[t].PopHolds? ==> Enabled(d, Step(t)))
      && (forall t, u :: t in d.threads && u in d.threads && HoldsMutex(d.threads[t]) && HoldsMutex(d.threads[u])
            ==> t == u)
  {
    InitIsGood(s);
    RunIsGood(s, actions);
    var d := After(s, actions);
    forall t | t in d.threads && d.threads[t].PopHolds? ensures Enabled(d, Step(t)) {
      FrontExists(d, t);
    }
    forall t, u | t in d.threads && u in d.threads && HoldsMutex(d.threads[t]) && HoldsMutex(d.threads[u])
      ensures t == u
    {
      MutualExclusion(d, t, u);
    }
  }

  /** A search that gives up, or starts over, has seen that no entry has the id. */
  lemma SearchMissesOnlyAbsent<T>(s: State<T>, actions: seq<Action<T>>, t: nat)
    requires Init(s) && Run(s, actions) && Enabled(After(s, actions), Step(t))
    requires var d := After(s, actions); d.threads[t].Searching? && Next(d, Step(t)).threads[t].SearchPosts?
    ensures var d := After(s, actions); forall j :: 0 <= j < |d.queue| ==> d.queue[j].id != d.threads[t].id
  {
    InitIsGood(s);
    RunIsGood(s, actions);
    var d := After(s, actions);
    assert SearchOk(d, d.threads[t]);
  }

  /** The entries that no call has taken a token for, nor is still to post one for. */
  function Unclaimed<T>(s: State<T>): int {
    |s.queue| - |Those(s.threads, HoldsToken)| - |Those(s.threads, OwesToken)|
  }

  /** A `try_pop` comes back empty-handed exactly when there is no entry that is not claimed by another thread or
      still being announced; else it is on its way to take one. */
  lemma TryPopIsEmptyIff<T>(s: State<T>, actions: seq<Action<T>>, t: nat)
    requires Init(s) && Run(s, actions) && Enabled(After(s, actions), CallTryPop(t))
    ensures var d := After(s, actions);
      && Unclaimed(d) >= 0
      && Next(d, CallTryPop(t)).threads[t] == (if Unclaimed(d) == 0 then Idle else PopWaits)
      && Unclaimed(Next(d, CallTryPop(t))) == if Unclaimed(d) == 0 then 0 else Unclaimed(d) - 1
  {
    hide Run, After;
    InitIsGood(s);
    RunIsGood(s, actions);
    StepKeepsAccount(After(s, actions), CallTryPop(t));
  }

  /** A `pop_by_id` ends only with an entry, and one with the id asked for; a `try_pop_by_id` ends with one, or
      after its search found none. */
  lemma SearchEndsWithEntry<T>(s: State<T>, t: nat)
    requires Enabled(s, Step(t))
    requires var pc := s.threads[t]; pc.SearchAwaits? || pc.SearchWaits? || pc.Searching? || pc.SearchPosts?
    ensures var pc, pc' := s.threads[t], Next(s, Step(t)).threads[t];
      || ((pc'.SearchAwaits? || pc'.SearchWaits? || pc'.Searching? || pc'.SearchPosts?)
          && pc'.id == pc.id && pc'.retries == pc.retries)
      || (pc.Searching? && pc'.Returns? && pc'.entry.id == pc.id && pc'.entry in s.queue)
      || (pc.SearchPosts? && pc' == Idle && !pc.retries)
  {
  }

  // ------------------------------------------------------------------ who can go on, and a call alone

  /** In every run, a thread inside a call can go on, or waits for the mutex, whose holder can, or waits for a token
      while there is none. */
  lemma SomebodyGoesOn<T>(s: State<T>, actions: seq<Action<T>>, t: nat) returns (u: nat)
    requires Init(s) && Run(s, actions) && t in After(s, actions).threads && !After(s, actions).threads[t].Idle?
    ensures var d := After(s, actions);
      || (d.threads[t].SearchAwaits? && d.awaiting == 0)
      || (Enabled(d, Step(u)) && (u == t || (Waits(d.threads[t]) && HoldsMutex(d.threads[u]))))
  {
    hide Run, After;
    InitIsGood(s);
    RunIsGood(s, actions);
    var d := After(s, actions);
    u := t;
    if d.threads[t].PopHolds? {
      FrontExists(d, t);
    } else if Waits(d.threads[t]) && d.mutex == 0 {
      var holders := Those(d.threads, HoldsMutex);
      assert holders != {};
      u :| u in holders;
      if d.threads[u].PopHolds? {
        FrontExists(d, u);
      }
    }
  }

  /** A thread takes n steps, and no other thread takes any. */
  function Alone<T>(s: State<T>, t: nat, n: nat): Option<State<T>>
    decreases n
  {
    if n == 0 then Some(s)
    else if Enabled(s, Step(t)) then Alone(Next(s, Step(t)), t, n - 1)
    else None
  }

  lemma OneMore<T>(s: State<T>, t: nat, n: nat)
    requires Enabled(s, Step(t))
    ensures Alone(s, t, n + 1) == Alone(Next(s, Step(t)), t, n)
  {
  }

  /** A `push` alone appends its entry, and announces it. */
  lemma PushAlone<T>(s: State<T>, t: nat, id: int, item: T)
    requires Enabled(s, CallPush(t, id, item)) && s.mutex > 0
    ensures var entry := Entry(id, item, |s.pushed|);
      Alone(Next(s, CallPush(t, id, item)), t, 4)
      == Some(s.(queue := s.queue + [entry], pushed := s.pushed + [entry], awaiting := s.awaiting + 1))
  {
    var s1 := Next(s, CallPush(t, id, item));
    OneMore(s1, t, 3);
    var s2 := Next(s1, Step(t));
    OneMore(s2, t, 2);
    var s3 := Next(s2, Step(t));
    OneMore(s3, t, 1);
    var s4 := Next(s3, Step(t));
    OneMore(s4, t, 0);
    assert Next(s4, Step(t)).threads == s.threads;
  }

  /** A `try_pop` alone takes the front. */
  lemma TryPopAlone<T>(s: State<T>, t: nat)
    requires Enabled(s, CallTryPop(t)) && s.mutex > 0 && s.awaiting > 0 && s.queue != []
    ensures Alone(Next(s, CallTryPop(t)), t, 3)
      == Some(s.(queue := s.queue[1..], taken := s.taken + [Taking(None, s.queue[0])], awaiting := s.awaiting - 1))
  {
    var s1 := Next(s, CallTryPop(t));
    OneMore(s1, t, 2);
    var s2 := Next(s1, Step(t));
    OneMore(s2, t, 1);
    var s3 := Next(s2, Step(t));
    OneMore(s3, t, 0);
    assert Next(s3, Step(t)).threads == s.threads;
    assert RemoveAt(s.queue, 0) == s.queue[1..];
  }

  /** And `size` alone leaves everything as it was. */
  lemma SizeAlone<T>(s: State<T>, t: nat)
    requires Enabled(s, CallSize(t)) && s.mutex > 0
    ensures Alone(Next(s, CallSize(t)), t, 2) == Some(s)
  {
    var s1 := Next(s, CallSize(t));
    OneMore(s1, t, 1);
    var s2 := Next(s1, Step(t));
    OneMore(s2, t, 0);
    assert Next(s2, Step(t)).threads == s.threads;
  }

  /** Position of the first entry with the id at or after `from`, or the length. */
  function FirstOf<T>(queue: seq<Entry<T>>, id: int, from: nat): (k: nat)
    requires from <= |queue|
    ensures from <= k <= |queue| && (k < |queue| ==> queue[k].id == id)
    ensures forall j :: from <= j < k ==> queue[j].id != id
  {
    FirstIndex(queue, (e: Entry<T>) => e.id == id, from)
  }

  /** What a search leaves that takes entry `k`, or finds none. */
  function Searched<T>(s: State<T>, t: nat, id: int, retries: bool, k: nat): State<T> {
    if k < |s.queue| then At(Take(s, t, Some(id), k).(mutex := s.mutex + 1), t, Idle)
    else At(s.(mutex := s.mutex + 1, awaiting := s.awaiting + 1), t, if retries then SearchAwaits(id, true) else Idle)
  }

  lemma SearchedFrom<T>(s: State<T>, t: nat, pc: Pc<T>, id: int, retries: bool, k: nat)
    ensures Searched(At(s, t, pc), t, id, retries, k) == Searched(s, t, id, retries, k)
  {
    hide RemoveAt;
    assert Searched(At(s, t, pc), t, id, retries, k).threads == Searched(s, t, id, retries, k).threads;
  }

  /** The turn that ends a search, and giving back the mutex: with an entry. */
  lemma LastTurnFinds<T>(s: State<T>, t: nat, id: int, retries: bool, i: nat)
    requires t in s.threads && i < |s.queue| && s.threads[t] == Searching(id, retries, i) && s.queue[i].id == id
    ensures Alone(s, t, 2) == Some(Searched(s, t, id, retries, i))
  {
    hide RemoveAt, Alone;
    var next := Take(s, t, Some(id), i);
    assert Next(s, Step(t)) == next;
    OneMore(s, t, 1);
    LastStep(next, t);
    assert Next(next, Step(t)) == At(next.(mutex := s.mutex + 1), t, Idle);
  }

  /** And without. */
  lemma LastTurnMisses<T>(s: State<T>, t: nat, id: int, retries: bool)
    requires t in s.threads && s.threads[t] == Searching(id, retries, |s.queue|)
    ensures Alone(s, t, 2) == Some(Searched(s, t, id, retries, |s.queue|))
  {
    hide Alone, Take, Searched, RemoveAt;
    var next := At(s.(mutex := s.mutex + 1), t, SearchPosts(id, retries));
    assert Next(s, Step(t)) == next;
    OneMore(s, t, 1);
    LastStep(next, t);
    GivesBack(s, t, id, retries);
  }

  lemma GivesBack<T>(s: State<T>, t: nat, id: int, retries: bool)
    ensures var next := At(s.(mutex := s.mutex + 1), t, SearchPosts(id, retries));
      Next(next, Step(t)) == Searched(s, t, id, retries, |s.queue|)
  {
    hide Take, RemoveAt;
    var next := At(s.(mutex := s.mutex + 1), t, SearchPosts(id, retries));
    assert Next(next, Step(t)).threads == Searched(s, t, id, retries, |s.queue|).threads;
  }

  lemma LastStep<T>(s: State<T>, t: nat)
    requires Enabled(s, Step(t))
    ensures Alone(s, t, 1) == Some(Next(s, Step(t)))
  {
    hide Next, Enabled;
    OneMore(s, t, 0);
  }

  lemma {:induction false} SearchTurns<T>(s: State<T>, t: nat, id: int, retries: bool, i: nat)
    requires t in s.threads && i <= |s.queue| && s.threads[t] == Searching(id, retries, i)
    ensures var k := FirstOf(s.queue, id, i);
      Alone(s, t, k - i + 2) == Some(Searched(s, t, id, retries, k))
    decreases |s.queue| - i
  {
    hide FirstOf, Searched, Alone;
    var k := FirstOf(s.queue, id, i);
    if i < k {
      OneMore(s, t, k - i + 1);
      var pc := Searching(id, retries, i + 1);
      assert Next(s, Step(t)) == At(s, t, pc);
      assert FirstOf(s.queue, id, i + 1) == k;
      SearchTurns(At(s, t, pc), t, id, retries, i + 1);
      SearchedFrom(s, t, pc, id, retries, k);
    } else if i < |s.queue| {
      LastTurnFinds(s, t, id, retries, i);
    } else {
      LastTurnMisses(s, t, id, retries);
    }
  }

  /** A search alone takes the first entry with the id; without one it leaves everything as it was, and a
      `pop_by_id` then starts over. */
  lemma SearchAlone<T>(s: State<T>, t: nat, id: int, retries: bool)
    requires Enabled(s, CallSearch(t, id, retries)) && s.mutex > 0 && s.awaiting > 0
    ensures var k := FirstOf(s.queue, id, 0);
      Alone(Next(s, CallSearch(t, id, retries)), t, k + 4) == Some(
        if k < |s.queue| then
          s.(queue := RemoveAt(s.queue, k), taken := s.taken + [Taking(Some(id), s.queue[k])],
             awaiting := s.awaiting - 1)
        else if retries then At(s, t, SearchAwaits(id, true)) else s)
  {
    hide FirstOf, RemoveAt, Alone, Take, Searched;
    var k := FirstOf(s.queue, id, 0);
    var s1 := Next(s, CallSearch(t, id, retries));
    OneMore(s1, t, k + 3);
    var s2 := Next(s1, Step(t));
    OneMore(s2, t, k + 2);
    var s3 := Next(s2, Step(t));
    assert s3.threads == s.threads[t := Searching(id, retries, 0)];
    SearchTurns(s3, t, id, retries, 0);
    SearchedAlone(s, t, id, retries, k);
  }

  lemma SearchedAlone<T>(s: State<T>, t: nat, id: int, retries: bool, k: nat)
    requires t in s.threads && s.threads[t].Idle? && s.mutex > 0 && s.awaiting > 0
    ensures var s3 := At(s.(mutex := s.mutex - 1, awaiting := s.awaiting - 1), t, Searching(id, retries, 0));
      Searched(s3, t, id, retries, k) ==
        if k < |s.queue| then
          s.(queue := RemoveAt(s.queue, k), taken := s.taken + [Taking(Some(id), s.queue[k])],
             awaiting := s.awaiting - 1)
        else if retries then At(s, t, SearchAwaits(id, true)) else s
  {
    hide RemoveAt;
    var s3 := At(s.(mutex := s.mutex - 1, awaiting := s.awaiting - 1), t, Searching(id, retries, 0));
    assert Searched(s3, t, id, retries, k).threads
        == if k < |s.queue| || !retries then s.threads else s.threads[t := SearchAwaits(id, true)];
  }

  /** Between calls, the mutex is free and `awaiting` counts the entries. */
  lemma IdleQueueIsConsistent<T>(s: State<T>, actions: seq<Action<T>>)
    requires Init(s) && Run(s, actions)
    requires forall t :: t in After(s, actions).threads ==> After(s, actions).threads[t].Idle?
    ensures var d := After(s, actions); d.mutex == 1 && d.awaiting == |d.queue|
  {
    InitIsGood(s);
    RunIsGood(s, actions);
    var d := After(s, actions);
    assert Those(d.threads, HoldsMutex) == Those(d.threads, HoldsToken) == Those(d.threads, OwesToken) == {};
  }
}
