/** The registry of connected clients: at most two connections per user, and for every connection a
    queue of the events it has yet to hear of. */
module Registry {
  import opened Basics
  import opened Wire
  import opened Packets

  const MAX_ACTIVE_CONNECTIONS: nat := 2

  /** A registered client; `invalid` when its thread is over, or its socket has failed and its thread has
      not noticed yet. Which connection it was, what it has fetched so far, and how many broadcasts there
      had been when it joined, are kept to state what becomes of it. */
  datatype Entry = Entry(username: Content, id: nat, fromPrimary: bool, invalid: bool, pending: seq<FileEvent>,
                         ordinal: nat, fetched: seq<FileEvent>, joinedAt: nat)

  datatype Broadcast = Broadcast(username: Content, event: FileEvent)

  /** How many connections a user holds, servers acting for the user not counted. */
  function Held(clients: seq<Entry>, username: Content): nat {
    if clients == [] then 0
    else Held(clients[..|clients| - 1], username) + HeldBy(clients[|clients| - 1], username)
  }

  function HeldBy(c: Entry, username: Content): nat { if c.username == username && !c.fromPrimary then 1 else 0 }

  function FirstWithId(clients: seq<Entry>, id: nat, from: nat): (k: nat)
    requires from <= |clients|
    ensures from <= k <= |clients| && (k < |clients| ==> clients[k].id == id)
    ensures forall j :: from <= j < k ==> clients[j].id != id
  {
    FirstIndex(clients, (c: Entry) => c.id == id, from)
  }

  function Hear(c: Entry, b: Broadcast): Entry {
    if c.username == b.username then c.(pending := c.pending + [b.event]) else c
  }

  function HearAll(clients: seq<Entry>, b: Broadcast): (r: seq<Entry>)
    ensures |r| == |clients| && forall j :: 0 <= j < |r| ==> r[j] == Hear(clients[j], b)
  {
    seq(|clients|, j requires 0 <= j < |clients| => Hear(clients[j], b))
  }

  // ------------------------------------------------------------------ every interleaving

  /** `crashed` once a purge has been started: its loop runs out of the list. */
  datatype State = State(numbered: nat, clients: seq<Entry>, broadcasts: seq<Broadcast>, crashed: bool)

  datatype Action =
    | Open(username: Content, fromPrimary: bool)   // a connection that completes its handshake
    | OpenOther                                    // a connection of another kind: only takes an id
    | Break(k: nat)                                // the socket of the k-th client fails
    | Remove(k: nat)                               // the thread of the k-th client ends
    | Send(b: Broadcast)
    | Fetch(k: nat)

  predicate Enabled(s: State, a: Action) {
    !s.crashed &&
    match a
    case Break(k) => k < |s.clients|
    case Remove(k) => k < |s.clients|
    case Fetch(k) => k < |s.clients|
    case Open(_, _) => true
    case OpenOther => true
    case Send(_) => true
  }

  /** The id of the k-th connection: a 64-bit counter. */
  function IdOf(k: nat): u64 { k % 0x1_0000_0000_0000_0000 }

  /** Is there a client to be purged? */
  predicate AnyInvalid(clients: seq<Entry>) { exists j :: 0 <= j < |clients| && clients[j].invalid }

  predicate Admits(clients: seq<Entry>, username: Content, fromPrimary: bool) {
    fromPrimary || Held(clients, username) < MAX_ACTIVE_CONNECTIONS
  }

  function Next(s: State, a: Action): State
    requires Enabled(s, a)
  {
    match a
    case Open(username, fromPrimary) =>
      var s := s.(numbered := s.numbered + 1);
      if !fromPrimary && AnyInvalid(s.clients) then s.(crashed := true)
      else if Admits(s.clients, username, fromPrimary) then
        var ordinal := s.numbered - 1;
        var entry := Entry(username, IdOf(ordinal), fromPrimary, false, [], ordinal, [], |s.broadcasts|);
        s.(clients := s.clients + [entry])
      else s
    case OpenOther => s.(numbered := s.numbered + 1)
    case Break(k) => s.(clients := s.clients[k := s.clients[k].(invalid := true)])
    case Remove(k) =>
      var over := s.clients[k := s.clients[k].(invalid := true)];
      s.(clients := RemoveAt(over, FirstWithId(s.clients, s.clients[k].id, 0)))
    case Send(b) => s.(clients := HearAll(s.clients, b), broadcasts := s.broadcasts + [b])
    case Fetch(k) =>
      var c := s.clients[k];
      if c.pending == [] then s
      else s.(clients := s.clients[k := c.(pending := c.pending[1..], fetched := c.fetched + [c.pending[0]])])
  }

  predicate Run(s: State, actions: seq<Action>)
    decreases |actions|
  {
    actions == [] || (Enabled(s, actions[0]) && Run(Next(s, actions[0]), actions[1..]))
  }

  function After(s: State, actions: seq<Action>): State
    requires Run(s, actions)
    decreases |actions|
  {
    if actions == [] then s else After(Next(s, actions[0]), actions[1..])
  }

  const INIT := State(0, [], [], false)

  // ------------------------------------------------------------------ the cap

  ghost predicate Capped(clients: seq<Entry>) {
    forall u: Content :: Held(clients, u) <= MAX_ACTIVE_CONNECTIONS
  }

  lemma HeldAppend(clients: seq<Entry>, c: Entry, u: Content)
    ensures Held(clients + [c], u) == Held(clients, u) + HeldBy(c, u)
  {
    assert (clients + [c])[..|clients|] == clients;
  }

  lemma {:induction false} HeldDrop(clients: seq<Entry>, k: nat, u: Content)
    requires k < |clients|
    ensures Held(RemoveAt(clients, k), u) == Held(clients, u) - HeldBy(clients[k], u)
  {
    var front, last := clients[..|clients| - 1], clients[|clients| - 1];
    if k < |front| {
      HeldDrop(front, k, u);
      assert RemoveAt(clients, k) == RemoveAt(front, k) + [last];
      HeldAppend(RemoveAt(front, k), last, u);
    } else {
      assert RemoveAt(clients, k) == front;
    }
  }

  /** Changing queues does not change who is connected. */
  lemma {:induction false} HeldSame(a: seq<Entry>, b: seq<Entry>, u: Content)
    requires |a| == |b|
    requires forall j :: 0 <= j < |a| ==> a[j].username == b[j].username && a[j].fromPrimary == b[j].fromPrimary
    ensures Held(a, u) == Held(b, u)
  {
    if a != [] {
      HeldSame(a[..|a| - 1], b[..|b| - 1], u);
    }
  }

  lemma StepKeepsCap(s: State, a: Action, u: Content)
    requires Enabled(s, a) && Held(s.clients, u) <= MAX_ACTIVE_CONNECTIONS
    ensures Held(Next(s, a).clients, u) <= MAX_ACTIVE_CONNECTIONS
  {
    match a
    case Open(username, fromPrimary) =>
      if |Next(s, a).clients| > |s.clients| {
        HeldAppend(s.clients, Next(s, a).clients[|s.clients|], u);
      }
    case OpenOther =>
    case Break(k) => HeldSame(s.clients, Next(s, a).clients, u);
    case Remove(k) =>
      var over := s.clients[k := s.clients[k].(invalid := true)];
      HeldSame(s.clients, over, u);
      HeldDrop(over, FirstWithId(s.clients, s.clients[k].id, 0), u);
    case Send(b) => HeldSame(s.clients, Next(s, a).clients, u);
    case Fetch(k) => HeldSame(s.clients, Next(s, a).clients, u);
  }

  /** The positions of a user's connections, servers acting for the user not counted. */
  function Connections(clients: seq<Entry>, username: Content): set<nat> {
    set j: nat | 0 <= j < |clients| && clients[j].username == username && !clients[j].fromPrimary
  }

  /** The loop counts the user's connections. */
  lemma {:induction false} HeldIsCount(clients: seq<Entry>, username: Content)
    ensures Held(clients, username) == |Connections(clients, username)|
  {
    if clients == [] {
      assert Connections(clients, username) == {};
    } else {
      var front, last := clients[..|clients| - 1], |clients| - 1;
      HeldIsCount(front, username);
      var mine := clients[last].username == username && !clients[last].fromPrimary;
      assert Connections(clients, username) == Connections(front, username) + if mine then {last} else {};
    }
  }

  /** Exactly when a connection is registered: one for the user when the user has fewer than two and no client is
      to be purged, and one from a primary always. */
  lemma RegisteredIff(s: State, username: Content, fromPrimary: bool)
    requires Enabled(s, Open(username, fromPrimary))
    ensures var d := Next(s, Open(username, fromPrimary));
      if fromPrimary
         || ((forall j :: 0 <= j < |s.clients| ==> !s.clients[j].invalid) && |Connections(s.clients, username)| < 2)
      then
        && |d.clients| == |s.clients| + 1 && d.clients[..|s.clients|] == s.clients
        && d.clients[|s.clients|].username == username && d.clients[|s.clients|].fromPrimary == fromPrimary
        && d.clients[|s.clients|].pending == [] && !d.clients[|s.clients|].invalid
      else d.clients == s.clients
    ensures Next(s, Open(username, fromPrimary)).crashed
       <==> !fromPrimary && exists j :: 0 <= j < |s.clients| && s.clients[j].invalid
  {
    HeldIsCount(s.clients, username);
    hide Held;
  }

  /** The third connection of a user is refused. */
  lemma ThirdIsRefused(u: Content)
    ensures var actions := [Open(u, false), Open(u, false), Open(u, false)];
      && Run(INIT, actions)
      && var s := After(INIT, actions);
      !s.crashed && |s.clients| == 2 && Connections(s.clients, u) == {0, 1} && s.numbered == 3
  {
    var open := Open(u, false);
    var s1, s2 := AfterOne(u), AfterTwo(u);
    OpenThrice(u);
    hide Next, Enabled;
    assert Run(s2, []) && After(s2, []) == s2;
    assert [open][1..] == [];
    assert Run(s2, [open]) && After(s2, [open]) == s2.(numbered := 3);
    assert [open, open][1..] == [open];
    assert Run(s1, [open, open]) && After(s1, [open, open]) == s2.(numbered := 3);
    assert [open, open, open][1..] == [open, open];
  }

  function AfterOne(u: Content): State { State(1, [Entry(u, 0, false, false, [], 0, [], 0)], [], false) }

  function AfterTwo(u: Content): State {
    State(2, AfterOne(u).clients + [Entry(u, 1, false, false, [], 1, [], 0)], [], false)
  }

  lemma OpenThrice(u: Content)
    ensures var open := Open(u, false);
      && Enabled(INIT, open) && Next(INIT, open) == AfterOne(u)
      && Enabled(AfterOne(u), open) && Next(AfterOne(u), open) == AfterTwo(u)
      && Enabled(AfterTwo(u), open) && Next(AfterTwo(u), open) == AfterTwo(u).(numbered := 3)
  {
    var one, two := AfterOne(u).clients, AfterTwo(u).clients;
    HeldAppend([], one[0], u);
    assert [] + one == one;
    HeldAppend(one, two[1], u);
  }

  // ------------------------------------------------------------------ identities

  /** Clients are listed in the order of their connections, and each has the id of its own. */
  ghost predicate IdsInOrder(s: State) {
    && (forall j :: 0 <= j < |s.clients| ==>
      s.clients[j].ordinal < s.numbered && s.clients[j].id == IdOf(s.clients[j].ordinal))
    && (forall i, j :: 0 <= i < j < |s.clients| ==> s.clients[i].ordinal < s.clients[j].ordinal)
  }

  lemma DropKeepsOrder(clients: seq<Entry>, k: nat)
    requires k < |clients|
    requires forall i, j :: 0 <= i < j < |clients| ==> clients[i].ordinal < clients[j].ordinal
    ensures var r := RemoveAt(clients, k); forall i, j :: 0 <= i < j < |r| ==> r[i].ordinal < r[j].ordinal
  {
    var r := RemoveAt(clients, k);
    forall i, j | 0 <= i < j < |r| ensures r[i].ordinal < r[j].ordinal {
      assert r[i] == clients[if i < k then i else i + 1] && r[j] == clients[if j < k then j else j + 1];
    }
  }

  lemma StepKeepsIds(s: State, a: Action)
    requires Enabled(s, a) && IdsInOrder(s)
    ensures IdsInOrder(Next(s, a))
  {
    hide RemoveAt, IdOf, AnyInvalid, Held, FirstWithId;
    if a.Remove? {
      DropKeepsOrder(s.clients[a.k := s.clients[a.k].(invalid := true)], FirstWithId(s.clients, s.clients[a.k].id, 0));
    }
  }

  // ------------------------------------------------------------------ what a client hears

  /** The events broadcast for a user. */
  function For(broadcasts: seq<Broadcast>, username: Content): seq<FileEvent> {
    if broadcasts == [] then []
    else
      var last := broadcasts[|broadcasts| - 1];
      For(broadcasts[..|broadcasts| - 1], username) + if last.username == username then [last.event] else []
  }

  /** What it fetched and what waits for it are the events broadcast for it since it joined, in order. */
  predicate Informed(broadcasts: seq<Broadcast>, c: Entry) {
    c.joinedAt <= |broadcasts| && c.fetched + c.pending == For(broadcasts[c.joinedAt..], c.username)
  }

  ghost predicate AllInformed(s: State) {
    forall j :: 0 <= j < |s.clients| ==> Informed(s.broadcasts, s.clients[j])
  }

  lemma HearIsInformed(broadcasts: seq<Broadcast>, c: Entry, b: Broadcast)
    requires Informed(broadcasts, c)
    ensures Informed(broadcasts + [b], Hear(c, b))
  {
    var since := broadcasts[c.joinedAt..];
    assert (broadcasts + [b])[c.joinedAt..] == since + [b];
    assert (since + [b])[..|since|] == since;
    assert c.fetched + (c.pending + [b.event]) == (c.fetched + c.pending) + [b.event];
    assert For(since, c.username) + [] == For(since, c.username);
  }

  lemma StepKeepsInformed(s: State, a: Action)
    requires Enabled(s, a) && AllInformed(s)
    ensures AllInformed(Next(s, a))
  {
    hide For;
    match a
    case Open(username, fromPrimary) =>
      assert s.broadcasts[|s.broadcasts|..] == [];
      assert For([], username) == [] by {
        ForNothing(username);
      }
    case OpenOther =>
    case Break(k) =>
    case Remove(k) =>
    case Send(b) =>
      forall j | 0 <= j < |s.clients| ensures Informed(Next(s, a).broadcasts, Next(s, a).clients[j]) {
        HearIsInformed(s.broadcasts, s.clients[j], b);
      }
    case Fetch(k) =>
      var c := s.clients[k];
      if c.pending != [] {
        assert (c.fetched + [c.pending[0]]) + c.pending[1..] == c.fetched + c.pending;
      }
  }

  lemma ForNothing(username: Content)
    ensures For([], username) == []
  {
  }

  // ------------------------------------------------------------------ every run

  ghost predicate Good(s: State) {
    Capped(s.clients) && AllInformed(s) && IdsInOrder(s)
  }

  lemma StepIsGood(s: State, a: Action)
    requires Good(s) && Enabled(s, a)
    ensures Good(Next(s, a))
  {
    hide Held, AllInformed, IdsInOrder, Next;
    forall u: Content ensures Held(Next(s, a).clients, u) <= MAX_ACTIVE_CONNECTIONS {
      StepKeepsCap(s, a, u);
    }
    StepKeepsInformed(s, a);
    StepKeepsIds(s, a);
  }

  lemma {:induction false} RunIsGood(s: State, actions: seq<Action>)
    requires Good(s) && Run(s, actions)
    ensures Good(After(s, actions))
    decreases |actions|
  {
    if actions != [] {
      StepIsGood(s, actions[0]);
      RunIsGood(Next(s, actions[0]), actions[1..]);
    }
  }

  lemma InitIsGood()
    ensures Good(INIT)
  {
  }

  /** What is broadcast in the course of a run, in order. */
  function Sends(actions: seq<Action>): seq<Broadcast> {
    if actions == [] then []
    else (if actions[0].Send? then [actions[0].b] else []) + Sends(actions[1..])
  }

  /** How many connections of any kind are made. */
  function Opens(actions: seq<Action>): nat {
    if actions == [] then 0 else (if actions[0].Open? || actions[0].OpenOther? then 1 else 0) + Opens(actions[1..])
  }

  lemma {:induction false} BroadcastsAreSends(s: State, actions: seq<Action>)
    requires Run(s, actions)
    ensures After(s, actions).broadcasts == s.broadcasts + Sends(actions)
    ensures After(s, actions).numbered == s.numbered + Opens(actions)
    decreases |actions|
  {
    if actions != [] {
      BroadcastsAreSends(Next(s, actions[0]), actions[1..]);
    }
  }

  /** The registry in every run: no user ever holds more than two connections, and every client hears
      exactly the events broadcast for its user since it joined, each once and in order. */
  lemma RegistryIsSafe(actions: seq<Action>)
    requires Run(INIT, actions)
    ensures var s := After(INIT, actions);
      Capped(s.clients) && AllInformed(s) && s.broadcasts == Sends(actions) && s.numbered == Opens(actions)
    ensures forall u: Content :: |Connections(After(INIT, actions).clients, u)| <= 2
  {
    RunIsGood(INIT, actions);
    BroadcastsAreSends(INIT, actions);
    forall u: Content ensures |Connections(After(INIT, actions).clients, u)| <= 2 {
      HeldIsCount(After(INIT, actions).clients, u);
    }
  }

  /** The client fetches n times. */
  function Fetches(k: nat, n: nat): seq<Action> { seq(n, _ => Fetch(k)) }

  function Fetched(c: Entry, n: nat): Entry
    requires n <= |c.pending|
  {
    c.(fetched := c.fetched + c.pending[..n], pending := c.pending[n..])
  }

  lemma FetchedOnce(c: Entry, n: nat)
    requires 0 < n <= |c.pending|
    ensures Fetched(Fetched(c, 1), n - 1) == Fetched(c, n)
  {
    assert c.pending[1..][..n - 1] == c.pending[1..n];
    assert c.pending[..n] == c.pending[..1] + c.pending[1..n];
    assert c.fetched + c.pending[..1] + c.pending[1..n] == c.fetched + c.pending[..n];
    assert c.pending[1..][n - 1..] == c.pending[n..];
  }

  lemma {:induction false} FetchesTake(s: State, k: nat, n: nat)
    requires !s.crashed && k < |s.clients| && n <= |s.clients[k].pending|
    ensures Run(s, Fetches(k, n))
    ensures After(s, Fetches(k, n)) == s.(clients := s.clients[k := Fetched(s.clients[k], n)])
    decreases n
  {
    var c := s.clients[k];
    if n == 0 {
      assert Fetched(c, 0) == c;
    } else {
      assert Fetches(k, n)[1..] == Fetches(k, n - 1) && Fetches(k, n)[0] == Fetch(k);
      var d := s.(clients := s.clients[k := Fetched(c, 1)]);
      assert c.pending[..1] == [c.pending[0]];
      assert Next(s, Fetch(k)) == d;
      FetchesTake(d, k, n - 1);
      FetchedOnce(c, n);
      assert s.clients[k := Fetched(c, 1)][k := Fetched(c, n)] == s.clients[k := Fetched(c, n)];
    }
  }

  /** Wherever a run stands, a client that fetches as often as there are events waiting for it has heard all that was
      broadcast for its user since it joined, in order, and then there is none left. */
  lemma FetchingCatchesUp(actions: seq<Action>, k: nat)
    requires Run(INIT, actions) && Enabled(After(INIT, actions), Fetch(k))
    ensures var s := After(INIT, actions);
      var rounds := Fetches(k, |s.clients[k].pending|);
      && Run(s, rounds) && After(s, rounds).broadcasts == Sends(actions)
      && k < |After(s, rounds).clients| && After(s, rounds).clients[k].joinedAt <= |Sends(actions)|
      && var c := After(s, rounds).clients[k];
      && c.pending == [] && c.fetched == For(Sends(actions)[c.joinedAt..], c.username)
  {
    hide Run, After, For, Sends;
    RegistryIsSafe(actions);
    var s := After(INIT, actions);
    FetchesTake(s, k, |s.clients[k].pending|);
    assert Informed(s.broadcasts, s.clients[k]);
  }

  lemma SameIdIff(j: nat, k: nat)
    ensures IdOf(j) == IdOf(k) <==> (k - j) % 0x1_0000_0000_0000_0000 == 0
  {
  }

  lemma RemovedIff(clients: seq<Entry>, k: nat)
    requires k < |clients| && forall i, j :: 0 <= i < j < |clients| ==> clients[i].ordinal < clients[j].ordinal
    ensures var over := clients[k := clients[k].(invalid := true)];
      RemoveAt(over, FirstWithId(clients, clients[k].id, 0)) == RemoveAt(clients, k)
      <==> forall j :: 0 <= j < k ==> clients[j].id != clients[k].id
  {
    var over := clients[k := clients[k].(invalid := true)];
    var f := FirstWithId(clients, clients[k].id, 0);
    if f < k {
      assert RemoveAt(over, f)[f] == over[f + 1] && RemoveAt(clients, k)[f] == clients[f];
      assert over[f + 1].ordinal == clients[f + 1].ordinal;
    } else {
      assert RemoveAt(over, k) == RemoveAt(clients, k);
    }
  }

  /** Exactly when the client that is removed is the one whose thread ends: when no client before it in the
      list came a multiple of 2^64 connections earlier. In particular always, up to 2^64 connections. */
  lemma RemovalDropsItsArgumentIff(actions: seq<Action>, k: nat)
    requires Run(INIT, actions) && Enabled(After(INIT, actions), Remove(k))
    ensures var s := After(INIT, actions);
      && (Next(s, Remove(k)) == s.(clients := RemoveAt(s.clients, k))
        <==> forall j :: 0 <= j < k ==> (s.clients[k].ordinal - s.clients[j].ordinal) % 0x1_0000_0000_0000_0000 != 0)
      && (s.numbered <= 0x1_0000_0000_0000_0000 ==> Next(s, Remove(k)) == s.(clients := RemoveAt(s.clients, k)))
  {
    hide Run, After, IdOf, Capped, AllInformed, RemoveAt, FirstWithId;
    InitIsGood();
    RunIsGood(INIT, actions);
    var s := After(INIT, actions);
    RemovedIff(s.clients, k);
    forall j | 0 <= j < k
      ensures s.clients[j].id == s.clients[k].id
         <==> (s.clients[k].ordinal - s.clients[j].ordinal) % 0x1_0000_0000_0000_0000 == 0
    {
      SameIdIff(s.clients[j].ordinal, s.clients[k].ordinal);
    }
    if s.numbered <= 0x1_0000_0000_0000_0000 {
      forall j | 0 <= j < k ensures s.clients[j].id != s.clients[k].id {
        assert 0 < s.clients[k].ordinal - s.clients[j].ordinal < 0x1_0000_0000_0000_0000;
      }
    }
  }

  // ------------------------------------------------------------------ the code

  class Client {
    const username: Content
    const id: nat
    const fromPrimary: bool
    var active: bool
    var broken: bool             // what `getsockopt` would report
    var pending: seq<FileEvent>
    ghost const ordinal: nat
    ghost var fetched: seq<FileEvent>
    ghost const joinedAt: nat

    ghost function View(): Entry
      reads this
    {
      Entry(username, id, fromPrimary, !active || broken, pending, ordinal, fetched, joinedAt)
    }

    constructor (username: Content, id: nat, fromPrimary: bool, ghost ordinal: nat, ghost joinedAt: nat)
      ensures active && View() == Entry(username, id, fromPrimary, false, [], ordinal, [], joinedAt)
    {
      this.username := username;
      this.id := id;
      this.fromPrimary := fromPrimary;
      this.ordinal := ordinal;
      this.joinedAt := joinedAt;
      active := true;
      broken := false;
      pending := [];
      fetched := [];
    }

    method GetEvent() returns (event: Option<FileEvent>)
      modifies this`pending, this`fetched
      ensures event == if old(pending) == [] then None else Some(old(pending)[0])
      ensures var c := old(View());
        View() == if c.pending == [] then c
                  else c.(pending := c.pending[1..], fetched := c.fetched + [c.pending[0]])
    {
      if |pending| > 0 {
        event := Some(pending[0]);
        fetched := fetched + [pending[0]];
        pending := pending[1..];
      } else {
        event := None;
      }
    }
  }

  /** The entries that are not invalid, in order. */
  function Sound(clients: seq<Entry>): (kept: seq<Entry>)
    ensures |kept| <= |clients| && (AnyInvalid(clients) ==> |kept| < |clients|)
  {
    if clients == [] then []
    else
      assert AnyInvalid(clients) ==> clients[0].invalid || AnyInvalid(clients[1..]) by {
        assert forall j :: 0 < j < |clients| ==> clients[j] == clients[1..][j - 1];
      }
      if clients[0].invalid then Sound(clients[1..]) else [clients[0]] + Sound(clients[1..])
  }

  /** The positions of the invalid entries, in ascending order. */
  function Positions(clients: seq<Entry>): (at: seq<nat>)
    ensures |at| <= |clients| && (at == [] <==> !AnyInvalid(clients))
    ensures at != [] ==> at[|at| - 1] < |clients|
  {
    if clients == [] then []
    else
      var front, last := clients[..|clients| - 1], |clients| - 1;
      assert AnyInvalid(clients) <==> AnyInvalid(front) || clients[last].invalid by {
        assert forall j :: 0 <= j < last ==> front[j] == clients[j];
      }
      Positions(front) + if clients[last].invalid then [last] else []
  }

  lemma SoundFrom(views: seq<Entry>, p: nat)
    requires 0 < p <= |views|
    ensures Sound(views[p - 1..]) == (if views[p - 1].invalid then [] else [views[p - 1]]) + Sound(views[p..])
  {
    assert views[p - 1..][1..] == views[p..];
  }

  lemma PositionsTo(views: seq<Entry>, p: nat)
    requires 0 < p <= |views|
    ensures Positions(views[..p]) == Positions(views[..p - 1]) + if views[p - 1].invalid then [p - 1] else []
  {
    assert views[..p][..p - 1] == views[..p - 1];
  }

  /** What the purge has left once it erased the invalid entries from `p` on. */
  function PurgedTo(views: seq<Entry>, p: nat): seq<Entry>
    requires p <= |views|
  {
    views[..p] + Sound(views[p..])
  }

  lemma LastErased(front: seq<Entry>, last: Entry, rest: seq<Entry>)
    ensures RemoveAt((front + [last]) + rest, |front|) == front + rest
  {
  }

  lemma InvalidIsErased(views: seq<Entry>, p: nat)
    requires 0 < p <= |views| && views[p - 1].invalid
    ensures Positions(views[..p]) == Positions(views[..p - 1]) + [p - 1]
    ensures RemoveAt(PurgedTo(views, p), p - 1) == PurgedTo(views, p - 1)
  {
    hide Positions, Sound, AnyInvalid, RemoveAt;
    PositionsTo(views, p);
    SoundFrom(views, p);
    assert [] + Sound(views[p..]) == Sound(views[p..]);
    LastErased(views[..p - 1], views[p - 1], Sound(views[p..]));
    assert views[..p] == views[..p - 1] + [views[p - 1]];
  }

  lemma SoundIsKept(views: seq<Entry>, p: nat)
    requires 0 < p <= |views| && !views[p - 1].invalid
    ensures Positions(views[..p]) == Positions(views[..p - 1]) && PurgedTo(views, p) == PurgedTo(views, p - 1)
  {
    hide Positions, Sound, AnyInvalid;
    PositionsTo(views, p);
    SoundFrom(views, p);
    assert Positions(views[..p - 1]) + [] == Positions(views[..p - 1]);
    assert views[..p] + Sound(views[p..]) == views[..p - 1] + ([views[p - 1]] + Sound(views[p..]));
  }

  lemma NoPositions()
    ensures Positions([]) == []
  {
  }

  /** One turn of the purge erases the last invalid entry that is left, at `k`. */
  lemma {:induction false} PurgeTurn(views: seq<Entry>, p: nat) returns (k: nat)
    requires p <= |views| && Positions(views[..p]) != []
    ensures k < |PurgedTo(views, p)| && k <= |views|
    ensures Positions(views[..p]) == Positions(views[..k]) + [k]
    ensures RemoveAt(PurgedTo(views, p), k) == PurgedTo(views, k)
  {
    assert |PurgedTo(views, p)| >= p;
    assert 0 < p;
    hide Positions, Sound, AnyInvalid, PurgedTo, RemoveAt;
    if views[p - 1].invalid {
      k := p - 1;
      InvalidIsErased(views, p);
    } else {
      SoundIsKept(views, p);
      k := PurgeTurn(views, p - 1);
    }
  }

  lemma NothingPurged(views: seq<Entry>)
    ensures PurgedTo(views, |views|) == views
  {
  }

  /** When no invalid entry is left, the sound ones are. */
  lemma {:induction false} PurgeEnds(views: seq<Entry>, p: nat)
    requires p <= |views| && Positions(views[..p]) == []
    ensures PurgedTo(views, p) == Sound(views)
  {
    hide Positions, Sound;
    if p == 0 {
      assert views[..0] + Sound(views[0..]) == Sound(views) by {
        assert views[0..] == views;
      }
    } else {
      PositionsTo(views, p);
      SoundFrom(views, p);
      assert views[..p] + Sound(views[p..]) == views[..p - 1] + ([views[p - 1]] + Sound(views[p..]));
      PurgeEnds(views, p - 1);
    }
  }

  /** `OutOfRange`: the loop of the purge reads a position that the vector of the clients to be erased
      does not have. */
  datatype Admission = Yes | No | OutOfRange(position: u64, length: nat)

  /** A user connects, the socket fails, and anyone who connects before its thread has noticed brings the
      server down. */
  lemma BrokenSocketStopsServer(first: Content, second: Content)
    ensures var actions := [Open(first, false), Break(0), Open(second, false)];
      Run(INIT, actions) && After(INIT, actions).crashed
  {
    var s1 := Next(INIT, Open(first, false));
    assert Held([], first) == 0;
    assert s1.clients == [Entry(first, 0, false, false, [], 0, [], 0)];
    var s2 := Next(s1, Break(0));
    assert s2.clients[0].invalid;
    var s3 := Next(s2, Open(second, false));
    assert s3.crashed;
    assert Run(s3, []) && After(s3, []) == s3;
    assert [Open(second, false)][1..] == [];
    assert Run(s2, [Open(second, false)]) && After(s2, [Open(second, false)]) == s3;
    assert [Break(0), Open(second, false)][1..] == [Open(second, false)];
    assert Run(s1, [Break(0), Open(second, false)]) && After(s1, [Break(0), Open(second, false)]) == s3;
    assert [Open(first, false), Break(0), Open(second, false)][1..] == [Break(0), Open(second, false)];
  }

  /** The entries, with that of `client` invalid. */
  function Over(views: seq<Entry>, clients: seq<Client>, client: Client): (over: seq<Entry>)
    requires |views| == |clients|
    ensures |over| == |views|
    ensures forall j :: 0 <= j < |over| ==>
      over[j] == if clients[j] == client then views[j].(invalid := true) else views[j]
  {
    seq(|views|, j requires 0 <= j < |views| => if clients[j] == client then views[j].(invalid := true) else views[j])
  }

  /** The global list, and what its functions do to the entries. */
  class ClientRegistry {
    var clients: seq<Client>

    ghost function Views(): (views: seq<Entry>)
      reads this, clients
      ensures |views| == |clients| && forall i :: 0 <= i < |clients| ==> views[i] == clients[i].View()
    {
      seq(|clients|, i requires 0 <= i < |clients| reads this, clients => clients[i].View())
    }

    constructor ()
      ensures clients == []
    {
      clients := [];
    }

    /** Without invalid clients the user's connections are counted. Otherwise the purge erases the invalid
        clients, the last one first, but its index wraps round below zero and never ends the loop. */
    method CanConnect(username: Content) returns (answer: Admission)
      requires |clients| < U64_LIMIT
      modifies this
      ensures answer.OutOfRange? <==> AnyInvalid(old(Views()))
      ensures answer.OutOfRange? ==> answer.position >= answer.length && Views() == Sound(old(Views()))
      ensures !answer.OutOfRange? ==> clients == old(clients)
      ensures answer == Yes <==> !AnyInvalid(old(Views())) && Held(old(Views()), username) < MAX_ACTIVE_CONNECTIONS
    {
      hide AnyInvalid, Sound, Positions;
      ghost var views := Views();
      var invalid: seq<nat> := [];
      assert Positions(views[..0]) == [] by {
        NoPositions();
      }
      for i := 0 to |clients|
        invariant clients == old(clients) && invalid == Positions(views[..i])
      {
        PositionsTo(views, i + 1);
        if !clients[i].active || clients[i].broken {
          invalid := invalid + [i];
        }
      }
      assert views[..|clients|] == views == Views();
      if |invalid| > 0 {
        answer := Purge(invalid);
        return;
      }
      var count := 0;
      for i := 0 to |clients|
        invariant clients == old(clients) && count == Held(views[..i], username)
      {
        HeldAppend(views[..i], views[i], username);
        assert views[..i + 1] == views[..i] + [views[i]];
        if clients[i].username == username && !clients[i].fromPrimary {
          count := count + 1;
        }
      }
      answer := if count < MAX_ACTIVE_CONNECTIONS then Yes else No;
    }

    /** The loop that erases the clients at the positions found. */
    method Purge(invalid: seq<nat>) returns (answer: Admission)
      requires 0 < |invalid| <= |clients| < U64_LIMIT && invalid == Positions(Views())
      modifies this
      ensures answer.OutOfRange? && answer.position >= answer.length == |invalid|
      ensures Views() == Sound(old(Views()))
    {
      hide Positions, Sound, PurgedTo;
      ghost var views := Views();
      var i: u64 := |invalid| - 1;
      ghost var p: nat := |clients|;
      assert views[..p] == views;
      NothingPurged(views);
      while i < |invalid|
        invariant p <= |views| && Views() == PurgedTo(views, p)
        invariant Positions(views[..p]) == if i < |invalid| then invalid[..i + 1] else []
        decreases if i < |invalid| then i + 1 else 0
      {
        ghost var k := PurgeTurn(views, p);
        assert invalid[..i + 1] == invalid[..i] + [invalid[i]];
        assert k == invalid[i];
        clients := RemoveAt(clients, invalid[i]);
        assert Views() == RemoveAt(PurgedTo(views, p), k);
        p := k;
        i := if i == 0 then 0xFFFF_FFFF_FFFF_FFFF else i - 1;
      }
      PurgeEnds(views, p);
      answer := OutOfRange(i, |invalid|);
    }

    method ClientNew(username: Content, id: nat, fromPrimary: bool, ghost ordinal: nat, ghost joinedAt: nat)
      returns (crashed: bool, client: Client?)
      requires |clients| < U64_LIMIT
      modifies this
      ensures crashed <==> !fromPrimary && AnyInvalid(old(Views()))
      ensures client != null <==> !crashed && Admits(old(Views()), username, fromPrimary)
      ensures crashed ==> Views() == Sound(old(Views()))
      ensures client == null && !crashed ==> clients == old(clients)
      ensures client != null ==>
        && fresh(client) && clients == old(clients) + [client]
        && Views() == old(Views()) + [Entry(username, id, fromPrimary, false, [], ordinal, [], joinedAt)]
    {
      crashed, client := false, null;
      if !fromPrimary {
        var answer := CanConnect(username);
        if answer.OutOfRange? {
          return true, null;
        }
        if answer == No {
          return;
        }
      }
      client := new Client(username, id, fromPrimary, ordinal, joinedAt);
      clients := clients + [client];
    }

    /** The client's entry becomes invalid; then the first entry with its id goes. */
    method ClientRemove(client: Client)
      modifies this, client`active
      ensures !client.active
      ensures var over, k := Over(old(Views()), old(clients), client), FirstWithId(old(Views()), client.id, 0);
        Views() == if k < |over| then RemoveAt(over, k) else over
    {
      ghost var over := Over(Views(), clients, client);
      client.active := false;
      assert Views() == over;
      for i := 0 to |clients|
        invariant clients == old(clients) && Views() == over
        invariant FirstWithId(old(Views()), client.id, 0) == FirstWithId(old(Views()), client.id, i)
      {
        if clients[i].id == client.id {
          assert FirstWithId(old(Views()), client.id, i) == i;
          clients := RemoveAt(clients, i);
          assert Views() == RemoveAt(over, i) by {
            forall j | 0 <= j < |clients| ensures clients[j].View() == over[if j < i then j else j + 1] {
              assert clients[j] == old(clients)[if j < i then j else j + 1];
            }
          }
          return;
        }
      }
    }

    /** Both broadcasts: the event goes to the back of the queue of each of the user's clients. */
    method SendEvent(username: Content, event: FileEvent)
      requires forall i, j :: 0 <= i < j < |clients| ==> clients[i] != clients[j]
      modifies clients
      ensures Views() == HearAll(old(Views()), Broadcast(username, event))
      ensures forall c :: c in clients ==> c.active == old(c.active)
    {
      ghost var was := Views();
      for i := 0 to |clients|
        invariant forall c :: c in clients ==> c.active == old(c.active)
        invariant forall j :: i <= j < |clients| ==> clients[j].View() == was[j]
        invariant forall j :: 0 <= j < i ==> clients[j].View() == Hear(was[j], Broadcast(username, event))
      {
        assert clients[i].View() == was[i];
        if clients[i].username == username {
          clients[i].pending := clients[i].pending + [event];
        }
      }
    }
  }
}
