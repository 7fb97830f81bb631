/** The election again, with the one thread in which each server serves the others: a fetch is answered only
    when the winner's thread comes to it, and after each connection that thread carries out every
    deferred request there is before it accepts another. */
module ComsThreads {
  import opened Basics
  import opened Servers
  import opened Ring
  import RingSafety
  import Membership
  import opened Failover
  import opened FailoverRuns

  /** Who is at the other end of a connection: a server following an elected message, or one carrying out a
      deferred request. Both fetch the list and hang up. */
  datatype Peer = Elected(m: Message) | Deferred(who: Endpoint)

  /** Where the thread stands: blocked in `accept`, serving a connection, with so many deferred requests to
      go, or waiting for the answer to one of them, with so many to go after it. */
  datatype Thread = Accepting | Serving(peer: Peer) | Updating(left: nat) | Waiting(on: Endpoint, left: nat)

  /** One server's thread, the connections waiting to be accepted, and its deferred requests, which are
      never cleared. */
  datatype Coms = Coms(thread: Thread, backlog: seq<Peer>, deferred: nat)

  /** `fetching` holds the elected messages whose receivers wait for the winner's list. */
  datatype State = State(ring: World, coms: map<Endpoint, Coms>, fetching: set<Message>)

  datatype Action =
    | Base(a: Ring.Action)    // a step of the election that fetches nothing
    | StartFetch(m: Message)  // the receiver of an elected message connects to the winner
    | Accept(x: Endpoint)
    | Serve(x: Endpoint)      // the list is sent, and the connection closed
    | Update(x: Endpoint)     // the next deferred request is begun, or there is none left
    | GiveUp(x: Endpoint)     // the server whose answer is waited for has gone
    | Lose(m: Message)        // the winner has gone before it answered

  predicate Up(s: State, x: Endpoint) { x in s.ring.nodes && x in s.coms }

  /** A server handles one election message at a time. */
  predicate Busy(s: State, e: Endpoint) { exists m :: m in s.fetching && m.to == e }

  predicate Enabled(s: State, a: Action) {
    match a
    case Base(r) =>
      && Ring.Enabled(s.ring, r) && Lossless(r) && (IsDelivery(r) ==> !Busy(s, r.m.to))
      && (r.DeliverNotice? ==> r.m.to == r.m.value || !Up(s, r.m.value))
    case StartFetch(m) =>
      m in s.ring.notices && m.to in s.ring.nodes && m.to != m.value && !Busy(s, m.to) && Up(s, m.value)
    case Accept(x) => Up(s, x) && s.coms[x].thread == Accepting && s.coms[x].backlog != []
    case Serve(x) => Up(s, x) && s.coms[x].thread.Serving?
    case Update(x) => Up(s, x) && s.coms[x].thread.Updating?
    case GiveUp(x) => Up(s, x) && s.coms[x].thread.Waiting? && !Up(s, s.coms[x].thread.on)
    case Lose(m) => m in s.fetching && m in s.ring.notices && m.to in s.ring.nodes && !Up(s, m.value)
  }

  function WithThread(s: State, x: Endpoint, t: Thread): State
    requires x in s.coms
  {
    s.(coms := s.coms[x := s.coms[x].(thread := t)])
  }

  function Queued(s: State, x: Endpoint, peer: Peer): State
    requires x in s.coms
  {
    s.(coms := s.coms[x := s.coms[x].(backlog := s.coms[x].backlog + [peer])])
  }

  /** The peer of `x` has the list of `x`, and goes on. */
  function Answered(failed: Endpoint, s: State, x: Endpoint, peer: Peer): State
    requires Up(s, x)
  {
    match peer
    case Elected(m) =>
      if m in s.fetching && m in s.ring.notices && m.to in s.ring.nodes then
        s.(ring := Ring.Next(failed, s.ring, DeliverNotice(m, true)), fetching := s.fetching - {m})
      else s
    case Deferred(who) =>
      if Up(s, who) && s.coms[who].thread.Waiting? && s.coms[who].thread.on == x then
        var list := Transfer(s.ring.nodes[x].servers);
        WithThread(s.(ring := s.ring.(nodes := s.ring.nodes[who := s.ring.nodes[who].(servers := list)])), who,
                   Updating(s.coms[who].thread.left))
      else s
  }

  function Next(failed: Endpoint, s: State, a: Action): State
    requires Enabled(s, a)
  {
    match a
    case Base(r) => s.(ring := Ring.Next(failed, s.ring, r))
    case StartFetch(m) => Queued(s.(fetching := s.fetching + {m}), m.value, Elected(m))
    case Accept(x) =>
      var c := s.coms[x];
      s.(coms := s.coms[x := c.(thread := Serving(c.backlog[0]), backlog := c.backlog[1..])])
    case Serve(x) =>
      WithThread(Answered(failed, s, x, s.coms[x].thread.peer), x, Updating(s.coms[x].deferred))
    case Update(x) =>
      var list, left := s.ring.nodes[x].servers, s.coms[x].thread.left;
      var k := PrimaryFrom(list, 0);
      if left == 0 then WithThread(s, x, Accepting)
      else if k == |list| then s.(ring := s.ring.(nodes := s.ring.nodes - {x}))
      else if !Up(s, list[k].at) then WithThread(s, x, Updating(left - 1))
      else Queued(WithThread(s, x, Waiting(list[k].at, left - 1)), list[k].at, Deferred(x))
    case GiveUp(x) => WithThread(s, x, Updating(s.coms[x].thread.left))
    case Lose(m) =>
      s.(ring := Ring.Next(failed, s.ring, DeliverNotice(m, false)), fetching := s.fetching - {m})
  }

  predicate Run(failed: Endpoint, s: State, actions: seq<Action>)
    decreases |actions|
  {
    actions == [] ||
    (Enabled(s, actions[0]) && Run(failed, Next(failed, s, actions[0]), actions[1..]))
  }

  function After(failed: Endpoint, s: State, actions: seq<Action>): State
    requires Run(failed, s, actions)
    decreases |actions|
  {
    if actions == [] then s else After(failed, Next(failed, s, actions[0]), actions[1..])
  }

  /** All threads wait for a connection, and nobody fetches. */
  predicate Fresh(s: State) {
    && s.coms.Keys == s.ring.nodes.Keys && s.fetching == {}
    && forall x :: x in s.coms ==> s.coms[x].thread == Accepting && s.coms[x].backlog == []
  }

  /** A thread that waits for an answer of its own server waits as long as that server runs. */
  lemma SelfWaitIsForever(failed: Endpoint, s: State, a: Action, x: Endpoint)
    requires Up(s, x) && s.coms[x].thread.Waiting? && s.coms[x].thread.on == x && Enabled(s, a)
    ensures Up(Next(failed, s, a), x) ==> Next(failed, s, a).coms[x].thread == s.coms[x].thread
  {
  }

  /** The first server marked primary in the list of `x`, if there is one, is not there. */
  predicate PrimaryIsGone(s: State, x: Endpoint)
    requires Up(s, x)
  {
    var list := s.ring.nodes[x].servers;
    var k := PrimaryFrom(list, 0);
    k < |list| && !Up(s, list[k].at)
  }

  function Turns(x: Endpoint, n: nat): seq<Action> { seq(n, _ => Update(x)) }

  lemma {:induction false} DeadPrimaryIsSkipped(failed: Endpoint, s: State, x: Endpoint)
    requires Up(s, x) && s.coms[x].thread.Updating? && PrimaryIsGone(s, x)
    ensures Run(failed, s, Turns(x, s.coms[x].thread.left + 1))
    ensures After(failed, s, Turns(x, s.coms[x].thread.left + 1)) == WithThread(s, x, Accepting)
    decreases s.coms[x].thread.left
  {
    var left := s.coms[x].thread.left;
    var next := Next(failed, s, Update(x));
    assert Turns(x, left + 1)[1..] == Turns(x, left);
    if left == 0 {
      assert Turns(x, 0) == [];
    } else {
      DeadPrimaryIsSkipped(failed, next, x);
      assert WithThread(next, x, Accepting).coms == WithThread(s, x, Accepting).coms;
    }
  }

  /** A deferred request carried out with a primary that is there and has nothing else to do: the server has the
      primary's list and goes on with its other requests, and the primary turns to its own. */
  lemma DeferredFetchIsServed(failed: Endpoint, s: State, x: Endpoint, p: Endpoint)
    requires Up(s, x) && Up(s, p) && p != x && s.coms[p].thread == Accepting && s.coms[p].backlog == []
    requires s.coms[x].thread.Updating? && s.coms[x].thread.left > 0
    requires Membership.PrimaryOf(s.ring.nodes[x].servers) == Some(p)
    ensures Run(failed, s, [Update(x), Accept(p), Serve(p)])
    ensures var s' := After(failed, s, [Update(x), Accept(p), Serve(p)]);
      && s'.coms == s.coms[x := s.coms[x].(thread := Updating(s.coms[x].thread.left - 1))]
                          [p := s.coms[p].(thread := Updating(s.coms[p].deferred))]
      && s'.ring.nodes == s.ring.nodes[x := s.ring.nodes[x].(servers := Transfer(s.ring.nodes[p].servers))]
      && s'.fetching == s.fetching
  {
    hide Transfer, Run, After;
    var s1 := Next(failed, s, Update(x));
    var s2 := Next(failed, s1, Accept(p));
    var s3 := Next(failed, s2, Serve(p));
    assert [Deferred(x)][1..] == [] && [] + [Deferred(x)] == [Deferred(x)];
    ThreeSteps(failed, s, Update(x), Accept(p), Serve(p));
    assert s3.coms == s.coms[x := s.coms[x].(thread := Updating(s.coms[x].thread.left - 1))]
                            [p := s.coms[p].(thread := Updating(s.coms[p].deferred))];
  }

  lemma ThreeSteps(failed: Endpoint, s: State, a: Action, b: Action, c: Action)
    requires Enabled(s, a) && Enabled(Next(failed, s, a), b) && Enabled(Next(failed, Next(failed, s, a), b), c)
    ensures Run(failed, s, [a, b, c])
    ensures After(failed, s, [a, b, c]) == Next(failed, Next(failed, Next(failed, s, a), b), c)
  {
    hide Next, Enabled;
    var s1, s2 := Next(failed, s, a), Next(failed, Next(failed, s, a), b);
    var s3 := Next(failed, s2, c);
    assert [c][1..] == [] && [b, c][1..] == [c] && [a, b, c][1..] == [b, c];
    assert Run(failed, s3, []) && After(failed, s3, []) == s3;
    assert Run(failed, s2, [c]) && After(failed, s2, [c]) == s3;
    assert Run(failed, s1, [b, c]) && After(failed, s1, [b, c]) == s3;
  }

  /** A server that waits for the answer of the primary that crashed comes back to waiting for a connection: it gives
      up, and then its other deferred requests fail at once. Nothing else changes. */
  lemma FetchFromDeadPrimaryEnds(failed: Endpoint, s: State, x: Endpoint)
    requires Up(s, x) && s.coms[x].thread.Waiting? && !Up(s, s.coms[x].thread.on) && PrimaryIsGone(s, x)
    ensures var actions := [GiveUp(x)] + Turns(x, s.coms[x].thread.left + 1);
      Run(failed, s, actions) && After(failed, s, actions) == WithThread(s, x, Accepting)
  {
    var next := Next(failed, s, GiveUp(x));
    DeadPrimaryIsSkipped(failed, next, x);
    var turns := Turns(x, s.coms[x].thread.left + 1);
    assert ([GiveUp(x)] + turns)[1..] == turns;
    assert WithThread(next, x, Accepting).coms == WithThread(s, x, Accepting).coms;
  }

  // ------------------------------------------------------------------ what every run keeps

  /** Those in line are exactly those who fetch, and that is one at most. */
  predicate InLine(fetching: set<Message>, peers: seq<Peer>) {
    || (fetching == {} && peers == [])
    || (|peers| == 1 && peers[0].Elected? && fetching == {peers[0].m})
  }

  /** Nobody has exited, only the thread of the winner-to-be `t` has anything to do, and what it does; `d` is
      the number of its deferred requests. */
  ghost predicate Tidy(s: State, t: Endpoint, d: nat) {
    && s.coms.Keys == s.ring.nodes.Keys && t in s.coms && s.coms[t].deferred == d
    && (forall x :: x in s.coms && x != t ==> s.coms[x].thread == Accepting && s.coms[x].backlog == [])
    && (forall m :: m in s.fetching ==> m in s.ring.notices && m.to in s.coms && m.value == t && m.to != t)
    && match s.coms[t].thread
       case Accepting => InLine(s.fetching, s.coms[t].backlog)
       case Serving(peer) => InLine(s.fetching, [peer]) && s.coms[t].backlog == []
       case Updating(left) => left == d && InLine(s.fetching, s.coms[t].backlog)
       case Waiting(on, left) => on == t && left + 1 == d
  }

  /** How many fetches a winner with deferred requests has answered. */
  predicate Counted(thread: Thread, d: nat, fetched: int) {
    d > 0 ==> fetched == if thread.Accepting? || thread.Serving? then 0 else 1
  }

  ghost predicate Ok(servers: seq<Server>, ring: seq<Server>, failed: Endpoint, i: nat, top: nat, stage: Stage,
          s: State, d: nat)
    requires i < |ring| && top < |ring|
  {
    && Reached(|ring|, Dist(|ring|, i, top), stage) && s.ring == WorldAt(servers, ring, failed, i, top, stage)
    && Tidy(s, ring[top].at, d) && Counted(s.coms[ring[top].at].thread, d, Fetched(stage))
  }

  /** Notices in flight, by stage. */
  lemma NoticesAt(servers: seq<Server>, ring: seq<Server>, failed: Endpoint, i: nat, top: nat, stage: Stage)
    requires i < |ring| && top < |ring|
    ensures var w := WorldAt(servers, ring, failed, i, top, stage);
      && (stage.Voting? || stage.over ==> w.notices == multiset{})
      && (stage.Telling? ==> w.tokens == multiset{})
      && (stage.Telling? && !stage.over ==>
          w.notices == multiset{Message(ring[Hop(|ring|, top, stage.sent)].at, ring[top].at)})
      && w.nodes.Keys == Members(ring)
  {
  }

  lemma DistinctRing(servers: seq<Server>, ring: seq<Server>, failed: Endpoint, i: nat, top: nat)
    requires Setting(servers, ring, failed, i, top)
    ensures Distinct(ring) && i < |ring| && top < |ring|
  {
  }

  /** A notice in flight names the winner, and with the last hop reaches it. */
  lemma NoticeFacts(servers: seq<Server>, ring: seq<Server>, failed: Endpoint, i: nat, top: nat, stage: Stage,
          m: Message)
    requires Setting(servers, ring, failed, i, top) && Reached(|ring|, Dist(|ring|, i, top), stage)
    requires m in WorldAt(servers, ring, failed, i, top, stage).notices
    ensures stage.Telling? && !stage.over && m.value == ring[top].at
    ensures WorldAt(servers, ring, failed, i, top, stage).notices == multiset{m}
    ensures m.to == m.value <==> stage.sent == |ring|
  {
    hide Setting, ElectingNodes, InformingNodes, Lead;
    DistinctRing(servers, ring, failed, i, top);
    NoticesAt(servers, ring, failed, i, top, stage);
    NoticeTarget(ring, i, top, stage.sent, m);
  }

  /** While somebody fetches, no other step of the election changes anything. */
  lemma FetchingMeanwhile(servers: seq<Server>, ring: seq<Server>, failed: Endpoint, i: nat, top: nat, stage: Stage,
          s: State, d: nat, r: Ring.Action, m: Message)
    requires Setting(servers, ring, failed, i, top) && Ok(servers, ring, failed, i, top, stage, s, d)
    requires m in s.fetching && Enabled(s, Base(r))
    ensures Ring.Next(failed, s.ring, r) == s.ring
  {
    hide Setting, WorldAt, Ring.Next, InLine, Counted, Reached;
    DistinctRing(servers, ring, failed, i, top);
    NoticeFacts(servers, ring, failed, i, top, stage, m);
    NoticesAt(servers, ring, failed, i, top, stage);
    match r
    case Suspect(at) =>
      assert s.ring == InformingWorld(ring, i, top, stage.sent, stage.over) by {
        TellingWorld(servers, ring, failed, i, top, stage);
      }
      SuspicionWhileInforming(servers, ring, failed, i, top, s.ring, stage.sent, stage.over, at);
    case DeliverNotice(_, _) =>
  }

  lemma TellingWorld(servers: seq<Server>, ring: seq<Server>, failed: Endpoint, i: nat, top: nat, stage: Stage)
    requires i < |ring| && top < |ring| && stage.Telling?
    ensures WorldAt(servers, ring, failed, i, top, stage) == InformingWorld(ring, i, top, stage.sent, stage.over)
  {
  }

  lemma BaseIsOk(servers: seq<Server>, ring: seq<Server>, failed: Endpoint, i: nat, top: nat, stage: Stage,
          s: State, d: nat, r: Ring.Action)
    returns (next: Stage)
    requires Setting(servers, ring, failed, i, top) && Ok(servers, ring, failed, i, top, stage, s, d)
    requires Enabled(s, Base(r)) && OnlyStarter(Next(failed, s, Base(r)).ring, ring[i].at)
    ensures Ok(servers, ring, failed, i, top, next, Next(failed, s, Base(r)), d)
  {
    hide Setting, WorldAt, Ring.Next, OnlyStarter, Reached, Left, InLine, Fetched;
    DistinctRing(servers, ring, failed, i, top);
    if m :| m in s.fetching {
      FetchingMeanwhile(servers, ring, failed, i, top, stage, s, d, r, m);
      next := stage;
    } else {
      next := NextStage(servers, ring, failed, i, top, stage, r);
      NoticesAt(servers, ring, failed, i, top, stage);
      NoticesAt(servers, ring, failed, i, top, next);
      if r.DeliverNotice? {
        NoticeFacts(servers, ring, failed, i, top, stage, r.m);
      }
    }
  }

  lemma StartFetchIsOk(servers: seq<Server>, ring: seq<Server>, failed: Endpoint, i: nat, top: nat, stage: Stage,
          s: State, d: nat, m: Message)
    requires Setting(servers, ring, failed, i, top) && Ok(servers, ring, failed, i, top, stage, s, d)
    requires Enabled(s, StartFetch(m))
    ensures Ok(servers, ring, failed, i, top, stage, Next(failed, s, StartFetch(m)), d)
  {
    hide Setting, WorldAt, Reached, Fetched;
    NoticeFacts(servers, ring, failed, i, top, stage, m);
    assert forall m2 :: m2 in s.fetching ==> m2 == m;
    assert m !in s.fetching;
    assert s.fetching == {};
    assert [] + [Elected(m)] == [Elected(m)];
  }

  lemma AcceptIsOk(servers: seq<Server>, ring: seq<Server>, failed: Endpoint, i: nat, top: nat, stage: Stage,
          s: State, d: nat, x: Endpoint)
    requires Setting(servers, ring, failed, i, top) && Ok(servers, ring, failed, i, top, stage, s, d)
    requires Enabled(s, Accept(x))
    ensures Ok(servers, ring, failed, i, top, stage, Next(failed, s, Accept(x)), d)
  {
    hide Setting, WorldAt, Reached, Fetched;
  }

  lemma ServedNext(failed: Endpoint, s: State, x: Endpoint, d: nat)
    requires Tidy(s, x, d) && Enabled(s, Serve(x))
    ensures s.coms[x].thread.peer.Elected? && s.fetching == {s.coms[x].thread.peer.m} && s.coms[x].backlog == []
    ensures Ring.Enabled(s.ring, DeliverNotice(s.coms[x].thread.peer.m, true))
    ensures Next(failed, s, Serve(x)) == State(Ring.Next(failed, s.ring, DeliverNotice(s.coms[x].thread.peer.m, true)),
                                               s.coms[x := Coms(Updating(d), [], d)], {})
  {
    hide Ring.Next;
    var m := s.coms[x].thread.peer.m;
    assert s.fetching - {m} == {};
  }

  lemma ServeIsOk(servers: seq<Server>, ring: seq<Server>, failed: Endpoint, i: nat, top: nat, stage: Stage,
          s: State, d: nat, x: Endpoint)
    returns (next: Stage)
    requires Setting(servers, ring, failed, i, top) && Ok(servers, ring, failed, i, top, stage, s, d)
    requires Enabled(s, Serve(x))
    ensures Ok(servers, ring, failed, i, top, next, Next(failed, s, Serve(x)), d) && next != Voting(0)
  {
    hide Setting, WorldAt, Reached, Fetched, Left, Ring.Next;
    DistinctRing(servers, ring, failed, i, top);
    assert x == ring[top].at;
    var m := s.coms[x].thread.peer.m;
    ServedNext(failed, s, x, d);
    NoticeFacts(servers, ring, failed, i, top, stage, m);
    NoticesAt(servers, ring, failed, i, top, stage);
    next := DeliveryStage(servers, ring, failed, i, top, stage, DeliverNotice(m, true));
    NoticesAt(servers, ring, failed, i, top, next);
  }

  lemma UpdateIsOk(servers: seq<Server>, ring: seq<Server>, failed: Endpoint, i: nat, top: nat, stage: Stage,
          s: State, d: nat, x: Endpoint)
    requires Setting(servers, ring, failed, i, top) && Ok(servers, ring, failed, i, top, stage, s, d)
    requires Enabled(s, Update(x))
    ensures Ok(servers, ring, failed, i, top, stage, Next(failed, s, Update(x)), d)
  {
    hide Setting, WorldAt, Reached;
    if d > 0 {
      WinnerListsItself(servers, ring, failed, i, top, stage);
    }
  }

  /** The winner follows itself. */
  lemma WinnerListsItself(servers: seq<Server>, ring: seq<Server>, failed: Endpoint, i: nat, top: nat, stage: Stage)
    requires Setting(servers, ring, failed, i, top) && Reached(|ring|, Dist(|ring|, i, top), stage)
    requires stage.Telling?
    ensures var w := WorldAt(servers, ring, failed, i, top, stage);
      && ring[top].at in w.nodes
      && var list := w.nodes[ring[top].at].servers;
      PrimaryFrom(list, 0) < |list| && list[PrimaryFrom(list, 0)].at == ring[top].at
  {
    hide IndexFrom, Hop;
    PromotedRing(servers, ring, failed, i, top, top);
    MembersAreListed(ring, ring[top].at);
  }

  lemma StepIsOk(servers: seq<Server>, ring: seq<Server>, failed: Endpoint, i: nat, top: nat, stage: Stage,
          s: State, d: nat, a: Action)
    returns (next: Stage)
    requires Setting(servers, ring, failed, i, top) && Ok(servers, ring, failed, i, top, stage, s, d)
    requires Enabled(s, a) && OnlyStarter(Next(failed, s, a).ring, ring[i].at)
    ensures Ok(servers, ring, failed, i, top, next, Next(failed, s, a), d)
  {
    hide Setting, WorldAt, Next, Reached, Counted, OnlyStarter;
    next := stage;
    match a
    case Base(r) => next := BaseIsOk(servers, ring, failed, i, top, stage, s, d, r);
    case StartFetch(m) => StartFetchIsOk(servers, ring, failed, i, top, stage, s, d, m);
    case Accept(x) => AcceptIsOk(servers, ring, failed, i, top, stage, s, d, x);
    case Serve(x) => next := ServeIsOk(servers, ring, failed, i, top, stage, s, d, x);
    case Update(x) => UpdateIsOk(servers, ring, failed, i, top, stage, s, d, x);
    case GiveUp(x) =>
    case Lose(m) =>
  }

  lemma {:induction false} StartersGrow(failed: Endpoint, s: State, actions: seq<Action>)
    requires Run(failed, s, actions)
    ensures s.ring.starts <= After(failed, s, actions).ring.starts
    decreases |actions|
  {
    if actions != [] {
      StartersGrow(failed, Next(failed, s, actions[0]), actions[1..]);
    }
  }

  lemma {:induction false} RunIsOk(servers: seq<Server>, ring: seq<Server>, failed: Endpoint, i: nat, top: nat,
          stage: Stage, s: State, d: nat, actions: seq<Action>)
    returns (last: Stage)
    requires Setting(servers, ring, failed, i, top) && Ok(servers, ring, failed, i, top, stage, s, d)
    requires Run(failed, s, actions) && OnlyStarter(After(failed, s, actions).ring, ring[i].at)
    ensures Ok(servers, ring, failed, i, top, last, After(failed, s, actions), d)
    decreases |actions|
  {
    hide Setting, Next, Enabled, Ok;
    last := stage;
    if actions != [] {
      var next := Next(failed, s, actions[0]);
      StartersGrow(failed, next, actions[1..]);
      last := StepIsOk(servers, ring, failed, i, top, stage, s, d, actions[0]);
      last := RunIsOk(servers, ring, failed, i, top, last, next, d, actions[1..]);
    }
  }

  lemma StartIsOk(servers: seq<Server>, failed: Endpoint, s: State, i: nat, t: nat)
    requires Agreed(servers, failed) && Ring.Start(servers, failed, s.ring) && Fresh(s)
    requires var ring := Backups(servers); Setting(servers, ring, failed, i, t)
    ensures var ring := Backups(servers);
      && ring[t].at in s.coms && s.ring == WorldAt(servers, ring, failed, i, t, Voting(0))
      && Ok(servers, ring, failed, i, t, Voting(0), s, s.coms[ring[t].at].deferred)
  {
    hide Setting, ElectingNodes, InformingNodes;
    var ring := Backups(servers);
    DistinctRing(servers, ring, failed, i, t);
    StartIsPhaseZero(servers, failed, s.ring, i);
    RingSafety.Successor(ring, t);
    MembersAreListed(ring, ring[t].at);
  }

  predicate OutOfReach(thread: Thread) { thread.Updating? || thread.Waiting? }

  lemma StepStaysAway(servers: seq<Server>, ring: seq<Server>, failed: Endpoint, i: nat, top: nat, stage: Stage,
          s: State, d: nat, a: Action)
    requires Setting(servers, ring, failed, i, top) && Ok(servers, ring, failed, i, top, stage, s, d)
    requires d > 0 && OutOfReach(s.coms[ring[top].at].thread) && Enabled(s, a)
    ensures ring[top].at in Next(failed, s, a).coms && OutOfReach(Next(failed, s, a).coms[ring[top].at].thread)
  {
    hide Setting, WorldAt, Reached, Ring.Next, InLine;
    WinnerListsItself(servers, ring, failed, i, top, stage);
  }

  lemma {:induction false} RunStaysAway(servers: seq<Server>, ring: seq<Server>, failed: Endpoint, i: nat, top: nat,
          stage: Stage, s: State, d: nat, actions: seq<Action>)
    requires Setting(servers, ring, failed, i, top) && Ok(servers, ring, failed, i, top, stage, s, d)
    requires d > 0 && OutOfReach(s.coms[ring[top].at].thread)
    requires Run(failed, s, actions) && OnlyStarter(After(failed, s, actions).ring, ring[i].at)
    ensures ring[top].at in After(failed, s, actions).coms
    ensures OutOfReach(After(failed, s, actions).coms[ring[top].at].thread)
    decreases |actions|
  {
    hide Setting, Next, Enabled, WorldAt, Reached, InLine, OutOfReach;
    if actions != [] {
      var next := Next(failed, s, actions[0]);
      StartersGrow(failed, next, actions[1..]);
      StepStaysAway(servers, ring, failed, i, top, stage, s, d, actions[0]);
      var later := StepIsOk(servers, ring, failed, i, top, stage, s, d, actions[0]);
      RunStaysAway(servers, ring, failed, i, top, later, next, d, actions[1..]);
    }
  }

  /** The hang: in every run with one starter, a winner with deferred requests that has once left its
      connections for them never accepts or serves another. */
  lemma WinnerStaysAway(servers: seq<Server>, failed: Endpoint, s: State, before: seq<Action>, after: seq<Action>,
          starter: Endpoint, top: Endpoint)
    requires Agreed(servers, failed) && Ring.Start(servers, failed, s.ring) && Fresh(s)
    requires Lists(Backups(servers), starter) && RingSafety.IsHighest(Backups(servers), top)
    requires Run(failed, s, before) && Run(failed, After(failed, s, before), after)
    requires OnlyStarter(After(failed, After(failed, s, before), after).ring, starter)
    requires top in s.coms && s.coms[top].deferred > 0
    requires top in After(failed, s, before).coms && OutOfReach(After(failed, s, before).coms[top].thread)
    ensures var s' := After(failed, After(failed, s, before), after);
      top in s'.coms && OutOfReach(s'.coms[top].thread)
  {
    hide Agreed, Ring.Start, Fresh, Run, After, Setting, OutOfReach;
    var ring := Backups(servers);
    var i, t := IndexFrom(ring, starter, 0), IndexFrom(ring, top, 0);
    SettingOf(servers, failed, starter, top);
    StartIsOk(servers, failed, s, i, t);
    StartersGrow(failed, After(failed, s, before), after);
    var d := s.coms[top].deferred;
    var stage := RunIsOk(servers, ring, failed, i, t, Voting(0), s, d, before);
    RunStaysAway(servers, ring, failed, i, t, stage, After(failed, s, before), d, after);
  }

  // ------------------------------------------------------------------ runs that finish

  lemma RunFirst(failed: Endpoint, s: State, a: Action, rest: seq<Action>)
    requires Enabled(s, a) && Run(failed, Next(failed, s, a), rest)
    ensures Run(failed, s, [a] + rest)
    ensures After(failed, s, [a] + rest) == After(failed, Next(failed, s, a), rest)
  {
    assert ([a] + rest)[1..] == rest;
  }

  /** Nobody fetches, and if another fetch is to come, the winner-to-be is ready for it. */
  ghost predicate Ready(s: State, t: Endpoint, d: nat, more: bool) {
    && s.coms.Keys == s.ring.nodes.Keys && t in s.coms && s.coms[t].deferred == d && s.fetching == {}
    && (more ==> s.coms[t].thread == Accepting && s.coms[t].backlog == [])
  }

  /** A fetch from a winner that is ready, from the connection to the end of its turn. */
  lemma FetchTurn(failed: Endpoint, s: State, t: Endpoint, d: nat, m: Message)
    returns (turn: seq<Action>, s': State)
    requires Ready(s, t, d, true) && m in s.ring.notices && m.to in s.ring.nodes && m.value == t && m.to != t
    requires Ring.Next(failed, s.ring, DeliverNotice(m, true)).nodes.Keys == s.ring.nodes.Keys
    ensures Run(failed, s, turn) && After(failed, s, turn) == s'
    ensures s'.ring == Ring.Next(failed, s.ring, DeliverNotice(m, true)) && s'.fetching == {}
    ensures s'.coms.Keys == s.coms.Keys && s'.coms[t].deferred == d
    ensures d == 0 ==> s'.coms == s.coms
  {
    hide Ring.Next;
    var s1 := Next(failed, s, StartFetch(m));
    assert {} + {m} == {m} && [] + [Elected(m)] == [Elected(m)];
    assert s1 == State(s.ring, s.coms[t := Coms(Accepting, [Elected(m)], d)], {m});
    var s2 := Next(failed, s1, Accept(t));
    assert [Elected(m)][1..] == [];
    assert s2.coms == s.coms[t := Coms(Serving(Elected(m)), [], d)];
    assert s2 == State(s.ring, s.coms[t := Coms(Serving(Elected(m)), [], d)], {m});
    var s3 := Next(failed, s2, Serve(t));
    assert {m} - {m} == {};
    assert s3.coms == s.coms[t := Coms(Updating(d), [], d)];
    assert s3 == State(Ring.Next(failed, s.ring, DeliverNotice(m, true)), s.coms[t := Coms(Updating(d), [], d)], {});
    turn, s' := [], s3;
    assert Run(failed, s3, []) && After(failed, s3, []) == s3;
    if d == 0 {
      s' := Next(failed, s3, Update(t));
      assert s'.coms == s.coms;
      assert Run(failed, s', []) && After(failed, s', []) == s';
      RunFirst(failed, s3, Update(t), []);
      turn := [Update(t)] + [];
    }
    RunFirst(failed, s2, Serve(t), turn);
    turn := [Serve(t)] + turn;
    RunFirst(failed, s1, Accept(t), turn);
    turn := [Accept(t)] + turn;
    RunFirst(failed, s, StartFetch(m), turn);
    turn := [StartFetch(m)] + turn;
  }

  lemma BaseTurn(failed: Endpoint, s: State, r: Ring.Action)
    returns (turn: seq<Action>, s': State)
    requires s.fetching == {} && Ring.Enabled(s.ring, r) && Lossless(r)
    requires r.DeliverNotice? ==> r.m.to == r.m.value
    ensures Run(failed, s, turn) && After(failed, s, turn) == s'
    ensures s' == s.(ring := Ring.Next(failed, s.ring, r))
  {
    hide Ring.Next;
    s' := Next(failed, s, Base(r));
    assert Run(failed, s', []) && After(failed, s', []) == s';
    RunFirst(failed, s, Base(r), []);
    turn := [Base(r)] + [];
  }

  /** Does the winner's thread still have fetches to answer? */
  predicate MoreFetches(n: nat, stage: Stage) { Fetched(stage) < n - 1 }

  /** One more delivery, with the fetch it takes. */
  lemma OneDelivery(servers: seq<Server>, ring: seq<Server>, failed: Endpoint, i: nat, top: nat, stage: Stage,
          s: State, d: nat, r: Ring.Action)
    returns (turn: seq<Action>, next: Stage, s': State)
    requires Setting(servers, ring, failed, i, top) && Reached(|ring|, Dist(|ring|, i, top), stage)
    requires s.ring == WorldAt(servers, ring, failed, i, top, stage) && (d == 0 || |ring| <= 2)
    requires Ready(s, ring[top].at, d, MoreFetches(|ring|, stage))
    requires IsDelivery(r) && Lossless(r) && Ring.Enabled(s.ring, r)
    ensures Run(failed, s, turn) && After(failed, s, turn) == s'
    ensures Reached(|ring|, Dist(|ring|, i, top), next) && next != Voting(0)
    ensures 0 <= Left(|ring|, Dist(|ring|, i, top), next) < Left(|ring|, Dist(|ring|, i, top), stage)
    ensures s'.ring == WorldAt(servers, ring, failed, i, top, next)
    ensures Ready(s', ring[top].at, d, MoreFetches(|ring|, next))
  {
    hide Setting, WorldAt, Ring.Next, Left, Enabled, Next;
    DistinctRing(servers, ring, failed, i, top);
    next := DeliveryStage(servers, ring, failed, i, top, stage, r);
    NoticesAt(servers, ring, failed, i, top, stage);
    NoticesAt(servers, ring, failed, i, top, next);
    if r.DeliverNotice? && r.m.to != r.m.value {
      NoticeFacts(servers, ring, failed, i, top, stage, r.m);
      turn, s' := FetchTurn(failed, s, ring[top].at, d, r.m);
    } else {
      turn, s' := BaseTurn(failed, s, r);
    }
  }

  lemma {:induction false} RunConcat(failed: Endpoint, s: State, first: seq<Action>, more: seq<Action>)
    requires Run(failed, s, first) && Run(failed, After(failed, s, first), more)
    ensures Run(failed, s, first + more)
    ensures After(failed, s, first + more) == After(failed, After(failed, s, first), more)
    decreases |first|
  {
    hide Next, Enabled;
    if first == [] {
      assert first + more == more;
    } else {
      assert (first + more)[1..] == first[1..] + more;
      RunConcat(failed, Next(failed, s, first[0]), first[1..], more);
    }
  }

  /** Delivering and fetching until nothing is left. */
  lemma {:induction false} DeliverAll(servers: seq<Server>, ring: seq<Server>, failed: Endpoint, i: nat, top: nat,
          stage: Stage, s: State, d: nat)
    returns (more: seq<Action>)
    requires Setting(servers, ring, failed, i, top) && Reached(|ring|, Dist(|ring|, i, top), stage)
    requires s.ring == WorldAt(servers, ring, failed, i, top, stage) && (d == 0 || |ring| <= 2) && stage != Voting(0)
    requires Ready(s, ring[top].at, d, MoreFetches(|ring|, stage))
    ensures Run(failed, s, more) && Silent(After(failed, s, more).ring)
    ensures After(failed, s, more).ring.starts == [ring[i].at]
    decreases Left(|ring|, Dist(|ring|, i, top), stage)
  {
    hide Next, Enabled, Ready, Silent, MoreFetches, Left, Setting, Reached;
    DistinctRing(servers, ring, failed, i, top);
    if Silent(s.ring) {
      more := [];
      assert Run(failed, s, []) && After(failed, s, []) == s;
    } else {
      hide WorldAt;
      var r := CanDeliver(servers, ring, failed, i, top, stage);
      var turn, next, s' := OneDelivery(servers, ring, failed, i, top, stage, s, d, r);
      var rest := DeliverAll(servers, ring, failed, i, top, next, s', d);
      RunConcat(failed, s, turn, rest);
      more := turn + rest;
    }
  }

  /** A run to its end in which exactly `starter` starts an election, and no message is lost. */
  ghost predicate Finishes(failed: Endpoint, s: State, actions: seq<Action>, starter: Endpoint) {
    && Run(failed, s, actions) && After(failed, s, actions).ring.starts == [starter]
    && Silent(After(failed, s, actions).ring)
  }

  lemma FinishesOnlyIf(servers: seq<Server>, failed: Endpoint, s: State, actions: seq<Action>, starter: Endpoint,
          top: Endpoint)
    requires Agreed(servers, failed) && Ring.Start(servers, failed, s.ring) && Fresh(s)
    requires Lists(Backups(servers), starter) && RingSafety.IsHighest(Backups(servers), top)
    requires Finishes(failed, s, actions, starter)
    ensures top in s.coms && (|Backups(servers)| <= 2 || s.coms[top].deferred == 0)
  {
    hide Agreed, Ring.Start, Fresh, Run, After, Setting;
    var ring := Backups(servers);
    var i, t := IndexFrom(ring, starter, 0), IndexFrom(ring, top, 0);
    SettingOf(servers, failed, starter, top);
    StartIsOk(servers, failed, s, i, t);
    var last := RunIsOk(servers, ring, failed, i, t, Voting(0), s, s.coms[top].deferred, actions);
    SilentIsOver(servers, ring, failed, i, t, last);
  }

  /** How far the winner-to-be is from being ready. */
  function Unready(thread: Thread, fetching: set<Message>): nat {
    match thread
    case Accepting => if fetching == {} then 0 else 3
    case Serving(_) => 2
    case Updating(_) => if fetching == {} then 1 else 4
    case Waiting(_, _) => 0
  }

  /** A fetch under way means that more than one server is still to be told. */
  lemma FetchIsCounted(servers: seq<Server>, ring: seq<Server>, failed: Endpoint, i: nat, top: nat, stage: Stage,
          s: State, d: nat, m: Message)
    requires Setting(servers, ring, failed, i, top) && Ok(servers, ring, failed, i, top, stage, s, d)
    requires m in s.fetching
    ensures MoreFetches(|ring|, stage)
  {
    hide Setting, WorldAt, InLine, Counted;
    NoticeFacts(servers, ring, failed, i, top, stage, m);
  }

  /** What the thread does next, when it is not ready for the fetches to come. */
  lemma ReadyOrNext(servers: seq<Server>, ring: seq<Server>, failed: Endpoint, i: nat, top: nat, stage: Stage,
          s: State, d: nat)
    returns (a: Option<Action>, next: Stage)
    requires Setting(servers, ring, failed, i, top) && Ok(servers, ring, failed, i, top, stage, s, d)
    requires (d == 0 || |ring| <= 2) && stage != Voting(0)
    ensures a == None ==> Ready(s, ring[top].at, d, MoreFetches(|ring|, stage))
    ensures a.Some? ==>
      && Enabled(s, a.value) && Ok(servers, ring, failed, i, top, next, Next(failed, s, a.value), d)
      && next != Voting(0)
      && var t, s' := ring[top].at, Next(failed, s, a.value);
         Unready(s'.coms[t].thread, s'.fetching) < Unready(s.coms[t].thread, s.fetching)
  {
    hide Setting, WorldAt, Reached, Fetched, Ring.Next;
    DistinctRing(servers, ring, failed, i, top);
    var t := ring[top].at;
    a, next := None, stage;
    match s.coms[t].thread
    case Accepting =>
      if s.fetching != {} {
        a := Some(Accept(t));
        AcceptIsOk(servers, ring, failed, i, top, stage, s, d, t);
      }
    case Serving(_) =>
      a := Some(Serve(t));
      ServedNext(failed, s, t, d);
      next := ServeIsOk(servers, ring, failed, i, top, stage, s, d, t);
    case Updating(left) =>
      if d == 0 {
        a := Some(Update(t));
        UpdateIsOk(servers, ring, failed, i, top, stage, s, d, t);
      } else if m :| m in s.fetching {
        FetchIsCounted(servers, ring, failed, i, top, stage, s, d, m);
      }
    case Waiting(_, _) =>
      if m :| m in s.fetching {
        FetchIsCounted(servers, ring, failed, i, top, stage, s, d, m);
      }
  }

  lemma {:induction false} GetReady(servers: seq<Server>, ring: seq<Server>, failed: Endpoint, i: nat, top: nat,
          stage: Stage, s: State, d: nat)
    returns (turns: seq<Action>, next: Stage, s': State)
    requires Setting(servers, ring, failed, i, top) && Ok(servers, ring, failed, i, top, stage, s, d)
    requires (d == 0 || |ring| <= 2) && stage != Voting(0)
    ensures Run(failed, s, turns) && After(failed, s, turns) == s'
    ensures Ok(servers, ring, failed, i, top, next, s', d) && next != Voting(0)
    ensures Ready(s', ring[top].at, d, MoreFetches(|ring|, next))
    decreases Unready(s.coms[ring[top].at].thread, s.fetching)
  {
    hide Setting, WorldAt, Reached, Next, Enabled, Ready, InLine, MoreFetches;
    DistinctRing(servers, ring, failed, i, top);
    var a, later := ReadyOrNext(servers, ring, failed, i, top, stage, s, d);
    turns, next, s' := [], stage, s;
    if a == None {
      assert Run(failed, s, []) && After(failed, s, []) == s;
    } else {
      turns, next, s' := GetReady(servers, ring, failed, i, top, later, Next(failed, s, a.value), d);
      RunFirst(failed, s, a.value, turns);
      turns := [a.value] + turns;
    }
  }

  /** In the clusters in which a failover can be finished, no run with one starter gets stuck: wherever it stands,
      it can be carried on to the end. */
  lemma NoRunGetsStuck(servers: seq<Server>, failed: Endpoint, s: State, actions: seq<Action>, starter: Endpoint,
          top: Endpoint)
    returns (more: seq<Action>)
    requires Agreed(servers, failed) && Ring.Start(servers, failed, s.ring) && Fresh(s)
    requires Lists(Backups(servers), starter) && RingSafety.IsHighest(Backups(servers), top) && top in s.coms
    requires |Backups(servers)| <= 2 || s.coms[top].deferred == 0
    requires Run(failed, s, actions) && After(failed, s, actions).ring.starts == [starter]
    ensures Finishes(failed, s, actions + more, starter)
  {
    hide Agreed, Ring.Start, Fresh, Run, After, Setting, Ready, Next, Enabled, Reached;
    var ring := Backups(servers);
    var i, t := IndexFrom(ring, starter, 0), IndexFrom(ring, top, 0);
    SettingOf(servers, failed, starter, top);
    StartIsOk(servers, failed, s, i, t);
    var d := s.coms[top].deferred;
    var stage := RunIsOk(servers, ring, failed, i, t, Voting(0), s, d, actions);
    StartedStage(servers, ring, failed, i, t, stage);
    var turns, next, s' := GetReady(servers, ring, failed, i, t, stage, After(failed, s, actions), d);
    var rest := DeliverAll(servers, ring, failed, i, t, next, s', d);
    RunConcat(failed, After(failed, s, actions), turns, rest);
    RunConcat(failed, s, actions, turns + rest);
    more := turns + rest;
  }

  lemma StartedStage(servers: seq<Server>, ring: seq<Server>, failed: Endpoint, i: nat, top: nat, stage: Stage)
    requires i < |ring| && top < |ring| && WorldAt(servers, ring, failed, i, top, stage).starts != []
    ensures stage != Voting(0)
  {
  }

  lemma FinishingRun(servers: seq<Server>, failed: Endpoint, s: State, starter: Endpoint, top: Endpoint)
    returns (actions: seq<Action>)
    requires Agreed(servers, failed) && Ring.Start(servers, failed, s.ring) && Fresh(s)
    requires Lists(Backups(servers), starter) && RingSafety.IsHighest(Backups(servers), top) && top in s.coms
    requires |Backups(servers)| <= 2 || s.coms[top].deferred == 0
    ensures Finishes(failed, s, actions, starter)
  {
    hide Agreed, Ring.Start, Ring.Next, RingSafety.IsHighest;
    FirstSuspicionStarts(servers, failed, s.ring, starter);
    assert [Suspect(starter)][1..] == [];
    var turn, s' := BaseTurn(failed, s, Suspect(starter));
    assert s'.ring == Ring.After(failed, s.ring, [Suspect(starter)]);
    var more := NoRunGetsStuck(servers, failed, s, turn, starter, top);
    actions := turn + more;
  }

  /** Exactly when a failover can be finished, its one thread per server considered: with at most two
      survivors, or if the greatest has no deferred request. In any other case the winner answers one
      fetch only, whatever the interleaving, and everybody else waits. */
  lemma FinishesIff(servers: seq<Server>, failed: Endpoint, s: State, starter: Endpoint, top: Endpoint)
    requires Agreed(servers, failed) && Ring.Start(servers, failed, s.ring) && Fresh(s)
    requires Lists(Backups(servers), starter) && RingSafety.IsHighest(Backups(servers), top)
    ensures top in s.coms
    ensures (exists actions :: Finishes(failed, s, actions, starter))
       <==> |Backups(servers)| <= 2 || s.coms[top].deferred == 0
  {
    hide Agreed, Finishes;
    MembersAreListed(Backups(servers), top);
    if actions :| Finishes(failed, s, actions, starter) {
      FinishesOnlyIf(servers, failed, s, actions, starter, top);
    }
    if |Backups(servers)| <= 2 || s.coms[top].deferred == 0 {
      var actions := FinishingRun(servers, failed, s, starter, top);
    }
  }
}
