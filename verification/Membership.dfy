/** Joining under a fixed primary, as a state machine over all servers: booting, asking for the
    primary, registering, announcing the registration, fetching the list, and the deferred updates
    that are carried out again and again. */
module Membership {
  import opened Basics
  import opened Servers
  import opened Wire
  import Coms
  import Ring
  import ElectionServer

  /** How far a server has come in its join sequence. */
  datatype Phase = Starting | Told(primary: Endpoint) | Registered | Joined | Gone

  datatype Member = Member(phase: Phase, list: seq<Server>, deferred: nat)

  /** The primary's thread for other servers handles one connection until it is closed: `serving` is
      the server at its other end, and `toNotify` are those still to be told of its registration. */
  datatype Cluster = Cluster(
    primary: Endpoint,
    nodes: map<Endpoint, Member>,
    serving: Option<Endpoint>,
    toNotify: seq<Endpoint>,
    owed: set<Endpoint>,          // told of a registration since it last fetched the list
    missed: set<Endpoint>)        // left untold when a connection broke, and not up to date since

  datatype Action =
    | Boot(e: Endpoint)
    | Ask(e: Endpoint, via: Endpoint)
    | Register(e: Endpoint)
    | Notify
    | Fetch(e: Endpoint)
    | Refetch(e: Endpoint)
    | Crash(e: Endpoint)          // the server exits, or its connection to the primary breaks

  predicate Alive(c: Cluster, e: Endpoint) { e in c.nodes && c.nodes[e].phase != Gone }

  predicate Enabled(c: Cluster, a: Action) {
    match a
    case Boot(e) => !Alive(c, e)
    case Ask(e, via) => Alive(c, e) && c.nodes[e].phase == Starting && Alive(c, via)
    case Register(e) =>
      Alive(c, e) && c.nodes[e].phase == Told(c.primary) && c.serving == None && c.primary in c.nodes
    case Notify => c.toNotify != [] && Alive(c, c.toNotify[0])
    case Fetch(e) => c.serving == Some(e) && c.toNotify == [] && e in c.nodes && c.primary in c.nodes
    case Refetch(e) =>
      && Alive(c, e) && e != c.primary && c.nodes[e].deferred > 0
      && c.serving == None && c.primary in c.nodes
    case Crash(e) => Alive(c, e) && e != c.primary
  }

  /** The server a member takes for the primary: the first one marked so in its list. */
  function PrimaryOf(list: seq<Server>): Option<Endpoint> {
    var k := PrimaryFrom(list, 0);
    if k < |list| then Some(list[k].at) else None
  }

  /** A server has just fetched the primary's list. */
  function UpToDate(c: Cluster, e: Endpoint, m: Member): Cluster
    requires c.primary in c.nodes
  {
    c.(nodes := c.nodes[e := m.(list := Transfer(c.nodes[c.primary].list))],
       owed := c.owed - {e}, missed := c.missed - {e})
  }

  function Gone1(c: Cluster, e: Endpoint): Cluster
    requires e in c.nodes
  {
    var gone := c.(nodes := c.nodes[e := c.nodes[e].(phase := Gone)]);
    if c.serving == Some(e) then
      gone.(serving := None, toNotify := [], missed := c.missed + set t | t in c.toNotify)
    else gone
  }

  function Next(c: Cluster, a: Action): Cluster
    requires Enabled(c, a)
  {
    match a
    case Boot(e) =>
      c.(nodes := c.nodes[e := Member(Starting, [Server(e, Backup)], 0)],
         owed := c.owed - {e}, missed := c.missed - {e})
    case Ask(e, via) =>
      var told := PrimaryOf(c.nodes[via].list);
      if told.Some? then c.(nodes := c.nodes[e := c.nodes[e].(phase := Told(told.value))])
      else Gone1(if e == via then c else Gone1(c, e), via)
    case Register(e) =>
      var p := c.nodes[c.primary];
      var grown := p.list + [Server(e, Backup)];
      c.(nodes := c.nodes[c.primary := p.(list := grown)][e := c.nodes[e].(phase := Registered)],
         serving := Some(e), toNotify := Coms.Others(grown, e))
    case Notify =>
      var t := c.toNotify[0];
      c.(nodes := c.nodes[t := c.nodes[t].(deferred := c.nodes[t].deferred + 1)], toNotify := c.toNotify[1..],
         owed := c.owed + {t})
    case Fetch(e) => UpToDate(c, e, c.nodes[e].(phase := Joined)).(serving := None)
    case Refetch(e) =>
      if PrimaryOf(c.nodes[e].list) == Some(c.primary) then UpToDate(c, e, c.nodes[e]) else Gone1(c, e)
    case Crash(e) => Gone1(c, e)
  }

  predicate Run(c: Cluster, actions: seq<Action>)
    decreases |actions|
  {
    actions == [] || (Enabled(c, actions[0]) && Run(Next(c, actions[0]), actions[1..]))
  }

  function After(c: Cluster, actions: seq<Action>): Cluster
    requires Run(c, actions)
    decreases |actions|
  {
    if actions == [] then c else After(Next(c, actions[0]), actions[1..])
  }

  function Init(primary: Endpoint): Cluster {
    Cluster(primary, map[primary := Member(Joined, [Server(primary, Primary)], 0)], None, [], {}, {})
  }

  // ------------------------------------------------------------------ the steps as requests

  /** Telling a server of a registration is a request on a connection to it: what it makes of the request is what
      the step does to it, one more deferred update and the same list. */
  lemma NotifyIsARequest(c: Cluster, peer: Endpoint, rest: Bytes)
    requires Enabled(c, Notify) && |c.nodes[c.toNotify[0]].list| < U64_LIMIT
    ensures var m, m' := c.nodes[c.toNotify[0]], Next(c, Notify).nodes[c.toNotify[0]];
      Coms.Handle(m.list, peer, m.deferred, Coms.EncodeRequest(Coms.UpdateMetadata) + rest)
      == Coms.Served(m'.list, peer, m'.deferred, [0, 0], [])
  {
    hide Coms.ParseRequest, Coms.EncodeRequest;
    Coms.RequestRoundTrip(Coms.UpdateMetadata, rest);
    LowBytes(0);
  }

  /** A registration is a request to the primary: the list grows and the others are told as the step says. */
  lemma RegisterIsARequest(c: Cluster, e: Endpoint, from: u16, rest: Bytes)
    requires Enabled(c, Register(e)) && e != c.primary && |c.nodes[c.primary].list| < U64_LIMIT
    ensures var p, p' := c.nodes[c.primary], Next(c, Register(e)).nodes[c.primary];
      Coms.Handle(p.list, Endpoint(e.ip, from), p.deferred, Coms.EncodeRequest(Coms.Register(e.port)) + rest)
      == Coms.Served(p'.list, e, p'.deferred, [0, 0], Next(c, Register(e)).toNotify)
  {
    hide Coms.ParseRequest, Coms.EncodeRequest, Coms.Others;
    Coms.RequestRoundTrip(Coms.Register(e.port), rest);
    LowBytes(0);
  }

  /** A fetch is a request to the primary, which changes nothing there; what its reply decodes to is the list
      the step gives to the server that fetches. */
  lemma FetchIsARequest(c: Cluster, e: Endpoint, peer: Endpoint, rest: Bytes)
    requires Enabled(c, Fetch(e)) && e != c.primary && |c.nodes[c.primary].list| < U64_LIMIT
    ensures var p := c.nodes[c.primary];
      var out := Coms.Handle(p.list, peer, p.deferred, Coms.EncodeRequest(Coms.FetchMetadata) + rest);
      && out == Coms.Served(p.list, peer, p.deferred, out.reply, [])
      && Next(c, Fetch(e)).nodes[c.primary] == p
      && Coms.ParseMetadata(out.reply) == Got((0, Next(c, Fetch(e)).nodes[e].list), [])
  {
    hide Coms.ParseRequest, Coms.EncodeRequest, Coms.ParseMetadata, Coms.EncodeMetadata, Transfer;
    Coms.RequestRoundTrip(Coms.FetchMetadata, rest);
    var list := c.nodes[c.primary].list;
    Coms.MetadataRoundTrip(list, []);
    assert Coms.EncodeMetadata(list) + [] == Coms.EncodeMetadata(list);
  }

  /** Asking for the primary is a request: the server asked crashes exactly when the step ends it, and else what
      its reply decodes to is what the step tells the server that asks. */
  lemma AskIsARequest(c: Cluster, e: Endpoint, via: Endpoint, peer: Endpoint, rest: Bytes)
    requires Enabled(c, Ask(e, via)) && |c.nodes[via].list| < U64_LIMIT
    ensures var m, d := c.nodes[via], Next(c, Ask(e, via));
      var out := Coms.Handle(m.list, peer, m.deferred, Coms.EncodeRequest(Coms.GetPrimary) + rest);
      && (out.Crashed? <==> d.nodes[via].phase == Gone)
      && (!out.Crashed? ==>
        && d.nodes[e].phase.Told? && out == Coms.Served(m.list, peer, m.deferred, out.reply, [])
        && Coms.ParsePrimary(out.reply) == Got(d.nodes[e].phase.primary, []))
  {
    hide Coms.ParseRequest, Coms.EncodeRequest, Low;
    Coms.RequestRoundTrip(Coms.GetPrimary, rest);
    var k := PrimaryFrom(c.nodes[via].list, 0);
    if k < |c.nodes[via].list| {
      var at := c.nodes[via].list[k].at;
      ValueRoundTrip(2, 0, Coms.EncodeEndpoint(at));
      Coms.EndpointRoundTrip(at, []);
      assert Coms.EncodeEndpoint(at) + [] == Coms.EncodeEndpoint(at);
    }
  }

  // ------------------------------------------------------------------ what every step keeps

  /** The primary comes first in its list, and is the only primary in it. */
  ghost predicate Headed(list: seq<Server>, p: Endpoint) {
    && |list| > 0 && list[0] == Server(p, Primary)
    && forall k :: 0 < k < |list| ==> list[k].kind == Backup && list[k].at != p
  }

  /** What holds of a server other than the primary. */
  ghost predicate MemberOk(c: Cluster, list: seq<Server>, e: Endpoint, m: Member) {
    match m.phase
    case Starting => m.list == [Server(e, Backup)]
    case Told(p) => m.list == [Server(e, Backup)] && p == c.primary
    case Registered => m.list == [Server(e, Backup)] && c.serving == Some(e)
    case Joined =>
      && 0 < |m.list| && m.list <= list && Server(e, Backup) in m.list
      && (m.list == list || e in c.owed || e in c.toNotify || e in c.missed)
      && (e in c.owed ==> m.deferred > 0)
    case Gone => true
  }

  ghost predicate ServingOk(c: Cluster, e: Endpoint)
    requires c.primary in c.nodes
  {
    && e in c.nodes && e != c.primary && c.nodes[e].phase == Registered
    && Server(e, Backup) in c.nodes[c.primary].list
  }

  ghost predicate Good(c: Cluster) {
    && c.primary in c.nodes && c.nodes[c.primary].phase == Joined
    && Headed(c.nodes[c.primary].list, c.primary)
    && (forall e :: e in c.nodes && e != c.primary ==> MemberOk(c, c.nodes[c.primary].list, e, c.nodes[e]))
    && (c.serving == None ==> c.toNotify == [])
    && (c.serving.Some? ==> ServingOk(c, c.serving.value))
  }

  lemma HeadedFacts(list: seq<Server>, p: Endpoint)
    requires Headed(list, p)
    ensures PrimaryOf(list) == Some(p) && Transfer(list) == list
    ensures forall s :: s in list && s.kind == Primary ==> s.at == p
  {
    TransferIsIdentityIff(list);
  }

  lemma PrefixHeaded(list: seq<Server>, prefix: seq<Server>, p: Endpoint)
    requires Headed(list, p) && 0 < |prefix| && prefix <= list
    ensures Headed(prefix, p)
  {
    assert forall k :: 0 <= k < |prefix| ==> prefix[k] == list[k];
  }

  lemma GoneIsGood(c: Cluster, e: Endpoint)
    requires Good(c) && Alive(c, e) && e != c.primary
    ensures Good(Gone1(c, e))
  {
  }

  lemma RegisterIsGood(c: Cluster, e: Endpoint)
    requires Good(c) && Enabled(c, Register(e))
    ensures Good(Next(c, Register(e)))
  {
    var list := c.nodes[c.primary].list;
    var grown := list + [Server(e, Backup)];
    var d := Next(c, Register(e));
    assert e != c.primary;
    Coms.OthersIff(grown, e);
    forall b | b in d.nodes && b != c.primary && b != e ensures MemberOk(d, grown, b, d.nodes[b]) {
      assert MemberOk(c, list, b, c.nodes[b]);
      if c.nodes[b].phase == Joined {
        assert list <= grown;
        assert Server(b, Backup) in list;
        assert b in Coms.Others(grown, e);
      }
    }
  }

  lemma UpdateIsGood(c: Cluster, a: Action)
    requires Good(c) && Enabled(c, a) && (a.Fetch? || a.Refetch?)
    ensures Good(Next(c, a))
  {
    var list := c.nodes[c.primary].list;
    HeadedFacts(list, c.primary);
    var m := c.nodes[a.e];
    assert a.e != c.primary && MemberOk(c, list, a.e, m);
    if a.Refetch? && PrimaryOf(m.list) == Some(c.primary) {
      assert m.phase == Joined;
      var k: nat :| k < |m.list| && m.list[k] == Server(a.e, Backup);
      assert list[k] == m.list[k];
    } else if a.Refetch? {
      GoneIsGood(c, a.e);
    }
  }

  /** A joining server that asks anyone with a primary in its list is told the real one; asking any
      other server makes it exit, and the asking server with it. */
  lemma AskIsGood(c: Cluster, e: Endpoint, via: Endpoint)
    requires Good(c) && Enabled(c, Ask(e, via))
    ensures Good(Next(c, Ask(e, via)))
  {
    var list, told := c.nodes[c.primary].list, PrimaryOf(c.nodes[via].list);
    HeadedFacts(list, c.primary);
    assert e != c.primary && MemberOk(c, list, e, c.nodes[e]);
    if via == c.primary {
    } else if c.nodes[via].phase == Joined {
      PrefixHeaded(list, c.nodes[via].list, c.primary);
      HeadedFacts(c.nodes[via].list, c.primary);
    } else {
      assert c.nodes[via].list == [Server(via, Backup)];
      assert PrimaryFrom([Server(via, Backup)], 1) == 1;
      assert told == None;
      if e == via {
        GoneIsGood(c, via);
      } else {
        GoneIsGood(c, e);
        GoneIsGood(Gone1(c, e), via);
      }
    }
  }

  lemma StepIsGood(c: Cluster, a: Action)
    requires Good(c) && Enabled(c, a)
    ensures Good(Next(c, a))
  {
    match a
    case Boot(e) =>
    case Ask(e, via) => AskIsGood(c, e, via);
    case Register(e) => RegisterIsGood(c, e);
    case Notify =>
    case Fetch(e) => UpdateIsGood(c, a);
    case Refetch(e) => UpdateIsGood(c, a);
    case Crash(e) => GoneIsGood(c, e);
  }

  // ------------------------------------------------------------------ every run

  function PrimaryList(c: Cluster): seq<Server>
    requires c.primary in c.nodes
  {
    c.nodes[c.primary].list
  }

  lemma StepGrowsAtEnd(c: Cluster, a: Action)
    requires Good(c) && Enabled(c, a)
    ensures Good(Next(c, a)) && Next(c, a).primary == c.primary
    ensures PrimaryList(c) <= PrimaryList(Next(c, a))
    ensures a.Register? ==> PrimaryList(Next(c, a)) == PrimaryList(c) + [Server(a.e, Backup)]
    ensures !a.Register? ==> PrimaryList(Next(c, a)) == PrimaryList(c)
  {
    StepIsGood(c, a);
    if a.Ask? {
      HeadedFacts(PrimaryList(c), c.primary);
    }
  }

  /** The primary's list only ever grows at its end. */
  lemma {:induction false} ListGrowsAtEnd(c: Cluster, actions: seq<Action>)
    requires Good(c) && Run(c, actions)
    ensures Good(After(c, actions)) && After(c, actions).primary == c.primary
    ensures PrimaryList(c) <= PrimaryList(After(c, actions))
    decreases |actions|
  {
    if actions != [] {
      StepGrowsAtEnd(c, actions[0]);
      ListGrowsAtEnd(Next(c, actions[0]), actions[1..]);
    }
  }

  /** Membership views: after any interleaving of boots, joins, announcements, broken connections and
      repeated deferred updates, every joined server holds a prefix of the primary's list, led by the
      primary and containing itself. It lacks later entries only if it was told of a registration since it
      last fetched the list, and then has a deferred request to fetch it; or is about to be told of one;
      or the connection on which it was to be told broke and it was not up to date since. */
  lemma ViewsArePrefixes(primary: Endpoint, actions: seq<Action>, e: Endpoint)
    requires Run(Init(primary), actions)
    requires var c := After(Init(primary), actions); e in c.nodes && e != primary && c.nodes[e].phase == Joined
    ensures var c := After(Init(primary), actions);
      && c.primary == primary && primary in c.nodes
      && var m := c.nodes[e];
      && Headed(PrimaryList(c), primary) && Headed(m.list, primary)
      && m.list <= PrimaryList(c) && Server(e, Backup) in m.list
      && (m.list == PrimaryList(c) || e in c.owed || e in c.toNotify || e in c.missed)
      && (e in c.owed ==> m.deferred > 0)
  {
    assert Good(Init(primary));
    ListGrowsAtEnd(Init(primary), actions);
    var c := After(Init(primary), actions);
    assert MemberOk(c, PrimaryList(c), e, c.nodes[e]);
    PrefixHeaded(PrimaryList(c), c.nodes[e].list, primary);
  }

  /** Whoever a joining server asks, it never comes to believe in another primary. */
  lemma JoinersLearnThePrimary(primary: Endpoint, actions: seq<Action>, e: Endpoint)
    requires Run(Init(primary), actions)
    requires e in After(Init(primary), actions).nodes && After(Init(primary), actions).nodes[e].phase.Told?
    ensures After(Init(primary), actions).nodes[e].phase == Told(primary)
  {
    assert Good(Init(primary));
    ListGrowsAtEnd(Init(primary), actions);
    var c := After(Init(primary), actions);
    assert MemberOk(c, PrimaryList(c), e, c.nodes[e]);
  }

  // ------------------------------------------------------------------ catching up

  function Refetches(es: seq<Endpoint>): (actions: seq<Action>)
    ensures |actions| == |es|
  {
    if es == [] then [] else [Refetch(es[0])] + Refetches(es[1..])
  }

  function Those(es: seq<Endpoint>): set<Endpoint> { set e | e in es }

  lemma RefetchCatchesUp(c: Cluster, e: Endpoint)
    requires Good(c) && e in c.nodes && e != c.primary && c.nodes[e].phase == Joined
    requires c.serving == None && c.nodes[e].deferred > 0
    ensures Enabled(c, Refetch(e))
    ensures Next(c, Refetch(e)) ==
      c.(nodes := c.nodes[e := c.nodes[e].(list := PrimaryList(c))], owed := c.owed - {e}, missed := c.missed - {e})
    ensures Good(Next(c, Refetch(e)))
  {
    assert MemberOk(c, PrimaryList(c), e, c.nodes[e]);
    PrefixHeaded(PrimaryList(c), c.nodes[e].list, c.primary);
    HeadedFacts(PrimaryList(c), c.primary);
    HeadedFacts(c.nodes[e].list, c.primary);
    StepIsGood(c, Refetch(e));
  }

  /** When the primary serves nobody, one more round of the deferred updates, in any order, brings
      every server that was told of a registration up to date and changes nothing else. */
  lemma {:induction false} DeferredUpdatesCatchUp(c: Cluster, es: seq<Endpoint>)
    requires Good(c) && c.serving == None
    requires forall e :: e in es ==>
      e in c.nodes && e != c.primary && c.nodes[e].phase == Joined && c.nodes[e].deferred > 0
    ensures Run(c, Refetches(es))
    ensures var d := After(c, Refetches(es));
      && Good(d) && d.nodes.Keys == c.nodes.Keys && d == c.(nodes := d.nodes, owed := d.owed, missed := d.missed)
      && d.owed == c.owed - Those(es) && d.missed == c.missed - Those(es)
      && forall e :: e in c.nodes ==>
        d.nodes[e] == if e in es then c.nodes[e].(list := PrimaryList(c)) else c.nodes[e]
    decreases |es|
  {
    hide Good, Next, Enabled;
    if es != [] {
      RefetchCatchesUp(c, es[0]);
      var next := Next(c, Refetch(es[0]));
      assert forall e :: e in es[1..] ==> e in es;
      DeferredUpdatesCatchUp(next, es[1..]);
      assert Refetches(es)[1..] == Refetches(es[1..]);
      assert forall e :: e in es <==> e == es[0] || e in es[1..];
      assert Those(es) == {es[0]} + Those(es[1..]);
    }
  }

  /** After one such round over the servers that are owed an update, exactly those whose connection broke
      can still be behind. */
  lemma OnlyMissedStayBehind(c: Cluster, es: seq<Endpoint>, e: Endpoint)
    requires Good(c) && c.serving == None
    requires forall x :: x in es <==> x in c.owed && x in c.nodes && x != c.primary && c.nodes[x].phase == Joined
    requires e in c.nodes && e != c.primary && c.nodes[e].phase == Joined
    ensures Run(c, Refetches(es))
    ensures var d := After(c, Refetches(es));
      e in d.nodes && d.primary in d.nodes && (d.nodes[e].list == PrimaryList(d) || e in d.missed)
  {
    forall x | x in es ensures c.nodes[x].deferred > 0 {
      assert MemberOk(c, PrimaryList(c), x, c.nodes[x]);
    }
    DeferredUpdatesCatchUp(c, es);
    assert MemberOk(c, PrimaryList(c), e, c.nodes[e]);
  }

  // ------------------------------------------------------------------ from membership to election

  /** No endpoint boots a second time. */
  predicate FreshBoots(c: Cluster, actions: seq<Action>)
    requires Run(c, actions)
    decreases |actions|
  {
    actions == [] ||
    ((actions[0].Boot? ==> actions[0].e !in c.nodes) && FreshBoots(Next(c, actions[0]), actions[1..]))
  }

  /** Only servers that registered are listed, each once. */
  ghost predicate ListedOnce(c: Cluster) {
    && Good(c) && Distinct(PrimaryList(c))
    && forall s :: s in PrimaryList(c) ==>
      s.at in c.nodes && !c.nodes[s.at].phase.Starting? && !c.nodes[s.at].phase.Told?
  }

  lemma DistinctAppend(list: seq<Server>, s: Server)
    requires Distinct(list)
    ensures Distinct(list + [s]) <==> !Lists(list, s.at)
  {
    var all := list + [s];
    DistinctIff(list);
    DistinctIff(all);
    ListsIff(list, s.at);
    if Lists(list, s.at) {
      var k :| 0 <= k < |list| && list[k].at == s.at;
      assert all[k].at == all[|list|].at;
    } else {
      forall i, j | 0 <= i < j < |all| ensures all[i].at != all[j].at {
        assert all[i] == list[i];
        if j < |list| {
          assert all[j] == list[j];
        }
      }
    }
  }

  lemma StepListsOnce(c: Cluster, a: Action)
    requires ListedOnce(c) && Enabled(c, a) && (a.Boot? ==> a.e !in c.nodes)
    ensures ListedOnce(Next(c, a))
  {
    StepGrowsAtEnd(c, a);
    if a.Register? {
      RegisterListsOnce(c, a.e);
    } else {
      forall s | s in PrimaryList(c)
        ensures s.at in Next(c, a).nodes
        ensures !Next(c, a).nodes[s.at].phase.Starting? && !Next(c, a).nodes[s.at].phase.Told?
      {
        KeepsItsPhase(c, a, s.at);
      }
    }
  }

  lemma RegisterListsOnce(c: Cluster, e: Endpoint)
    requires ListedOnce(c) && Enabled(c, Register(e))
    ensures ListedOnce(Next(c, Register(e)))
  {
    hide Distinct;
    StepGrowsAtEnd(c, Register(e));
    var list := PrimaryList(c);
    DistinctAppend(list, Server(e, Backup));
    ListsIff(list, e);
  }

  /** Past its registration, a server never goes back, unless it boots again. */
  lemma KeepsItsPhase(c: Cluster, a: Action, e: Endpoint)
    requires Enabled(c, a) && !(a.Boot? && a.e == e)
    requires e in c.nodes && !c.nodes[e].phase.Starting? && !c.nodes[e].phase.Told?
    ensures e in Next(c, a).nodes && !Next(c, a).nodes[e].phase.Starting? && !Next(c, a).nodes[e].phase.Told?
  {
  }

  lemma {:induction false} RunListsOnce(c: Cluster, actions: seq<Action>)
    requires ListedOnce(c) && Run(c, actions) && FreshBoots(c, actions)
    ensures ListedOnce(After(c, actions)) && After(c, actions).primary == c.primary
    decreases |actions|
  {
    if actions != [] {
      StepListsOnce(c, actions[0]);
      StepGrowsAtEnd(c, actions[0]);
      RunListsOnce(Next(c, actions[0]), actions[1..]);
    }
  }

  /** Everybody is joined and up to date, but for servers that exited before they were listed. */
  predicate Settled(c: Cluster)
    requires c.primary in c.nodes
  {
    forall e :: e in c.nodes ==>
      if c.nodes[e].phase == Gone then !Lists(PrimaryList(c), e)
      else c.nodes[e].phase == Joined && c.nodes[e].list == PrimaryList(c)
  }

  /** The survivors, when the primary of a settled cluster is gone. */
  function Survivors(c: Cluster): Ring.World {
    var left := map e | e in c.nodes && c.nodes[e].phase != Gone && e != c.primary ::
      ElectionServer.Node(Server(e, Backup), c.nodes[e].list);
    Ring.World(left, multiset{}, multiset{}, c.primary, [], [], 0, 0)
  }

  /** What the election starts from: once a cluster in which no endpoint booted twice has settled, all
      views agree on a list with distinct endpoints and one primary, and the ring of that list
      consists of exactly the other servers. */
  lemma SettledClusterIsElectionReady(primary: Endpoint, actions: seq<Action>)
    requires Run(Init(primary), actions) && FreshBoots(Init(primary), actions)
    requires var c := After(Init(primary), actions); primary in c.nodes && c.primary == primary && Settled(c)
    ensures var c := After(Init(primary), actions);
      && Ring.Agreed(PrimaryList(c), primary)
      && Ring.Start(PrimaryList(c), primary, Survivors(c))
  {
    hide Run, After, FreshBoots, Distinct;
    DistinctIff([Server(primary, Primary)]);
    RunListsOnce(Init(primary), actions);
    var c := After(Init(primary), actions);
    var list := PrimaryList(c);
    HeadedFacts(list, primary);
    BackupsMembers(list);
    forall e ensures e in Survivors(c).nodes <==> e in Members(Backups(list)) {
      MembersAreListed(Backups(list), e);
      ListsIff(Backups(list), e);
      ListsIff(list, e);
      if e in Survivors(c).nodes {
        assert MemberOk(c, list, e, c.nodes[e]);
        assert Server(e, Backup) in Backups(list);
      }
      if Lists(Backups(list), e) {
        assert Backups(list)[IndexFrom(Backups(list), e, 0)] in list;
      }
    }
  }
}
