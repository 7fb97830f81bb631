/** Lossless runs in which one survivor starts the election: where every token is, what every
    server holds, how many messages are sent and what the run ends with. */
module Failover {
  import opened Basics
  import opened Servers
  import opened ElectionServer
  import opened Ring
  import opened RingSafety
  import TokenCount

  /** The position reached from `i` after `h` hops round a ring of `n`. */
  function Hop(n: nat, i: nat, h: nat): (k: nat)
    requires i < n
    ensures k < n
  {
    if h == 0 then i else Succ(n, Hop(n, i, h - 1))
  }

  /** Ring distance from position `i` to position `k`. */
  function Dist(n: nat, i: nat, k: nat): nat
    requires i < n
  {
    if k >= i then k - i else k + n - i
  }

  lemma {:induction false} DistOfHop(n: nat, i: nat, h: nat)
    requires i < n && h < 2 * n
    ensures Dist(n, i, Hop(n, i, h)) == if h < n then h else h - n
  {
    if h > 0 {
      DistOfHop(n, i, h - 1);
    }
  }

  /** Who owns the token after `h` sends: the greatest server it has visited. */
  function Lead(ring: seq<Server>, i: nat, h: nat): (k: nat)
    requires i < |ring| && h >= 1
    ensures k < |ring|
  {
    if h == 1 then i
    else
      var k, best := Hop(|ring|, i, h - 1), Lead(ring, i, h - 1);
      if Greater(ring[k].at, ring[best].at) then k else best
  }

  ghost predicate Setting(servers: seq<Server>, ring: seq<Server>, failed: Endpoint, i: nat, top: nat) {
    && RingOf(servers, failed, ring) && !Lists(ring, failed) && i < |ring| && top < |ring|
    && (forall k :: 0 <= k < |ring| ==> ring[k].kind == Backup)
    && IsHighest(ring, ring[top].at)
  }

  lemma {:induction false} LeadFacts(ring: seq<Server>, i: nat, top: nat, h: nat)
    requires Distinct(ring) && i < |ring| && top < |ring| && IsHighest(ring, ring[top].at)
    requires 1 <= h < 2 * |ring|
    ensures Dist(|ring|, i, Lead(ring, i, h)) < h
    ensures h > Dist(|ring|, i, top) ==> Lead(ring, i, h) == top
  {
    if h > 1 {
      LeadFacts(ring, i, top, h - 1);
      DistOfHop(|ring|, i, h - 1);
      var k, best := Hop(|ring|, i, h - 1), Lead(ring, i, h - 1);
      if h - 1 == Dist(|ring|, i, top) {
        assert k == top && best != top;
        GreaterIsStrictTotalOrder(ring[top].at, ring[best].at, ring[top].at);
      }
    }
  }

  /** The token's owner is not its next target until the winning delivery. */
  lemma TokenComesHome(ring: seq<Server>, i: nat, top: nat, h: nat)
    requires Distinct(ring) && i < |ring| && top < |ring| && IsHighest(ring, ring[top].at)
    requires 1 <= h <= |ring| + Dist(|ring|, i, top)
    ensures Hop(|ring|, i, h) == Lead(ring, i, h) <==> h == |ring| + Dist(|ring|, i, top)
    ensures Hop(|ring|, i, h) == Lead(ring, i, h) ==> Lead(ring, i, h) == top
  {
    LeadFacts(ring, i, top, h);
    DistOfHop(|ring|, i, h);
  }

  /** What server `e` holds once `h` election messages have been sent. */
  function HeldElecting(servers: seq<Server>, ring: seq<Server>, i: nat, h: nat, e: Endpoint): Node
    requires i < |ring|
  {
    Node(Server(e, Backup), if Dist(|ring|, i, IndexFrom(ring, e, 0)) < h then ring else servers)
  }

  /** What server `e` holds once `sent` elected messages have been sent. */
  function HeldInforming(ring: seq<Server>, top: nat, sent: nat, e: Endpoint): Node
    requires top < |ring|
  {
    Node(Server(e, if e == ring[top].at then Primary else Backup),
         if Dist(|ring|, top, IndexFrom(ring, e, 0)) < sent then ring[top := Server(ring[top].at, Primary)] else ring)
  }

  function ElectingNodes(servers: seq<Server>, ring: seq<Server>, i: nat, h: nat): map<Endpoint, Node>
    requires i < |ring|
  {
    map e | e in Members(ring) :: HeldElecting(servers, ring, i, h, e)
  }

  function InformingNodes(ring: seq<Server>, top: nat, sent: nat): map<Endpoint, Node>
    requires top < |ring|
  {
    map e | e in Members(ring) :: HeldInforming(ring, top, sent, e)
  }

  /** The whole world once `h` election messages have been sent and nobody is elected. */
  function ElectingWorld(servers: seq<Server>, ring: seq<Server>, failed: Endpoint, i: nat, h: nat): World
    requires i < |ring|
  {
    var nodes := ElectingNodes(servers, ring, i, h);
    if h == 0 then World(nodes, multiset{}, multiset{}, failed, [], [], 0, 0)
    else
      var token := Message(ring[Hop(|ring|, i, h)].at, ring[Lead(ring, i, h)].at);
      World(nodes, multiset{token}, multiset{}, failed, [ring[i].at], [], h, 0)
  }

  /** The whole world once `sent` elected messages have been sent; `over` when the last has arrived. */
  function InformingWorld(ring: seq<Server>, i: nat, top: nat, sent: nat, over: bool): World
    requires i < |ring| && top < |ring|
  {
    var notice := Message(ring[Hop(|ring|, top, sent)].at, ring[top].at);
    World(InformingNodes(ring, top, sent), multiset{}, if over then multiset{} else multiset{notice},
          ring[top].at, [ring[i].at], [ring[top].at], |ring| + Dist(|ring|, i, top), sent)
  }

  /** One more send adds exactly the server `h` hops on to those within distance. */
  lemma OneMoreWithin(ring: seq<Server>, i: nat, h: nat, e: Endpoint)
    requires Distinct(ring) && i < |ring| && h < 2 * |ring| && Lists(ring, e)
    ensures var d := Dist(|ring|, i, IndexFrom(ring, e, 0));
      d < h + 1 <==> d < h || e == ring[Hop(|ring|, i, h)].at
  {
    DistOfHop(|ring|, i, h);
    Successor(ring, Hop(|ring|, i, h));
  }

  /** The next server on the token's way now holds the ring. */
  lemma ElectingNodesUpdate(servers: seq<Server>, ring: seq<Server>, i: nat, h: nat, at: Endpoint)
    requires Distinct(ring) && i < |ring| && h < 2 * |ring| && at == ring[Hop(|ring|, i, h)].at
    ensures ElectingNodes(servers, ring, i, h)[at := Node(Server(at, Backup), ring)]
      == ElectingNodes(servers, ring, i, h + 1)
  {
    var updated := ElectingNodes(servers, ring, i, h)[at := Node(Server(at, Backup), ring)];
    var after := ElectingNodes(servers, ring, i, h + 1);
    Successor(ring, Hop(|ring|, i, h));
    MembersAreListed(ring, at);
    assert updated.Keys == after.Keys;
    forall e | e in after ensures updated[e] == after[e] {
      MembersAreListed(ring, e);
      OneMoreWithin(ring, i, h, e);
    }
  }

  /** The next server on the notice's way now holds the winner's list. */
  lemma InformingNodesUpdate(ring: seq<Server>, top: nat, sent: nat, at: Endpoint)
    requires Distinct(ring) && top < |ring| && 1 <= sent < |ring| && at == ring[Hop(|ring|, top, sent)].at
    ensures InformingNodes(ring, top, sent)[at := Node(Server(at, Backup), ring[top := Server(ring[top].at, Primary)])]
      == InformingNodes(ring, top, sent + 1)
  {
    DistOfHop(|ring|, top, sent);
    var promoted := ring[top := Server(ring[top].at, Primary)];
    var updated := InformingNodes(ring, top, sent)[at := Node(Server(at, Backup), promoted)];
    var after := InformingNodes(ring, top, sent + 1);
    Successor(ring, Hop(|ring|, top, sent));
    MembersAreListed(ring, at);
    assert updated.Keys == after.Keys;
    forall e | e in after ensures updated[e] == after[e] {
      MembersAreListed(ring, e);
      OneMoreWithin(ring, top, sent, e);
    }
  }

  /** When the token is back at the greatest server everybody holds the ring, and the winner's
      promotion of itself is the first elected state. */
  lemma WinnerUpdate(servers: seq<Server>, ring: seq<Server>, i: nat, h: nat, top: nat)
    requires Distinct(ring) && i < |ring| && top < |ring| && h >= |ring|
    ensures var at := ring[top].at;
      ElectingNodes(servers, ring, i, h)[at := Node(Server(at, Primary), ring[top := Server(at, Primary)])]
      == InformingNodes(ring, top, 1)
  {
    var at := ring[top].at;
    Successor(ring, top);
    var promoted := ring[top := Server(at, Primary)];
    var updated := ElectingNodes(servers, ring, i, h)[at := Node(Server(at, Primary), promoted)];
    var after := InformingNodes(ring, top, 1);
    MembersAreListed(ring, at);
    assert updated.Keys == after.Keys;
    forall e | e in after ensures updated[e] == after[e] {
      MembersAreListed(ring, e);
      assert e == at || IndexFrom(ring, e, 0) != top;
    }
  }

  /** The ring with its greatest server promoted: distinct, one primary, same successors. */
  lemma PromotedRing(servers: seq<Server>, ring: seq<Server>, failed: Endpoint, i: nat, top: nat, k: nat)
    requires Setting(servers, ring, failed, i, top) && k < |ring|
    ensures var promoted := ring[top := Server(ring[top].at, Primary)];
      && Promote(ring, ring[top].at) == promoted && Transfer(promoted) == promoted
      && NextServer(promoted, ring[k].at) == Some(ring[Succ(|ring|, k)].at)
      && !Lists(promoted, failed)
  {
    var promoted := ring[top := Server(ring[top].at, Primary)];
    Successor(ring, top);
    assert Distinct(promoted) by {
      DistinctIff(ring);
      DistinctIff(promoted);
    }
    Successor(promoted, k);
    TransferIsIdentityIff(promoted);
    if Lists(promoted, failed) {
      IndexIsFirst(ring, failed, 0, IndexFrom(promoted, failed, 0));
    }
  }

  /** Nobody but `e` has started an election, and `e` at most once. */
  ghost predicate OnlyStarter(w: World, e: Endpoint) {
    w.starts == [] || w.starts == [e]
  }

  /** A delivery, given what the receiver's handler returned. */
  lemma TokenDelivered(failed: Endpoint, w: World, m: Message, node: Node, out: Outgoing, register: Option<Endpoint>)
    requires w.tokens == multiset{m} && w.notices == multiset{} && m.to in w.nodes
    requires OnElection(w.nodes[m.to], m.value) == Continue(node, out, register)
    ensures Next(failed, w, DeliverToken(m)) ==
      World(w.nodes[m.to := node], TokensIn(out), NoticesIn(out),
            if register.Some? then register.value else w.dns, w.starts,
            if register.Some? then w.winners + [register.value] else w.winners,
            w.tokensSent + |TokensIn(out)|, w.noticesSent + |NoticesIn(out)|)
  {
    assert w.tokens - multiset{m} == multiset{};
    assert multiset{} + TokensIn(out) == TokensIn(out);
    assert multiset{} + NoticesIn(out) == NoticesIn(out);
  }

  lemma NoticeDelivered(failed: Endpoint, w: World, m: Message, list: seq<Server>, node: Node, out: Outgoing)
    requires w.notices == multiset{m} && w.tokens == multiset{} && m.to in w.nodes
    requires Fetch(w, m.value, true) == Some(list)
    requires OnElected(w.nodes[m.to], m.value, Some(list)) == Continue(node, out, None)
    ensures Next(failed, w, DeliverNotice(m, true)) ==
      World(w.nodes[m.to := node], TokensIn(out), NoticesIn(out), w.dns, w.starts, w.winners,
            w.tokensSent + |TokensIn(out)|, w.noticesSent + |NoticesIn(out)|)
  {
    assert w.notices - multiset{m} == multiset{};
    assert multiset{} + TokensIn(out) == TokensIn(out);
    assert multiset{} + NoticesIn(out) == NoticesIn(out);
  }

  lemma FirstStarter(servers: seq<Server>, ring: seq<Server>, failed: Endpoint, i: nat, top: nat, w: World,
          at: Endpoint)
    requires Setting(servers, ring, failed, i, top) && w == ElectingWorld(servers, ring, failed, i, 0)
    requires at in w.nodes && OnlyStarter(Next(failed, w, Suspect(at)), ring[i].at)
    ensures at == ring[i].at && Hop(|ring|, i, 0) == i
    ensures Initiate(w.nodes[at], failed) ==
      Continue(Node(Server(at, Backup), ring), SendElection(ring[Hop(|ring|, i, 1)].at, at), None)
  {
    MembersAreListed(ring, at);
    SuspectStep(servers, ring, failed, w.nodes[at]);
    assert Next(failed, w, Suspect(at)).starts == [at];
    assert [at][0] == ring[i].at;
    Successor(ring, i);
    assert Hop(|ring|, i, 1) == Succ(|ring|, Hop(|ring|, i, 0));
  }

  lemma FirstSuspicion(servers: seq<Server>, ring: seq<Server>, failed: Endpoint, i: nat, top: nat, w: World,
          at: Endpoint)
    requires Setting(servers, ring, failed, i, top) && w == ElectingWorld(servers, ring, failed, i, 0)
    requires at in w.nodes && OnlyStarter(Next(failed, w, Suspect(at)), ring[i].at)
    ensures Next(failed, w, Suspect(at)) == ElectingWorld(servers, ring, failed, i, 1)
  {
    FirstStarter(servers, ring, failed, i, top, w, at);
    ElectingNodesUpdate(servers, ring, i, 0, at);
    var token := Message(ring[Hop(|ring|, i, 1)].at, at);
    assert w.tokens + multiset{token} == multiset{token};
  }

  lemma QuietReaction(w: World, at: Endpoint)
    requires at in w.nodes
    ensures React(w, at, Continue(w.nodes[at], Quiet, None)) == w
  {
    assert w.nodes[at := w.nodes[at]] == w.nodes;
  }

  /** While the token circulates, a suspicion either changes nothing or starts a second election. */
  lemma SuspicionWhileElecting(servers: seq<Server>, ring: seq<Server>, failed: Endpoint, i: nat, top: nat,
          w: World, h: nat, at: Endpoint)
    requires Setting(servers, ring, failed, i, top) && h >= 1 && w == ElectingWorld(servers, ring, failed, i, h)
    requires at in w.nodes && OnlyStarter(Next(failed, w, Suspect(at)), ring[i].at)
    ensures Next(failed, w, Suspect(at)) == w
  {
    MembersAreListed(ring, at);
    SuspectStep(servers, ring, failed, w.nodes[at]);
    if w.nodes[at].servers == ring {
      QuietReaction(w, at);
    }
  }

  /** Once there is a winner, suspicions of the old primary change nothing. */
  lemma SuspicionWhileInforming(servers: seq<Server>, ring: seq<Server>, failed: Endpoint, i: nat, top: nat,
          w: World, sent: nat, over: bool, at: Endpoint)
    requires Setting(servers, ring, failed, i, top) && w == InformingWorld(ring, i, top, sent, over)
    requires at in w.nodes
    ensures Next(failed, w, Suspect(at)) == w
  {
    PromotedRing(servers, ring, failed, i, top, top);
    TokenCount.InitiateDrops(w.nodes[at], failed);
    QuietReaction(w, at);
  }

  /** A backup on the ring passes the greater of itself and the token on. */
  lemma PassOn(ring: seq<Server>, n: Node, k: nat, lead: nat)
    requires Distinct(ring) && k < |ring| && lead < |ring| && k != lead
    requires n.self.at == ring[k].at && Backups(n.servers) == ring
    ensures OnElection(n, ring[lead].at) ==
      Continue(Node(n.self, ring),
               SendElection(ring[Succ(|ring|, k)].at, ring[if Greater(ring[k].at, ring[lead].at) then k else lead].at),
               None)
  {
    Successor(ring, k);
  }

  lemma ElectingAdvances(servers: seq<Server>, ring: seq<Server>, failed: Endpoint, i: nat, h: nat, m: Message,
          out: Outgoing)
    requires Distinct(ring) && i < |ring| && 1 <= h < 2 * |ring|
    requires var w := ElectingWorld(servers, ring, failed, i, h);
      && m == Message(ring[Hop(|ring|, i, h)].at, ring[Lead(ring, i, h)].at) && m.to in w.nodes
      && out == SendElection(ring[Hop(|ring|, i, h + 1)].at, ring[Lead(ring, i, h + 1)].at)
      && OnElection(w.nodes[m.to], m.value) == Continue(Node(Server(m.to, Backup), ring), out, None)
    ensures var w := ElectingWorld(servers, ring, failed, i, h);
      Next(failed, w, DeliverToken(m)) == ElectingWorld(servers, ring, failed, i, h + 1)
  {
    TokenDelivered(failed, ElectingWorld(servers, ring, failed, i, h), m, Node(Server(m.to, Backup), ring), out, None);
    ElectingNodesUpdate(servers, ring, i, h, m.to);
  }

  lemma TokenHops(servers: seq<Server>, ring: seq<Server>, failed: Endpoint, i: nat, top: nat, h: nat, m: Message)
    requires Setting(servers, ring, failed, i, top) && 1 <= h < |ring| + Dist(|ring|, i, top)
    requires Enabled(ElectingWorld(servers, ring, failed, i, h), DeliverToken(m))
    ensures var w := ElectingWorld(servers, ring, failed, i, h);
      Next(failed, w, DeliverToken(m)) == ElectingWorld(servers, ring, failed, i, h + 1)
  {
    hide Next, Lead, ElectingWorld, OnElection;
    var w := ElectingWorld(servers, ring, failed, i, h);
    var k, lead := Hop(|ring|, i, h), Lead(ring, i, h);
    TokenOnItsWay(servers, ring, failed, i, top, h);
    assert m == Message(ring[k].at, ring[lead].at);
    assert k != lead by { TokenComesHome(ring, i, top, h); }
    PassOn(ring, w.nodes[m.to], k, lead);
    ElectingAdvances(servers, ring, failed, i, h, m,
                     SendElection(ring[Succ(|ring|, k)].at, ring[Lead(ring, i, h + 1)].at));
  }

  /** The one token in flight, its next owner, and the list its target holds. */
  lemma TokenOnItsWay(servers: seq<Server>, ring: seq<Server>, failed: Endpoint, i: nat, top: nat, h: nat)
    requires Setting(servers, ring, failed, i, top) && h >= 1
    ensures var w, k, lead := ElectingWorld(servers, ring, failed, i, h), Hop(|ring|, i, h), Lead(ring, i, h);
      && w.tokens == multiset{Message(ring[k].at, ring[lead].at)}
      && (ring[k].at in w.nodes ==>
          && w.nodes[ring[k].at].self == Server(ring[k].at, Backup) && Backups(w.nodes[ring[k].at].servers) == ring)
      && Lead(ring, i, h + 1) == (if Greater(ring[k].at, ring[lead].at) then k else lead)
      && Hop(|ring|, i, h + 1) == Succ(|ring|, k)
  {
  }

  lemma WinnerAnnounces(servers: seq<Server>, ring: seq<Server>, failed: Endpoint, i: nat, top: nat, h: nat,
          out: Outgoing)
    requires Distinct(ring) && i < |ring| && top < |ring| && h == |ring| + Dist(|ring|, i, top)
    requires var w, at := ElectingWorld(servers, ring, failed, i, h), ring[top].at;
      && w.tokens == multiset{Message(at, at)} && at in w.nodes
      && out == SendElected(ring[Succ(|ring|, top)].at, at)
      && OnElection(w.nodes[at], at)
         == Continue(Node(Server(at, Primary), ring[top := Server(at, Primary)]), out, Some(at))
    ensures var w, m := ElectingWorld(servers, ring, failed, i, h), Message(ring[top].at, ring[top].at);
      Next(failed, w, DeliverToken(m)) == InformingWorld(ring, i, top, 1, false)
  {
    hide Next, OnElection, Lead, ElectingNodes, InformingNodes;
    var at := ring[top].at;
    TokenDelivered(failed, ElectingWorld(servers, ring, failed, i, h), Message(at, at),
                   Node(Server(at, Primary), ring[top := Server(at, Primary)]), out, Some(at));
    WinnerUpdate(servers, ring, i, h, top);
    assert Hop(|ring|, top, 0) == top && Hop(|ring|, top, 1) == Succ(|ring|, top);
  }

  lemma TokenWins(servers: seq<Server>, ring: seq<Server>, failed: Endpoint, i: nat, top: nat, h: nat, m: Message)
    requires Setting(servers, ring, failed, i, top) && h == |ring| + Dist(|ring|, i, top)
    requires Enabled(ElectingWorld(servers, ring, failed, i, h), DeliverToken(m))
    ensures var w := ElectingWorld(servers, ring, failed, i, h);
      Next(failed, w, DeliverToken(m)) == InformingWorld(ring, i, top, 1, false)
  {
    hide Next, InformingWorld;
    var w, at := ElectingWorld(servers, ring, failed, i, h), ring[top].at;
    TokenComesHome(ring, i, top, h);
    assert m == Message(at, at) && w.tokens == multiset{m};
    Successor(ring, top);
    PromotedRing(servers, ring, failed, i, top, top);
    WinnerAnnounces(servers, ring, failed, i, top, h, SendElected(ring[Succ(|ring|, top)].at, at));
  }

  lemma InformingAdvances(ring: seq<Server>, failed: Endpoint, i: nat, top: nat, sent: nat, m: Message, out: Outgoing)
    requires Distinct(ring) && i < |ring| && top < |ring| && 1 <= sent < |ring|
    requires var w, promoted := InformingWorld(ring, i, top, sent, false), ring[top := Server(ring[top].at, Primary)];
      && w.notices == multiset{m} && m.to in w.nodes && Fetch(w, m.value, true) == Some(promoted)
      && m.to == ring[Hop(|ring|, top, sent)].at
      && out == SendElected(ring[Hop(|ring|, top, sent + 1)].at, ring[top].at)
      && OnElected(w.nodes[m.to], m.value, Some(promoted)) == Continue(Node(Server(m.to, Backup), promoted), out, None)
    ensures var w := InformingWorld(ring, i, top, sent, false);
      Next(failed, w, DeliverNotice(m, true)) == InformingWorld(ring, i, top, sent + 1, false)
  {
    var promoted := ring[top := Server(ring[top].at, Primary)];
    NoticeDelivered(failed, InformingWorld(ring, i, top, sent, false), m, promoted,
                    Node(Server(m.to, Backup), promoted), out);
    InformingNodesUpdate(ring, top, sent, m.to);
  }

  /** What the server next told about the winner holds, fetches and does. */
  lemma NoticeReaction(servers: seq<Server>, ring: seq<Server>, failed: Endpoint, i: nat, top: nat, sent: nat, k: nat)
    requires Setting(servers, ring, failed, i, top) && 1 <= sent < |ring| && k == Hop(|ring|, top, sent)
    ensures var w, at := InformingWorld(ring, i, top, sent, false), ring[k].at;
      var promoted := ring[top := Server(ring[top].at, Primary)];
      && Fetch(w, ring[top].at, true) == Some(promoted) && at in w.nodes
      && OnElected(w.nodes[at], ring[top].at, Some(promoted))
         == Continue(Node(Server(at, Backup), promoted),
                     SendElected(ring[Hop(|ring|, top, sent + 1)].at, ring[top].at), None)
  {
    DistOfHop(|ring|, top, sent);
    Successor(ring, top);
    Successor(ring, k);
    MembersAreListed(ring, ring[top].at);
    MembersAreListed(ring, ring[k].at);
    PromotedRing(servers, ring, failed, i, top, k);
    hide Setting, Distinct, NextServer, Transfer, IndexFrom, Promote;
  }

  lemma NoticeHops(servers: seq<Server>, ring: seq<Server>, failed: Endpoint, i: nat, top: nat, sent: nat, m: Message)
    requires Setting(servers, ring, failed, i, top) && 1 <= sent < |ring|
    requires Enabled(InformingWorld(ring, i, top, sent, false), DeliverNotice(m, true))
    ensures var w := InformingWorld(ring, i, top, sent, false);
      Next(failed, w, DeliverNotice(m, true)) == InformingWorld(ring, i, top, sent + 1, false)
  {
    var k := Hop(|ring|, top, sent);
    assert m == Message(ring[k].at, ring[top].at);
    NoticeReaction(servers, ring, failed, i, top, sent, k);
    InformingAdvances(ring, failed, i, top, sent, m, SendElected(ring[Hop(|ring|, top, sent + 1)].at, ring[top].at));
  }

  /** The winner takes no notice of a notice that it won. */
  lemma WinnerStops(ring: seq<Server>, i: nat, top: nat, m: Message)
    requires Distinct(ring) && i < |ring| && top < |ring|
    requires m in InformingWorld(ring, i, top, |ring|, false).notices
    requires m.to in InformingWorld(ring, i, top, |ring|, false).nodes
    ensures m.value == m.to && InformingWorld(ring, i, top, |ring|, false).nodes[m.to].self.at == m.to
    ensures InformingWorld(ring, i, top, |ring|, false).notices - multiset{m} == multiset{}
  {
    DistOfHop(|ring|, top, |ring|);
  }

  lemma NoticeEnds(servers: seq<Server>, ring: seq<Server>, failed: Endpoint, i: nat, top: nat, w: World, m: Message)
    requires Setting(servers, ring, failed, i, top)
    requires w == InformingWorld(ring, i, top, |ring|, false) && Enabled(w, DeliverNotice(m, true))
    ensures Next(failed, w, DeliverNotice(m, true)) == InformingWorld(ring, i, top, |ring|, true)
  {
    hide InformingNodes, Hop, Dist, Fetch, Distinct, Lists, IsHighest, NextServer, React;
    WinnerStops(ring, i, top, m);
    QuietReaction(w.(notices := multiset{}), m.to);
  }
}
