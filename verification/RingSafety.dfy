/** Safety of elections for any number of initiators, any delivery order and any loss. */
module RingSafety {
  import opened Basics
  import opened Servers
  import opened ElectionServer
  import opened Ring

  /** Is position `k` on the ring arc that starts at `from` and stops before `to`?
      When both are the same position the arc is the whole ring. */
  predicate InArc(from: nat, to: nat, k: nat) {
    if from < to then from <= k < to else from <= k || k < to
  }

  ghost predicate IsHighest(ring: seq<Server>, e: Endpoint) {
    Lists(ring, e) && forall k :: 0 <= k < |ring| ==> !Greater(ring[k].at, e)
  }

  /** At most `b`, by ip first and then by port. */
  predicate AtMost(a: Endpoint, b: Endpoint) { a.ip < b.ip || (a.ip == b.ip && a.port <= b.port) }

  /** The greatest of a ring has the greatest ip, and the greatest port among those with that ip. */
  lemma HighestIff(ring: seq<Server>, e: Endpoint)
    ensures IsHighest(ring, e) <==> Lists(ring, e) && forall k :: 0 <= k < |ring| ==> AtMost(ring[k].at, e)
  {
    forall k | 0 <= k < |ring| ensures !Greater(ring[k].at, e) <==> AtMost(ring[k].at, e) {
      GreaterIff(ring[k].at, e);
    }
  }

  lemma HighestOfMembers(ring: seq<Server>, e: Endpoint)
    requires IsHighest(ring, e)
    ensures e in Members(ring) && forall x :: x in Members(ring) ==> AtMost(x, e)
  {
    HighestIff(ring, e);
    MembersAreListed(ring, e);
    forall x | x in Members(ring) ensures AtMost(x, e) {
      MembersAreListed(ring, x);
      assert ring[IndexFrom(ring, x, 0)].at == x;
    }
  }

  /** No server on the arc from position `from` up to position `to` is greater than the one at `from`. */
  ghost predicate Covers(ring: seq<Server>, from: nat, to: nat)
    requires from < |ring|
  {
    forall k :: 0 <= k < |ring| && InArc(from, to, k) ==> !Greater(ring[k].at, ring[from].at)
  }

  /** A token's target and value are listed, and the value covers the arc from its owner to the target. */
  ghost predicate TokenCovers(ring: seq<Server>, m: Message) {
    Lists(ring, m.to) && Lists(ring, m.value)
    && Covers(ring, IndexFrom(ring, m.value, 0), IndexFrom(ring, m.to, 0))
  }

  /** The lists a survivor can hold before anyone is elected: the agreed one, or the ring. */
  ghost predicate RingOf(servers: seq<Server>, failed: Endpoint, ring: seq<Server>) {
    && Distinct(ring) && |ring| < |servers|
    && Without(servers, failed) == ring && Backups(servers) == ring
    && Without(ring, failed) == ring && Backups(ring) == ring
  }

  /** Before anyone is elected. */
  ghost predicate Undecided(servers: seq<Server>, ring: seq<Server>, failed: Endpoint, w: World) {
    && w.dns == failed && w.winners == [] && w.notices == multiset{}
    && w.nodes.Keys == Members(ring)
    && (forall e :: e in w.nodes ==> w.nodes[e] == Node(Server(e, Backup), servers)
                                     || w.nodes[e] == Node(Server(e, Backup), ring))
    && (forall m :: m in w.tokens ==> TokenCovers(ring, m))
  }

  ghost predicate Safe(servers: seq<Server>, ring: seq<Server>, failed: Endpoint, w: World) {
    if w.winners == [] then Undecided(servers, ring, failed, w)
    else IsHighest(ring, w.winners[0])
  }

  lemma AgreedGivesRing(servers: seq<Server>, failed: Endpoint)
    requires Agreed(servers, failed)
    ensures RingOf(servers, failed, Backups(servers)) && !Lists(Backups(servers), failed)
  {
    var ring := Backups(servers);
    forall s | s in servers ensures s.kind == Primary <==> s.at == failed {
      assert Server(failed, Primary) in servers;
    }
    WithoutPrimaryIsBackups(servers, failed);
    BackupsDistinct(servers);
    BackupsMembers(servers);
    BackupsOfBackups(ring);
    forall k | 0 <= k < |ring| ensures ring[k].at != failed {
      assert ring[k] in ring;
    }
    WithoutMembers(ring, failed);
    WithoutMembers(servers, failed);
    var k :| 0 <= k < |servers| && servers[k] == Server(failed, Primary);
    assert Lists(servers, failed);
  }

  /** On a list with distinct endpoints, position `k` is found and its successor is the next entry. */
  lemma Successor(list: seq<Server>, k: nat)
    requires Distinct(list) && k < |list|
    ensures IndexFrom(list, list[k].at, 0) == k
    ensures NextServer(list, list[k].at) == Some(list[Succ(|list|, k)].at)
  {
    assert Lists(list, list[k].at);
  }

  /** Passing the server at `q` extends the covered arc by `q`, keeping the greater owner. */
  lemma ArcAdvances(ring: seq<Server>, o: nat, q: nat)
    requires o < |ring| && q < |ring| && o != q && Covers(ring, o, q)
    ensures Covers(ring, if Greater(ring[q].at, ring[o].at) then q else o, Succ(|ring|, q))
  {
    var o' := if Greater(ring[q].at, ring[o].at) then q else o;
    forall k | 0 <= k < |ring| && InArc(o', Succ(|ring|, q), k)
      ensures !Greater(ring[k].at, ring[o'].at)
    {
      assert k == q || InArc(o, q, k);
    }
  }

  /** What a server does with a token whose value covers the arc up to it. */
  lemma TokenStep(ring: seq<Server>, n: Node, m: Message)
    requires Distinct(ring) && TokenCovers(ring, m)
    requires n.self == Server(m.to, Backup) && Backups(n.servers) == ring
    ensures OnElection(n, m.value).Continue?
    ensures m.to == m.value ==> OnElection(n, m.value).register == Some(m.value) && IsHighest(ring, m.value)
    ensures m.to != m.value ==>
      var r := OnElection(n, m.value);
      && r.register == None && r.node == Node(n.self, ring) && r.out.SendElection?
      && TokenCovers(ring, Message(r.out.to, r.out.value))
  {
    var q := IndexFrom(ring, m.to, 0);
    var o := IndexFrom(ring, m.value, 0);
    Successor(ring, q);
    if m.to == m.value {
      assert forall k :: 0 <= k < |ring| ==> InArc(o, q, k);
    } else {
      ArcAdvances(ring, o, q);
      Successor(ring, Succ(|ring|, q));
    }
  }

  /** A server's own identity, sent to its successor, covers the server itself; on a ring of
      one the arc is that one server. */
  lemma OwnTokenCovers(ring: seq<Server>, q: nat)
    requires Distinct(ring) && q < |ring|
    ensures TokenCovers(ring, Message(ring[Succ(|ring|, q)].at, ring[q].at))
  {
    Successor(ring, q);
    Successor(ring, Succ(|ring|, q));
    forall k | 0 <= k < |ring| && InArc(q, Succ(|ring|, q), k) ensures k == q {
    }
  }

  /** What suspicion does before anyone is elected: the first one drops the primary and
      sends the server's own identity, a later one changes nothing. */
  lemma SuspectStep(servers: seq<Server>, ring: seq<Server>, failed: Endpoint, n: Node)
    requires RingOf(servers, failed, ring) && Lists(ring, n.self.at) && n.self.kind == Backup
    ensures n.servers == ring ==> Initiate(n, failed) == Continue(n, Quiet, None)
    ensures n.servers == servers ==>
      var next := ring[Succ(|ring|, IndexFrom(ring, n.self.at, 0))].at;
      && Initiate(n, failed) == Continue(Node(n.self, ring), SendElection(next, n.self.at), None)
      && TokenCovers(ring, Message(next, n.self.at))
  {
    var q := IndexFrom(ring, n.self.at, 0);
    Successor(ring, q);
    OwnTokenCovers(ring, q);
  }

  /** Reactions that keep the undecided state: a node holding the ring sends a covering token. */
  lemma ReactIsSafe(servers: seq<Server>, ring: seq<Server>, failed: Endpoint, w: World, at: Endpoint, r: Reaction)
    requires Undecided(servers, ring, failed, w) && at in w.nodes && r.Continue? && r.register == None
    requires r.out.Quiet? ==> r.node == w.nodes[at]
    requires !r.out.SendElected?
    requires r.out.SendElection? ==>
      r.node == Node(Server(at, Backup), ring) && TokenCovers(ring, Message(r.out.to, r.out.value))
    ensures Undecided(servers, ring, failed, React(w, at, r))
  {
  }

  lemma SuspectIsSafe(servers: seq<Server>, ring: seq<Server>, failed: Endpoint, w: World, at: Endpoint)
    requires RingOf(servers, failed, ring) && Undecided(servers, ring, failed, w) && at in w.nodes
    ensures Undecided(servers, ring, failed, Next(failed, w, Suspect(at)))
  {
    var r := Initiate(w.nodes[at], failed);
    MembersAreListed(ring, at);
    SuspectStep(servers, ring, failed, w.nodes[at]);
    ReactIsSafe(servers, ring, failed, w, at, r);
  }

  lemma TokenIsSafe(servers: seq<Server>, ring: seq<Server>, failed: Endpoint, w: World, m: Message)
    requires RingOf(servers, failed, ring) && Undecided(servers, ring, failed, w)
    requires Enabled(w, DeliverToken(m))
    ensures Safe(servers, ring, failed, Next(failed, w, DeliverToken(m)))
  {
    var r := OnElection(w.nodes[m.to], m.value);
    TokenStep(ring, w.nodes[m.to], m);
    if m.to != m.value {
      ReactIsSafe(servers, ring, failed, w.(tokens := w.tokens - multiset{m}), m.to, r);
    }
  }

  lemma ReactGrows(w: World, at: Endpoint, r: Reaction)
    ensures React(w, at, r).starts == w.starts && w.winners <= React(w, at, r).winners
  {
  }

  lemma LogsGrow(failed: Endpoint, w: World, a: Action)
    requires Enabled(w, a)
    ensures w.starts <= Next(failed, w, a).starts && w.winners <= Next(failed, w, a).winners
  {
    match a
    case Suspect(at) =>
      ReactGrows(w, at, Initiate(w.nodes[at], failed));
    case DeliverToken(m) =>
      ReactGrows(w.(tokens := w.tokens - multiset{m}), m.to, OnElection(w.nodes[m.to], m.value));
    case DeliverNotice(m, reachable) =>
      ReactGrows(w.(notices := w.notices - multiset{m}), m.to,
                 OnElected(w.nodes[m.to], m.value, Fetch(w, m.value, reachable)));
    case LoseToken(_) =>
    case LoseNotice(_) =>
  }

  lemma StepIsSafe(servers: seq<Server>, ring: seq<Server>, failed: Endpoint, w: World, a: Action)
    requires RingOf(servers, failed, ring) && Safe(servers, ring, failed, w) && Enabled(w, a)
    ensures Safe(servers, ring, failed, Next(failed, w, a))
  {
    if w.winners != [] {
      LogsGrow(failed, w, a);
    } else {
      match a
      case Suspect(at) => SuspectIsSafe(servers, ring, failed, w, at);
      case DeliverToken(m) => TokenIsSafe(servers, ring, failed, w, m);
      case DeliverNotice(_, _) =>
      case LoseToken(_) =>
      case LoseNotice(_) =>
    }
  }

  lemma {:induction false} RunIsSafe(servers: seq<Server>, ring: seq<Server>, failed: Endpoint, w: World,
          actions: seq<Action>)
    requires RingOf(servers, failed, ring) && Safe(servers, ring, failed, w) && Run(failed, w, actions)
    ensures Safe(servers, ring, failed, After(failed, w, actions))
    decreases |actions|
  {
    if actions != [] {
      StepIsSafe(servers, ring, failed, w, actions[0]);
      RunIsSafe(servers, ring, failed, Next(failed, w, actions[0]), actions[1..]);
    }
  }

  /** Election safety: in every run from agreed views, the first server to elect itself is the
      greatest survivor, the one with the greatest ip and, among those, the greatest port; until then nobody
      has exited and the DNS still names the old primary. */
  lemma FirstElectedIsHighest(servers: seq<Server>, failed: Endpoint, w: World, actions: seq<Action>)
    requires Agreed(servers, failed) && Start(servers, failed, w) && Run(failed, w, actions)
    ensures var w' := After(failed, w, actions);
      && (w'.winners != [] ==> IsHighest(Backups(servers), w'.winners[0]))
      && (w'.winners != [] ==> w'.winners[0] in w.nodes && forall e :: e in w.nodes ==> AtMost(e, w'.winners[0]))
      && (w'.winners == [] ==> w'.dns == failed && w'.nodes.Keys == w.nodes.Keys)
  {
    AgreedGivesRing(servers, failed);
    RunIsSafe(servers, Backups(servers), failed, w, actions);
    var w' := After(failed, w, actions);
    if w'.winners != [] {
      HighestOfMembers(Backups(servers), w'.winners[0]);
    }
  }
}
