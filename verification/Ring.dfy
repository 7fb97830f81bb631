/** The failover protocol as a state machine: every surviving server, the election and elected
    messages in flight, the DNS register, and a log of what has happened. Messages may be
    delivered in any order; suspicion of the failed primary may arise anywhere at any time. */
module Ring {
  import opened Basics
  import opened Servers
  import opened ElectionServer

  datatype Message = Message(to: Endpoint, value: Endpoint)

  datatype World = World(
    nodes: map<Endpoint, Node>,      // running servers
    tokens: multiset<Message>,       // election messages in flight
    notices: multiset<Message>,      // elected messages in flight
    dns: Endpoint,
    starts: seq<Endpoint>,           // who started an election, in order
    winners: seq<Endpoint>,          // who ran setElected, in order
    tokensSent: nat,
    noticesSent: nat)

  datatype Action =
    | Suspect(at: Endpoint)
    | DeliverToken(m: Message)
    | DeliverNotice(m: Message, reachable: bool)
    | LoseToken(m: Message)
    | LoseNotice(m: Message)

  predicate Enabled(w: World, a: Action) {
    match a
    case Suspect(at) => at in w.nodes
    case DeliverToken(m) => m in w.tokens && m.to in w.nodes
    case DeliverNotice(m, _) => m in w.notices && m.to in w.nodes
    case LoseToken(m) => m in w.tokens
    case LoseNotice(m) => m in w.notices
  }

  /** Nothing is lost: no message disappears and the winner answers every fetch. */
  predicate Lossless(a: Action) {
    match a
    case Suspect(_) => true
    case DeliverToken(_) => true
    case DeliverNotice(_, reachable) => reachable
    case LoseToken(_) => false
    case LoseNotice(_) => false
  }

  predicate IsDelivery(a: Action) { a.DeliverToken? || a.DeliverNotice? }

  /** A notice makes every server but the winner fetch the winner's list. */
  predicate IsFetch(a: Action) { a.DeliverNotice? && a.m.to != a.m.value }

  /** The list a server receives when it fetches from `winner`. */
  function Fetch(w: World, winner: Endpoint, reachable: bool): Option<seq<Server>> {
    if reachable && winner in w.nodes then Some(Transfer(w.nodes[winner].servers)) else None
  }

  function TokensIn(out: Outgoing): multiset<Message> {
    if out.SendElection? then multiset{Message(out.to, out.value)} else multiset{}
  }

  function NoticesIn(out: Outgoing): multiset<Message> {
    if out.SendElected? then multiset{Message(out.to, out.value)} else multiset{}
  }

  /** The world after the server at `at` has reacted. */
  function React(w: World, at: Endpoint, r: Reaction): World {
    match r
    case Exit => w.(nodes := w.nodes - {at})
    case Continue(node, out, register) =>
      World(w.nodes[at := node], w.tokens + TokensIn(out), w.notices + NoticesIn(out),
            if register.Some? then register.value else w.dns,
            w.starts,
            if register.Some? then w.winners + [register.value] else w.winners,
            w.tokensSent + |TokensIn(out)|, w.noticesSent + |NoticesIn(out)|)
  }

  /** One atomic step, with `failed` the primary that crashed. */
  function Next(failed: Endpoint, w: World, a: Action): World
    requires Enabled(w, a)
  {
    match a
    case Suspect(at) =>
      var r := Initiate(w.nodes[at], failed);
      var started := r.Continue? && r.out.SendElection?;
      React(w, at, r).(starts := if started then w.starts + [at] else w.starts)
    case DeliverToken(m) =>
      React(w.(tokens := w.tokens - multiset{m}), m.to, OnElection(w.nodes[m.to], m.value))
    case DeliverNotice(m, reachable) =>
      React(w.(notices := w.notices - multiset{m}), m.to,
            OnElected(w.nodes[m.to], m.value, Fetch(w, m.value, reachable)))
    case LoseToken(m) => w.(tokens := w.tokens - multiset{m})
    case LoseNotice(m) => w.(notices := w.notices - multiset{m})
  }

  predicate Run(failed: Endpoint, w: World, actions: seq<Action>)
    decreases |actions|
  {
    actions == [] ||
    (Enabled(w, actions[0]) && Run(failed, Next(failed, w, actions[0]), actions[1..]))
  }

  function After(failed: Endpoint, w: World, actions: seq<Action>): World
    requires Run(failed, w, actions)
    decreases |actions|
  {
    if actions == [] then w else After(failed, Next(failed, w, actions[0]), actions[1..])
  }

  function Deliveries(actions: seq<Action>): nat {
    if actions == [] then 0
    else (if IsDelivery(actions[0]) then 1 else 0) + Deliveries(actions[1..])
  }

  function Fetches(actions: seq<Action>): nat {
    if actions == [] then 0 else (if IsFetch(actions[0]) then 1 else 0) + Fetches(actions[1..])
  }

  ghost predicate LosslessRun(actions: seq<Action>) {
    forall a :: a in actions ==> Lossless(a)
  }

  /** All views agree on a list with distinct endpoints whose one primary is `failed`. */
  ghost predicate Agreed(servers: seq<Server>, failed: Endpoint) {
    Distinct(servers)
    && Server(failed, Primary) in servers
    && forall s :: s in servers && s.kind == Primary ==> s.at == failed
  }

  /** The moment the primary is gone: each server on the ring of survivors holds `servers`,
      and nothing is in flight. */
  ghost predicate Start(servers: seq<Server>, failed: Endpoint, w: World) {
    var ring := Backups(servers);
    && w.nodes.Keys == Members(ring)
    && (forall e :: e in w.nodes ==> w.nodes[e] == Node(Server(e, Backup), servers))
    && w == World(w.nodes, multiset{}, multiset{}, failed, [], [], 0, 0)
  }
}
