/** One server's reactions to election events: first as functions on its state, then as the
    class whose methods walk and replace the server list. */
module ElectionServer {
  import opened Basics
  import opened Servers

  datatype Node = Node(self: Server, servers: seq<Server>)

  datatype Outgoing =
    | Quiet
    | SendElection(to: Endpoint, value: Endpoint)
    | SendElected(to: Endpoint, value: Endpoint)

  /** Either the process exits (it is missing from its own list), or it goes on, possibly
      sending one message and registering a primary with the DNS. */
  datatype Reaction =
    | Exit
    | Continue(node: Node, out: Outgoing, register: Option<Endpoint>)

  function Initiate(n: Node, failed: Endpoint): Reaction {
    var kept := Without(n.servers, failed);
    if n.self.kind == Primary || |kept| == |n.servers| then Continue(n, Quiet, None)
    else match NextServer(kept, n.self.at)
      case None => Exit
      case Some(next) => Continue(n.(servers := kept), SendElection(next, n.self.at), None)
  }

  function OnElection(n: Node, value: Endpoint): Reaction {
    var kept := Backups(n.servers);
    match NextServer(kept, n.self.at)
    case None => Exit
    case Some(next) =>
      if n.self.at == value then
        Continue(Node(n.self.(kind := Primary), Promote(kept, n.self.at)),
                 SendElected(next, n.self.at), Some(n.self.at))
      else
        Continue(n.(servers := kept),
                 SendElection(next, if Greater(n.self.at, value) then n.self.at else value), None)
  }

  /** `fetched` is the list the winner delivered, or None when the fetch failed. */
  function OnElected(n: Node, winner: Endpoint, fetched: Option<seq<Server>>): Reaction {
    if n.self.at == winner then Continue(n, Quiet, None)
    else
      var servers := if fetched.Some? then fetched.value else n.servers;
      match NextServer(servers, n.self.at)
      case None => Exit
      case Some(next) => Continue(n.(servers := servers), SendElected(next, winner), None)
  }

  /** The list a server has after a notice: the one fetched, or its own if none came. */
  function ListAfter(n: Node, fetched: Option<seq<Server>>): seq<Server> {
    match fetched
    case Some(list) => list
    case None => n.servers
  }

  /** What a notice does: the winner drops it; another server takes over the list fetched, or keeps its own, and
      passes the notice on to the server after its first entry there, or exits if it has none. */
  lemma NoticeFate(n: Node, winner: Endpoint, fetched: Option<seq<Server>>)
    ensures var r, list := OnElected(n, winner, fetched), ListAfter(n, fetched);
      var k := IndexFrom(list, n.self.at, 0);
      r == if n.self.at == winner then Continue(n, Quiet, None)
           else if k == |list| then Exit
           else Continue(Node(n.self, list), SendElected(list[(k + 1) % |list|].at, winner), None)
  {
    var list := ListAfter(n, fetched);
    var k := IndexFrom(list, n.self.at, 0);
    if k < |list| {
      SuccIsModulo(|list|, k);
    }
  }

  /** What a suspicion does: a primary, and a server that does not list the suspected one, does nothing; another
      exits exactly when it lists itself under no other endpoint than the suspected one, and else drops it and
      sends its own identity to its successor. */
  lemma SuspicionFate(n: Node, failed: Endpoint)
    ensures var r, kept := Initiate(n, failed), Without(n.servers, failed);
      if n.self.kind == Primary || forall s :: s in n.servers ==> s.at != failed then r == Continue(n, Quiet, None)
      else if forall s :: s in n.servers && s.at == n.self.at ==> s.at == failed then r == Exit
      else
        && r.Continue? && r.node == n.(servers := kept) && r.register == None
        && NextServer(kept, n.self.at).Some?
        && r.out == SendElection(NextServer(kept, n.self.at).value, n.self.at)
  {
    var kept := Without(n.servers, failed);
    WithoutMembers(n.servers, failed);
    ListsIff(n.servers, failed);
    ListsIff(kept, n.self.at);
    if Lists(n.servers, failed) {
      assert n.servers[IndexFrom(n.servers, failed, 0)] in n.servers;
    }
    if Lists(kept, n.self.at) {
      assert kept[IndexFrom(kept, n.self.at, 0)] in kept;
    }
  }

  /** A token that reaches a server already marked primary in its own list ends that process:
      the handler strips the server's own entry before looking for its successor. */
  lemma ElectedServerExitsOnToken(n: Node, value: Endpoint)
    ensures OnElection(n, value).Exit? <==>
            forall s :: s in n.servers && s.at == n.self.at ==> s.kind == Primary
  {
    var kept := Backups(n.servers);
    BackupsMembers(n.servers);
    ListsIff(kept, n.self.at);
    if Lists(kept, n.self.at) {
      assert kept[IndexFrom(kept, n.self.at, 0)] in kept;
    } else {
      forall s | s in n.servers && s.at == n.self.at ensures s.kind == Primary {
        assert s in kept <==> s.kind == Backup;
      }
    }
  }

  class ElectionServer {
    var current: Server
    var servers: seq<Server>

    constructor (at: Endpoint, kind: ServerType)
      ensures current == Server(at, kind) && servers == [Server(at, kind)]
    {
      current := Server(at, kind);
      servers := [Server(at, kind)];
    }

    ghost function View(): Node
      reads this
    {
      Node(current, servers)
    }

    ghost function Outcome(alive: bool, out: Outgoing, register: Option<Endpoint>): Reaction
      reads this
    {
      if alive then Continue(View(), out, register) else Exit
    }

    method GetNextServer(self: Endpoint) returns (next: Option<Endpoint>)
      ensures next == NextServer(servers, self)
    {
      var k := |servers|;
      var i := 0;
      while i < |servers|
        invariant 0 <= i <= |servers| && k == |servers|
        invariant IndexFrom(servers, self, 0) == IndexFrom(servers, self, i)
      {
        if servers[i].at == self {
          k := i;
          break;
        }
        i := i + 1;
      }
      if k == |servers| {
        return None;
      }
      SuccIsModulo(|servers|, k);
      next := Some(servers[(k + 1) % |servers|].at);
    }

    method InitiateElection(failed: Endpoint) returns (alive: bool, out: Outgoing)
      modifies this`servers
      ensures Outcome(alive, out, None) == Initiate(old(View()), failed)
    {
      if current.kind == Primary {
        return true, Quiet;
      }
      var kept := [];
      for i := 0 to |servers|
        invariant kept == Without(servers[..i], failed)
      {
        assert servers[..i + 1][..i] == servers[..i];
        if servers[i].at != failed {
          kept := kept + [servers[i]];
        }
      }
      assert servers[..|servers|] == servers;
      if |kept| == |servers| {
        return true, Quiet;
      }
      servers := kept;
      var next := GetNextServer(current.at);
      if next.None? {
        return false, Quiet;
      }
      return true, SendElection(next.value, current.at);
    }

    /** The server and its entry become primary; then the DNS is told, and the process exits when it cannot
        be. */
    method SetElected(dnsAnswers: bool) returns (alive: bool, register: Option<Endpoint>)
      modifies this
      ensures current == old(current).(kind := Primary)
      ensures servers == Promote(old(servers), current.at)
      ensures alive == dnsAnswers && register == if dnsAnswers then Some(current.at) else None
    {
      current := Server(current.at, Primary);
      var i := 0;
      while i < |servers|
        invariant 0 <= i <= |servers| && servers == old(servers)
        invariant current == old(current).(kind := Primary)
        invariant IndexFrom(servers, current.at, 0) == IndexFrom(servers, current.at, i)
      {
        if servers[i].at == current.at {
          servers := servers[i := Server(servers[i].at, Primary)];
          break;
        }
        i := i + 1;
      }
      alive := dnsAnswers;
      register := if dnsAnswers then Some(current.at) else None;
    }

    method HandleElection(value: Endpoint, dnsAnswers: bool)
      returns (alive: bool, out: Outgoing, register: Option<Endpoint>)
      modifies this
      ensures var r := OnElection(old(View()), value);
        Outcome(alive, out, register) == if r.Continue? && r.register.Some? && !dnsAnswers then Exit else r
    {
      register := None;
      var kept := [];
      for i := 0 to |servers|
        invariant kept == Backups(servers[..i])
      {
        assert servers[..i + 1][..i] == servers[..i];
        if servers[i].kind != Primary {
          kept := kept + [servers[i]];
        }
      }
      assert servers[..|servers|] == servers;
      servers := kept;
      var next := GetNextServer(current.at);
      if next.None? {
        return false, Quiet, None;
      }
      if current.at == value {
        alive, register := SetElected(dnsAnswers);
        return alive, if alive then SendElected(next.value, current.at) else Quiet, register;
      }
      if Greater(current.at, value) {
        return true, SendElection(next.value, current.at), None;
      } else {
        return true, SendElection(next.value, value), None;
      }
    }

    /** `updateElected`: an answer replaces the list, a failed fetch leaves it. */
    method UpdateElected(fetched: Option<seq<Server>>) returns (ok: bool)
      modifies this`servers
      ensures ok == fetched.Some?
      ensures servers == if ok then fetched.value else old(servers)
    {
      if fetched.None? {
        return false;
      }
      servers := [];
      for i := 0 to |fetched.value|
        invariant servers == fetched.value[..i]
      {
        servers := servers + [fetched.value[i]];
      }
      ok := true;
    }

    method HandleElected(winner: Endpoint, fetched: Option<seq<Server>>)
      returns (alive: bool, out: Outgoing)
      modifies this`servers
      ensures Outcome(alive, out, None) == OnElected(old(View()), winner, fetched)
    {
      if current.at == winner {
        return true, Quiet;
      }
      var ok := UpdateElected(fetched);
      var next := GetNextServer(current.at);
      if next.None? {
        return false, Quiet;
      }
      return true, SendElected(next.value, winner);
    }
  }
}
