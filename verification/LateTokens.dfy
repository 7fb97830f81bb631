/** Why the failover result needs a single initiator: a token still in flight when a server is
    elected ends that server as soon as it arrives there. */
module LateTokens {
  import opened Basics
  import opened Servers
  import opened ElectionServer
  import opened Ring
  import opened RingSafety
  import opened TokenCount

  /** The one winner so far, if still running, is marked primary wherever it lists itself, and
      every elected message in flight names it. */
  ghost predicate LeaderMarked(w: World) {
    && (forall e :: e in w.nodes ==> w.nodes[e].self.at == e)
    && (w.winners == [] ==> w.notices == multiset{})
    && (|w.winners| == 1 ==>
          && (forall m :: m in w.notices ==> m.value == w.winners[0])
          && (w.winners[0] in w.nodes ==> OnlyAsPrimary(w.nodes[w.winners[0]])))
  }

  ghost predicate OnlyAsPrimary(n: Node) {
    forall s :: s in n.servers && s.at == n.self.at ==> s.kind == Primary
  }

  lemma ElectedIsMarked(n: Node, value: Endpoint)
    requires n.self.at == value && OnElection(n, value).Continue? && Distinct(Backups(n.servers))
    ensures OnlyAsPrimary(OnElection(n, value).node)
  {
    var kept := Backups(n.servers);
    var k := IndexFrom(kept, value, 0);
    DistinctIff(kept);
  }

  lemma ReactKeepsMark(w: World, at: Endpoint, r: Reaction)
    requires LeaderMarked(w) && |w.winners| == 1 && at in w.nodes
    requires r.Continue? ==> r.node.self.at == at
    requires r.Continue? && at == w.winners[0] ==> OnlyAsPrimary(r.node)
    requires r.Continue? && r.out.SendElected? ==> r.register.Some? || r.out.value == w.winners[0]
    ensures LeaderMarked(React(w, at, r))
  {
  }

  lemma ElectionMarks(ring: seq<Server>, failed: Endpoint, w: World, m: Message)
    requires LeaderMarked(w) && w.winners == [] && Enabled(w, DeliverToken(m)) && m.to == m.value
    requires Distinct(ring) && TokenCovers(ring, m)
    requires w.nodes[m.to].self == Server(m.to, Backup) && Backups(w.nodes[m.to].servers) == ring
    ensures LeaderMarked(Next(failed, w, DeliverToken(m)))
  {
    TokenStep(ring, w.nodes[m.to], m);
    ElectedIsMarked(w.nodes[m.to], m.value);
    var r := OnElection(w.nodes[m.to], m.value);
    assert r.register == Some(m.to) && r.node.self.at == m.to && r.out.value == m.to;
    var w' := Next(failed, w, DeliverToken(m));
    assert w'.winners == [m.to];
    assert w'.nodes[m.to] == r.node;
  }

  lemma UndecidedIsMarked(servers: seq<Server>, ring: seq<Server>, failed: Endpoint, w: World)
    requires Undecided(servers, ring, failed, w)
    ensures LeaderMarked(w)
  {
  }

  lemma NobodyElectedBy(servers: seq<Server>, ring: seq<Server>, failed: Endpoint, w: World, a: Action)
    requires RingOf(servers, failed, ring) && Undecided(servers, ring, failed, w)
    requires Enabled(w, a) && !(a.DeliverToken? && a.m.to == a.m.value)
    ensures Next(failed, w, a).winners == []
  {
    hide NextServer, Backups, Without, Promote, Greater;
    if a.DeliverToken? {
      TokenStep(ring, w.nodes[a.m.to], a.m);
    }
  }

  lemma FirstElectionMarks(servers: seq<Server>, ring: seq<Server>, failed: Endpoint, w: World, a: Action)
    requires RingOf(servers, failed, ring) && Undecided(servers, ring, failed, w) && Enabled(w, a)
    ensures LeaderMarked(Next(failed, w, a))
  {
    UndecidedIsMarked(servers, ring, failed, w);
    if a.DeliverToken? && a.m.to == a.m.value {
      ElectionMarks(ring, failed, w, a.m);
    } else {
      hide Next, LeaderMarked;
      NobodyElectedBy(servers, ring, failed, w, a);
      StepIsSafe(servers, ring, failed, w, a);
      UndecidedIsMarked(servers, ring, failed, Next(failed, w, a));
    }
  }

  lemma SuspectKeepsMark(failed: Endpoint, w: World, at: Endpoint)
    requires LeaderMarked(w) && |w.winners| == 1 && Enabled(w, Suspect(at))
    ensures LeaderMarked(Next(failed, w, Suspect(at)))
  {
    hide NextServer, Without, Backups, Promote, Transfer, Greater;
    WithoutMembers(w.nodes[at].servers, failed);
    ReactKeepsMark(w, at, Initiate(w.nodes[at], failed));
  }

  lemma TokenKeepsMark(failed: Endpoint, w: World, m: Message)
    requires LeaderMarked(w) && |w.winners| == 1 && Enabled(w, DeliverToken(m))
    ensures LeaderMarked(Next(failed, w, DeliverToken(m)))
  {
    hide NextServer, Without, Backups, Promote, Transfer, Greater;
    ElectedServerExitsOnToken(w.nodes[m.to], m.value);
    ReactKeepsMark(w.(tokens := w.tokens - multiset{m}), m.to, OnElection(w.nodes[m.to], m.value));
  }

  lemma NoticeKeepsMark(failed: Endpoint, w: World, m: Message, reachable: bool)
    requires LeaderMarked(w) && |w.winners| == 1 && Enabled(w, DeliverNotice(m, reachable))
    ensures LeaderMarked(Next(failed, w, DeliverNotice(m, reachable)))
  {
    hide NextServer, Without, Backups, Promote, Transfer, Greater;
    ReactKeepsMark(w.(notices := w.notices - multiset{m}), m.to,
                   OnElected(w.nodes[m.to], m.value, Fetch(w, m.value, reachable)));
  }

  lemma StepKeepsMark(failed: Endpoint, w: World, a: Action)
    requires LeaderMarked(w) && |w.winners| == 1 && Enabled(w, a)
    ensures LeaderMarked(Next(failed, w, a))
  {
    hide OnlyAsPrimary, React;
    match a
    case Suspect(at) => SuspectKeepsMark(failed, w, at);
    case DeliverToken(m) => TokenKeepsMark(failed, w, m);
    case DeliverNotice(m, reachable) => NoticeKeepsMark(failed, w, m, reachable);
    case LoseToken(_) =>
    case LoseNotice(_) =>
  }

  lemma {:induction false} RunKeepsMark(servers: seq<Server>, ring: seq<Server>, failed: Endpoint, w: World,
          actions: seq<Action>)
    requires RingOf(servers, failed, ring) && Safe(servers, ring, failed, w) && LeaderMarked(w)
    requires Run(failed, w, actions) && |After(failed, w, actions).winners| <= 1
    ensures LeaderMarked(After(failed, w, actions))
    decreases |actions|
  {
    if actions != [] {
      var a := actions[0];
      WinnersGrow(failed, w, actions);
      WinnersGrow(failed, Next(failed, w, a), actions[1..]);
      StepIsSafe(servers, ring, failed, w, a);
      if w.winners == [] {
        FirstElectionMarks(servers, ring, failed, w, a);
      } else {
        StepKeepsMark(failed, w, a);
      }
      RunKeepsMark(servers, ring, failed, Next(failed, w, a), actions[1..]);
    }
  }

  /** In every run from agreed views with one election so far, delivering any further token to the
      elected server ends it: it strips its own entry and cannot find its successor. */
  lemma LateTokenStopsLeader(servers: seq<Server>, failed: Endpoint, w: World, actions: seq<Action>, m: Message)
    requires Agreed(servers, failed) && Start(servers, failed, w) && Run(failed, w, actions)
    requires After(failed, w, actions).winners == [m.to] && Enabled(After(failed, w, actions), DeliverToken(m))
    ensures m.to !in Next(failed, After(failed, w, actions), DeliverToken(m)).nodes
  {
    hide Run, After, Agreed;
    var w' := After(failed, w, actions);
    AgreedGivesRing(servers, failed);
    RunKeepsMark(servers, Backups(servers), failed, w, actions);
    ElectedServerExitsOnToken(w'.nodes[m.to], m.value);
  }

  lemma AppendBackup(front: seq<Server>, s: Server)
    requires s.kind == Backup
    ensures Backups(front + [s]) == Backups(front) + [s]
  {
    assert (front + [s])[..|front|] == front;
  }

  lemma Prepend(failed: Endpoint, w: World, a: Action, rest: seq<Action>)
    requires Enabled(w, a) && Run(failed, Next(failed, w, a), rest)
    ensures Run(failed, w, [a] + rest) && After(failed, w, [a] + rest) == After(failed, Next(failed, w, a), rest)
  {
    assert ([a] + rest)[1..] == rest;
  }

  const A := Endpoint(1, 1)
  const B := Endpoint(2, 1)
  const OLD := Endpoint(3, 1)
  const THREE := [Server(OLD, Primary), Server(A, Backup), Server(B, Backup)]
  const PAIR := [Server(A, Backup), Server(B, Backup)]

  lemma PairFacts()
    ensures Agreed(THREE, OLD) && RingOf(THREE, OLD, PAIR) && Members(PAIR) == {A, B}
    ensures NextServer(PAIR, A) == Some(B) && NextServer(PAIR, B) == Some(A)
  {
    DistinctIff(THREE);
    assert Server(OLD, Primary) == THREE[0];
    AppendBackup([Server(OLD, Primary)], Server(A, Backup));
    AppendBackup([Server(OLD, Primary), Server(A, Backup)], Server(B, Backup));
    AgreedGivesRing(THREE, OLD);
    Successor(PAIR, 0);
    Successor(PAIR, 1);
    assert PAIR[1..] == [Server(B, Backup)];
    assert Members(PAIR[1..]) == {B};
  }

  function PairWorld(a: seq<Server>, b: seq<Server>, tokens: multiset<Message>, starts: seq<Endpoint>,
          sent: nat): World {
    World(map[A := Node(Server(A, Backup), a), B := Node(Server(B, Backup), b)],
          tokens, multiset{}, OLD, starts, [], sent, 0)
  }

  const W0 := PairWorld(THREE, THREE, multiset{}, [], 0)
  const W1 := PairWorld(PAIR, THREE, multiset{Message(B, A)}, [A], 1)
  const W2 := PairWorld(PAIR, PAIR, multiset{Message(B, A), Message(A, B)}, [A, B], 2)
  const W3 := PairWorld(PAIR, PAIR, multiset{Message(B, A), Message(B, B)}, [A, B], 3)

  lemma StepOne()
    ensures Enabled(W0, Suspect(A)) && Next(OLD, W0, Suspect(A)) == W1
  {
    hide Without, NextServer, Backups, Agreed, Members;
    PairFacts();
  }

  lemma SecondStart()
    ensures Initiate(Node(Server(B, Backup), THREE), OLD)
         == Continue(Node(Server(B, Backup), PAIR), SendElection(A, B), None)
  {
    hide Agreed, Members, Without, NextServer;
    PairFacts();
  }

  lemma TokensAfterTwo()
    ensures W1.tokens + TokensIn(SendElection(A, B)) == W2.tokens && |TokensIn(SendElection(A, B))| == 1
  {
  }

  lemma StepTwo()
    ensures Enabled(W1, Suspect(B)) && Next(OLD, W1, Suspect(B)) == W2
  {
    hide Initiate, Without, NextServer, TokensIn;
    SecondStart();
    TokensAfterTwo();
    assert W1.nodes[B := Node(Server(B, Backup), PAIR)] == W2.nodes;
  }

  /** The smaller server passes the greater one's token on. */
  lemma PassedOn()
    ensures OnElection(Node(Server(A, Backup), PAIR), B)
         == Continue(Node(Server(A, Backup), PAIR), SendElection(B, B), None)
  {
    hide Agreed, Members, Without;
    PairFacts();
  }

  lemma TokensAfterThree()
    ensures W2.tokens - multiset{Message(A, B)} + TokensIn(SendElection(B, B)) == W3.tokens
    ensures |TokensIn(SendElection(B, B))| == 1 && Message(A, B) in W2.tokens
  {
    assert W2.tokens - multiset{Message(A, B)} == multiset{Message(B, A)};
  }

  lemma StepThree()
    ensures Enabled(W2, DeliverToken(Message(A, B))) && Next(OLD, W2, DeliverToken(Message(A, B))) == W3
  {
    hide OnElection, Backups, NextServer, TokensIn;
    PassedOn();
    TokensAfterThree();
    assert W2.nodes[A := Node(Server(A, Backup), PAIR)] == W3.nodes;
  }

  /** The token that came home elects B while A's token is still in flight. */
  lemma StepFour()
    ensures Enabled(W3, DeliverToken(Message(B, B)))
    ensures var w4 := Next(OLD, W3, DeliverToken(Message(B, B)));
      && B in w4.nodes && Message(B, A) in w4.tokens && w4.winners == [B] && w4.dns == B && w4.starts == [A, B]
      && w4.nodes[B].self == Server(B, Primary) && OnlyAsPrimary(w4.nodes[B])
  {
    PairFacts();
    assert W3.tokens - multiset{Message(B, B)} == multiset{Message(B, A)};
    ElectedIsMarked(W3.nodes[B], B);
  }

  lemma StepFive(w4: World)
    requires B in w4.nodes && Message(B, A) in w4.tokens
    requires w4.nodes[B].self == Server(B, Primary) && OnlyAsPrimary(w4.nodes[B])
    ensures Enabled(w4, DeliverToken(Message(B, A)))
    ensures var w5 := Next(OLD, w4, DeliverToken(Message(B, A)));
      B !in w5.nodes && w5.winners == w4.winners && w5.dns == w4.dns && w5.starts == w4.starts
  {
    ElectedServerExitsOnToken(w4.nodes[B], A);
  }

  lemma PairStarts()
    ensures Start(THREE, OLD, W0) && IsHighest(Backups(THREE), B)
  {
    hide Agreed, NextServer;
    PairFacts();
  }

  /** A lossless run from agreed views in which two survivors suspect the primary at once: the
      greatest is elected, and then exits on the other's token while the DNS names it. */
  lemma TwoInitiatorsCanLoseTheLeader() returns (actions: seq<Action>)
    ensures Agreed(THREE, OLD) && Start(THREE, OLD, W0) && Run(OLD, W0, actions) && LosslessRun(actions)
    ensures var w := After(OLD, W0, actions);
      IsHighest(Backups(THREE), B) && |w.starts| == 2 && w.winners == [B] && w.dns == B && B !in w.nodes
  {
    PairFacts();
    PairStarts();
    StepOne();
    StepTwo();
    StepThree();
    StepFour();
    hide Next, Enabled, Agreed, RingOf, Start, IsHighest, Backups, Members, NextServer;
    var w4 := Next(OLD, W3, DeliverToken(Message(B, B)));
    StepFive(w4);
    var rest := [DeliverToken(Message(B, A))];
    Prepend(OLD, w4, DeliverToken(Message(B, A)), []);
    assert rest == rest + [];
    Prepend(OLD, W3, DeliverToken(Message(B, B)), rest);
    rest := [DeliverToken(Message(B, B))] + rest;
    Prepend(OLD, W2, DeliverToken(Message(A, B)), rest);
    rest := [DeliverToken(Message(A, B))] + rest;
    Prepend(OLD, W1, Suspect(B), rest);
    rest := [Suspect(B)] + rest;
    Prepend(OLD, W0, Suspect(A), rest);
    actions := [Suspect(A)] + rest;
  }
}
