/** Token conservation: how many elections one crash can start, and how many tokens can circulate. */
module TokenCount {
  import opened Basics
  import opened Servers
  import opened ElectionServer
  import opened Ring
  import opened RingSafety

  ghost predicate NoRepeats(s: seq<Endpoint>) {
    forall i, j :: 0 <= i < j < |s| ==> s[i] != s[j]
  }

  ghost predicate Dropped(n: Node, failed: Endpoint) { !Lists(n.servers, failed) }

  /** Each server still holds the agreed list or has dropped the failed primary for good;
      those that started an election, or whose list may be fetched, have dropped it. */
  ghost predicate Dropping(servers: seq<Server>, failed: Endpoint, w: World) {
    && (forall e :: e in w.nodes ==> w.nodes[e].self.at == e)
    && (forall e :: e in w.nodes ==> w.nodes[e].servers == servers || Dropped(w.nodes[e], failed))
    && (forall e :: e in w.nodes && e in w.starts ==> Dropped(w.nodes[e], failed))
    && (forall m :: m in w.notices && m.value in w.nodes ==> Dropped(w.nodes[m.value], failed))
  }

  lemma DroppedIsGone(list: seq<Server>, failed: Endpoint)
    ensures !Lists(Without(list, failed), failed)
  {
    WithoutMembers(list, failed);
    var kept := Without(list, failed);
    ListsIff(kept, failed);
    forall k | 0 <= k < |kept| ensures kept[k].at != failed {
      assert kept[k] in kept;
    }
  }

  lemma BackupsListLess(list: seq<Server>, failed: Endpoint)
    requires !Lists(list, failed)
    ensures !Lists(Backups(list), failed)
  {
    BackupsMembers(list);
    var kept := Backups(list);
    ListsIff(list, failed);
    ListsIff(kept, failed);
    forall k | 0 <= k < |kept| ensures kept[k].at != failed {
      assert kept[k] in list;
    }
  }

  lemma FilteredListsLess(list: seq<Server>, e: Endpoint, failed: Endpoint)
    ensures !Lists(Without(list, failed), failed)
    ensures !Lists(list, failed) ==> !Lists(Backups(list), failed)
    ensures !Lists(list, failed) ==> !Lists(Promote(list, e), failed)
    ensures !Lists(list, failed) ==> !Lists(Transfer(list), failed)
  {
    hide Lists;
    DroppedIsGone(list, failed);
    if !Lists(list, failed) {
      BackupsListLess(list, failed);
      ListsIff(list, failed);
      ListsIff(Promote(list, e), failed);
      ListsIff(Transfer(list), failed);
    }
  }

  /** A server that has dropped the failed primary ignores every later suspicion of it;
      any other drops it, and if it goes on it sends its own token. */
  lemma InitiateDrops(n: Node, failed: Endpoint)
    ensures var r := Initiate(n, failed);
      if Dropped(n, failed) || n.self.kind == Primary then r == Continue(n, Quiet, None)
      else r.Continue? ==> r.node.self == n.self && Dropped(r.node, failed) && r.out.SendElection?
  {
    WithoutMembers(n.servers, failed);
    FilteredListsLess(n.servers, n.self.at, failed);
  }

  lemma OnElectionDrops(n: Node, value: Endpoint, failed: Endpoint)
    requires Dropped(n, failed) || !Lists(Backups(n.servers), failed)
    ensures var r := OnElection(n, value); r.Continue? ==>
      && r.node.self.at == n.self.at && Dropped(r.node, failed)
      && (r.out.SendElected? ==> r.out.value == n.self.at)
  {
    FilteredListsLess(n.servers, n.self.at, failed);
    FilteredListsLess(Backups(n.servers), n.self.at, failed);
  }

  lemma ReactKeepsDropping(servers: seq<Server>, failed: Endpoint, w: World, at: Endpoint, r: Reaction)
    requires Dropping(servers, failed, w) && at in w.nodes
    requires r.Continue? ==> r.node.self.at == at && (r.node == w.nodes[at] || Dropped(r.node, failed))
    requires r.Continue? && r.out.SendElected? ==>
      if r.out.value == at then Dropped(r.node, failed)
      else r.out.value in w.nodes ==> Dropped(w.nodes[r.out.value], failed)
    ensures Dropping(servers, failed, React(w, at, r))
  {
  }

  lemma SuspectKeepsDropping(servers: seq<Server>, failed: Endpoint, w: World, at: Endpoint)
    requires Dropping(servers, failed, w) && Enabled(w, Suspect(at))
    ensures Dropping(servers, failed, Next(failed, w, Suspect(at)))
  {
    InitiateDrops(w.nodes[at], failed);
    var w' := React(w, at, Initiate(w.nodes[at], failed));
    ReactKeepsDropping(servers, failed, w, at, Initiate(w.nodes[at], failed));
    assert Dropping(servers, failed, w');
  }

  lemma TokenKeepsDropping(servers: seq<Server>, failed: Endpoint, w: World, m: Message)
    requires Dropping(servers, failed, w) && Enabled(w, DeliverToken(m)) && !Lists(Backups(servers), failed)
    ensures Dropping(servers, failed, Next(failed, w, DeliverToken(m)))
  {
    OnElectionDrops(w.nodes[m.to], m.value, failed);
    ReactKeepsDropping(servers, failed, w.(tokens := w.tokens - multiset{m}), m.to,
                       OnElection(w.nodes[m.to], m.value));
  }

  lemma NoticeKeepsDropping(servers: seq<Server>, failed: Endpoint, w: World, m: Message, reachable: bool)
    requires Dropping(servers, failed, w) && Enabled(w, DeliverNotice(m, reachable))
    ensures Dropping(servers, failed, Next(failed, w, DeliverNotice(m, reachable)))
  {
    if m.value in w.nodes {
      FilteredListsLess(w.nodes[m.value].servers, m.to, failed);
    }
    ReactKeepsDropping(servers, failed, w.(notices := w.notices - multiset{m}), m.to,
                       OnElected(w.nodes[m.to], m.value, Fetch(w, m.value, reachable)));
  }

  lemma StepKeepsDropping(servers: seq<Server>, failed: Endpoint, w: World, a: Action)
    requires Dropping(servers, failed, w) && Enabled(w, a) && !Lists(Backups(servers), failed)
    ensures Dropping(servers, failed, Next(failed, w, a))
  {
    match a
    case Suspect(at) => SuspectKeepsDropping(servers, failed, w, at);
    case DeliverToken(m) => TokenKeepsDropping(servers, failed, w, m);
    case DeliverNotice(m, reachable) => NoticeKeepsDropping(servers, failed, w, m, reachable);
    case LoseToken(_) =>
    case LoseNotice(_) =>
  }

  lemma ReactCounts(w: World, at: Endpoint, r: Reaction)
    ensures React(w, at, r).starts == w.starts
    ensures |React(w, at, r).tokens| == |w.tokens| + if r.Continue? && r.out.SendElection? then 1 else 0
  {
  }

  /** A suspicion adds a start and a token together, or neither; no survivor starts twice. */
  lemma SuspectCounts(servers: seq<Server>, failed: Endpoint, w: World, at: Endpoint)
    requires Dropping(servers, failed, w) && Enabled(w, Suspect(at)) && NoRepeats(w.starts)
    ensures var w' := Next(failed, w, Suspect(at));
      NoRepeats(w'.starts) && |w'.tokens| - |w.tokens| == |w'.starts| - |w.starts|
  {
    var r := Initiate(w.nodes[at], failed);
    InitiateDrops(w.nodes[at], failed);
    ReactCounts(w, at, r);
    assert at in w.starts ==> Dropped(w.nodes[at], failed);
  }

  /** Any other step starts nothing and never adds a token. */
  lemma DeliveryCounts(failed: Endpoint, w: World, a: Action)
    requires Enabled(w, a) && !a.Suspect?
    ensures var w' := Next(failed, w, a); w'.starts == w.starts && |w'.tokens| <= |w.tokens|
  {
    if a.DeliverToken? {
      ReactCounts(w.(tokens := w.tokens - multiset{a.m}), a.m.to, OnElection(w.nodes[a.m.to], a.m.value));
    } else if a.DeliverNotice? {
      ReactCounts(w.(notices := w.notices - multiset{a.m}), a.m.to,
                  OnElected(w.nodes[a.m.to], a.m.value, Fetch(w, a.m.value, a.reachable)));
    }
  }

  /** Before anyone is elected, every token delivery that elects nobody sends exactly one token on. */
  lemma TokenPassedOn(servers: seq<Server>, ring: seq<Server>, failed: Endpoint, w: World, m: Message)
    requires RingOf(servers, failed, ring) && Undecided(servers, ring, failed, w)
    requires Enabled(w, DeliverToken(m)) && Next(failed, w, DeliverToken(m)).winners == []
    ensures |Next(failed, w, DeliverToken(m)).tokens| == |w.tokens|
  {
    TokenStep(ring, w.nodes[m.to], m);
    ReactCounts(w.(tokens := w.tokens - multiset{m}), m.to, OnElection(w.nodes[m.to], m.value));
  }

  lemma StepCounts(servers: seq<Server>, failed: Endpoint, w: World, a: Action)
    requires Dropping(servers, failed, w) && Enabled(w, a) && NoRepeats(w.starts) && |w.tokens| <= |w.starts|
    ensures NoRepeats(Next(failed, w, a).starts) && |Next(failed, w, a).tokens| <= |Next(failed, w, a).starts|
  {
    if a.Suspect? {
      SuspectCounts(servers, failed, w, a.at);
    } else {
      DeliveryCounts(failed, w, a);
    }
  }

  lemma StepConserves(servers: seq<Server>, ring: seq<Server>, failed: Endpoint, w: World, a: Action)
    requires RingOf(servers, failed, ring) && Undecided(servers, ring, failed, w)
    requires Dropping(servers, failed, w) && NoRepeats(w.starts)
    requires Enabled(w, a) && Next(failed, w, a).winners == []
    ensures var w' := Next(failed, w, a);
      |w'.tokens| + (if a.LoseToken? then 1 else 0) - |w'.starts| == |w.tokens| - |w.starts|
  {
    if a.Suspect? {
      SuspectCounts(servers, failed, w, a.at);
    } else if a.DeliverToken? {
      DeliveryCounts(failed, w, a);
      TokenPassedOn(servers, ring, failed, w, a.m);
    }
  }

  function TokensLost(actions: seq<Action>): nat {
    if actions == [] then 0 else (if actions[0].LoseToken? then 1 else 0) + TokensLost(actions[1..])
  }

  lemma {:induction false} RunCounts(servers: seq<Server>, failed: Endpoint, w: World, actions: seq<Action>)
    requires !Lists(Backups(servers), failed) && Run(failed, w, actions) && Dropping(servers, failed, w)
    requires NoRepeats(w.starts) && |w.tokens| <= |w.starts|
    ensures var w' := After(failed, w, actions); NoRepeats(w'.starts) && |w'.tokens| <= |w'.starts|
    decreases |actions|
  {
    if actions != [] {
      StepKeepsDropping(servers, failed, w, actions[0]);
      StepCounts(servers, failed, w, actions[0]);
      RunCounts(servers, failed, Next(failed, w, actions[0]), actions[1..]);
    }
  }

  lemma {:induction false} WinnersGrow(failed: Endpoint, w: World, actions: seq<Action>)
    requires Run(failed, w, actions)
    ensures w.winners <= After(failed, w, actions).winners && w.starts <= After(failed, w, actions).starts
    decreases |actions|
  {
    if actions != [] {
      LogsGrow(failed, w, actions[0]);
      WinnersGrow(failed, Next(failed, w, actions[0]), actions[1..]);
    }
  }

  lemma {:induction false} RunConserves(servers: seq<Server>, ring: seq<Server>, failed: Endpoint, w: World,
          actions: seq<Action>)
    requires RingOf(servers, failed, ring) && !Lists(ring, failed) && Run(failed, w, actions)
    requires Undecided(servers, ring, failed, w) && Dropping(servers, failed, w)
    requires NoRepeats(w.starts) && |w.tokens| <= |w.starts| && After(failed, w, actions).winners == []
    ensures var w' := After(failed, w, actions);
      |w'.tokens| + TokensLost(actions) - |w'.starts| == |w.tokens| - |w.starts|
    decreases |actions|
  {
    if actions != [] {
      var a := actions[0];
      WinnersGrow(failed, Next(failed, w, a), actions[1..]);
      StepKeepsDropping(servers, failed, w, a);
      StepIsSafe(servers, ring, failed, w, a);
      StepCounts(servers, failed, w, a);
      StepConserves(servers, ring, failed, w, a);
      RunConserves(servers, ring, failed, Next(failed, w, a), actions[1..]);
    }
  }

  /** Token conservation, in every run from agreed views: no survivor starts two elections for the
      crash; tokens in flight never outnumber the survivors that started one; and while nobody is elected,
      the tokens in flight and those lost are exactly that many. */
  lemma TokensAreConserved(servers: seq<Server>, failed: Endpoint, w: World, actions: seq<Action>)
    requires Agreed(servers, failed) && Start(servers, failed, w) && Run(failed, w, actions)
    ensures var w' := After(failed, w, actions);
      && NoRepeats(w'.starts) && |w'.tokens| <= |w'.starts|
      && (w'.winners == [] ==> |w'.tokens| + TokensLost(actions) == |w'.starts|)
  {
    AgreedGivesRing(servers, failed);
    RunCounts(servers, failed, w, actions);
    if After(failed, w, actions).winners == [] {
      RunConserves(servers, Backups(servers), failed, w, actions);
    }
  }

  /** How many election messages, and how many elected messages, were delivered or lost. */
  function TokensGone(actions: seq<Action>): nat {
    if actions == [] then 0
    else (if actions[0].DeliverToken? || actions[0].LoseToken? then 1 else 0) + TokensGone(actions[1..])
  }

  function NoticesGone(actions: seq<Action>): nat {
    if actions == [] then 0
    else (if actions[0].DeliverNotice? || actions[0].LoseNotice? then 1 else 0) + NoticesGone(actions[1..])
  }

  lemma ReactSends(w: World, at: Endpoint, r: Reaction)
    ensures var w' := React(w, at, r);
      && |w'.tokens| - |w.tokens| == w'.tokensSent - w.tokensSent
      && |w'.notices| - |w.notices| == w'.noticesSent - w.noticesSent
  {
  }

  lemma StepSends(failed: Endpoint, w: World, a: Action)
    requires Enabled(w, a)
    ensures var w' := Next(failed, w, a);
      && |w'.tokens| + TokensGone([a]) - |w.tokens| == w'.tokensSent - w.tokensSent
      && |w'.notices| + NoticesGone([a]) - |w.notices| == w'.noticesSent - w.noticesSent
  {
    hide React, Initiate, OnElection, OnElected;
    match a
    case Suspect(at) => ReactSends(w, at, Initiate(w.nodes[at], failed));
    case DeliverToken(m) =>
      ReactSends(w.(tokens := w.tokens - multiset{m}), m.to, OnElection(w.nodes[m.to], m.value));
    case DeliverNotice(m, reachable) =>
      ReactSends(w.(notices := w.notices - multiset{m}), m.to,
                 OnElected(w.nodes[m.to], m.value, Fetch(w, m.value, reachable)));
    case LoseToken(_) =>
    case LoseNotice(_) =>
  }

  /** In any run from any state, every message sent is in flight, was delivered, or was lost. */
  lemma {:induction false} MessagesAreConserved(failed: Endpoint, w: World, actions: seq<Action>)
    requires Run(failed, w, actions)
    ensures var w' := After(failed, w, actions);
      && |w'.tokens| + TokensGone(actions) == |w.tokens| + (w'.tokensSent - w.tokensSent)
      && |w'.notices| + NoticesGone(actions) == |w.notices| + (w'.noticesSent - w.noticesSent)
    decreases |actions|
  {
    if actions != [] {
      StepSends(failed, w, actions[0]);
      assert TokensGone(actions) == TokensGone([actions[0]]) + TokensGone(actions[1..]);
      assert NoticesGone(actions) == NoticesGone([actions[0]]) + NoticesGone(actions[1..]);
      MessagesAreConserved(failed, Next(failed, w, actions[0]), actions[1..]);
    }
  }

  // ------------------------------------------------------------------ what becomes of each start

  /** Each election started has a token in flight, elected somebody, or cost a server its life; and
      without a start nothing is in flight and nobody elected. `n` servers were there at first. */
  ghost predicate StartsAccounted(w: World, n: nat) {
    && |w.starts| <= |w.tokens| + |w.winners| + n - |w.nodes|
    && (w.starts == [] ==> w.tokens == multiset{} && w.winners == [])
  }

  /** Whatever went before, a token delivered is sent on as exactly one token, elects its target, or ends it. */
  lemma TokenFate(failed: Endpoint, w: World, m: Message)
    requires Enabled(w, DeliverToken(m))
    ensures var w' := Next(failed, w, DeliverToken(m));
      || (|w'.tokens| == |w.tokens| && w'.winners == w.winners && |w'.nodes| == |w.nodes|)
      || (|w'.tokens| == |w.tokens| - 1 && w'.winners == w.winners + [m.value]
          && m.value == w.nodes[m.to].self.at && |w'.nodes| == |w.nodes|)
      || (|w'.tokens| == |w.tokens| - 1 && w'.winners == w.winners && |w'.nodes| == |w.nodes| - 1)
  {
    var w1, r := w.(tokens := w.tokens - multiset{m}), OnElection(w.nodes[m.to], m.value);
    ReactCounts(w1, m.to, r);
    ReactCountsServers(w1, m.to, r);
  }

  /** A reaction ends one server or none. */
  lemma ReactCountsServers(w: World, at: Endpoint, r: Reaction)
    requires at in w.nodes
    ensures |React(w, at, r).nodes| == |w.nodes| - if r.Exit? then 1 else 0
    ensures |React(w, at, r).winners| == |w.winners| + if r.Continue? && r.register.Some? then 1 else 0
  {
    if r.Exit? {
      assert React(w, at, r).nodes.Keys == w.nodes.Keys - {at};
      assert |w.nodes.Keys - {at}| == |w.nodes.Keys| - 1;
      assert |React(w, at, r).nodes| == |React(w, at, r).nodes.Keys| && |w.nodes| == |w.nodes.Keys|;
    } else {
      assert React(w, at, r).nodes.Keys == w.nodes.Keys;
      assert |React(w, at, r).nodes| == |React(w, at, r).nodes.Keys| && |w.nodes| == |w.nodes.Keys|;
    }
  }

  lemma StepAccountsStarts(failed: Endpoint, w: World, a: Action, n: nat)
    requires StartsAccounted(w, n) && Enabled(w, a) && Lossless(a)
    ensures StartsAccounted(Next(failed, w, a), n)
  {
    hide React, NextServer, Without, Backups, Promote, Transfer, Greater;
    match a
    case Suspect(at) =>
      ReactCounts(w, at, Initiate(w.nodes[at], failed));
      ReactCountsServers(w, at, Initiate(w.nodes[at], failed));
    case DeliverToken(m) =>
      var w1 := w.(tokens := w.tokens - multiset{m});
      ReactCounts(w1, m.to, OnElection(w.nodes[m.to], m.value));
      ReactCountsServers(w1, m.to, OnElection(w.nodes[m.to], m.value));
    case DeliverNotice(m, reachable) =>
      var w1 := w.(notices := w.notices - multiset{m});
      var r := OnElected(w.nodes[m.to], m.value, Fetch(w, m.value, reachable));
      ReactCounts(w1, m.to, r);
      ReactCountsServers(w1, m.to, r);
  }

  lemma {:induction false} RunAccountsStarts(failed: Endpoint, w: World, actions: seq<Action>, n: nat)
    requires StartsAccounted(w, n) && Run(failed, w, actions) && LosslessRun(actions)
    ensures StartsAccounted(After(failed, w, actions), n)
    decreases |actions|
  {
    if actions != [] {
      StepAccountsStarts(failed, w, actions[0], n);
      RunAccountsStarts(failed, Next(failed, w, actions[0]), actions[1..], n);
    }
  }
}
