/** How many deferred requests a server has once everybody has joined: one for every server that joined
    after it. */
module JoinOrder {
  import opened Basics
  import opened Servers
  import opened Membership
  import Coms

  ghost predicate NoRepeats(es: seq<Endpoint>) {
    forall i, j :: 0 <= i < j < |es| ==> es[i] != es[j]
  }

  lemma {:induction false} OthersOnce(list: seq<Server>, e: Endpoint)
    requires forall i, j :: 0 <= i < j < |list| ==> list[i].at != list[j].at
    ensures NoRepeats(Coms.Others(list, e))
  {
    if list != [] {
      var rest := list[1..];
      OthersOnce(rest, e);
      Coms.OthersIff(rest, e);
    }
  }

  /** Nobody who is listed has exited. */
  ghost predicate Intact(c: Cluster)
    requires c.primary in c.nodes
  {
    forall s :: s in PrimaryList(c) ==> s.at in c.nodes && c.nodes[s.at].phase != Gone
  }

  /** The requests a listed server has deferred or is about to. */
  function Pending(c: Cluster, e: Endpoint): nat
    requires e in c.nodes
  {
    c.nodes[e].deferred + if e in c.toNotify then 1 else 0
  }

  ghost predicate Counted(c: Cluster) {
    && ListedOnce(c) && NoRepeats(c.toNotify) && (forall e :: e in c.toNotify ==> e in c.nodes)
    && (forall e :: e in c.nodes && (c.nodes[e].phase.Starting? || c.nodes[e].phase.Told?) ==> Pending(c, e) == 0)
    && (forall k :: 0 < k < |PrimaryList(c)| ==>
      Pending(c, PrimaryList(c)[k].at) == |PrimaryList(c)| - 1 - k)
  }

  lemma GoneStays(c: Cluster, a: Action, e: Endpoint)
    requires Good(c) && Enabled(c, a) && (a.Boot? ==> a.e !in c.nodes)
    requires e in c.nodes && c.nodes[e].phase == Gone
    ensures e in Next(c, a).nodes && Next(c, a).nodes[e].phase == Gone
  {
  }

  lemma IntactBefore(c: Cluster, a: Action)
    requires ListedOnce(c) && Enabled(c, a) && (a.Boot? ==> a.e !in c.nodes)
    requires c.primary in Next(c, a).nodes && Next(c, a).primary == c.primary && Intact(Next(c, a))
    ensures Intact(c)
  {
    hide Next, Enabled;
    StepGrowsAtEnd(c, a);
    forall s | s in PrimaryList(c) ensures s.at in c.nodes && c.nodes[s.at].phase != Gone {
      assert s in PrimaryList(Next(c, a));
      if c.nodes[s.at].phase == Gone {
        GoneStays(c, a, s.at);
      }
    }
  }

  lemma NotifyKeepsPending(c: Cluster, e: Endpoint)
    requires Enabled(c, Notify) && NoRepeats(c.toNotify) && e in c.nodes
    ensures e in Next(c, Notify).nodes && Pending(Next(c, Notify), e) == Pending(c, e)
  {
    assert c.toNotify == [c.toNotify[0]] + c.toNotify[1..];
    assert forall j :: 0 < j < |c.toNotify| ==> c.toNotify[j] != c.toNotify[0];
  }

  /** While nobody who is listed exits, the server being served goes on, and so do the announcements. */
  lemma ServedGoesOn(c: Cluster, a: Action)
    requires Good(c) && Enabled(c, a) && !a.Notify? && !a.Register?
    requires c.primary in Next(c, a).nodes && Next(c, a).primary == c.primary && Intact(Next(c, a))
    requires PrimaryList(Next(c, a)) == PrimaryList(c)
    ensures Next(c, a).toNotify == c.toNotify
  {
    if c.serving.Some? {
      assert Server(c.serving.value, Backup) in PrimaryList(Next(c, a));
    }
  }

  lemma DeferredStays(c: Cluster, a: Action, e: Endpoint)
    requires Enabled(c, a) && (a.Boot? ==> a.e !in c.nodes) && !a.Notify? && !a.Register? && e in c.nodes
    ensures e in Next(c, a).nodes && Next(c, a).nodes[e].deferred == c.nodes[e].deferred
  {
    hide PrimaryOf, Transfer;
  }

  /** Nothing but announcements and registrations changes what is pending for a server that was there. */
  lemma OthersKeepPending(c: Cluster, a: Action, e: Endpoint)
    requires ListedOnce(c) && Enabled(c, a) && (a.Boot? ==> a.e !in c.nodes) && !a.Notify? && !a.Register?
    requires c.primary in Next(c, a).nodes && Next(c, a).primary == c.primary && Intact(Next(c, a))
    requires e in c.nodes
    ensures Next(c, a).toNotify == c.toNotify && e in Next(c, a).nodes && Pending(Next(c, a), e) == Pending(c, e)
  {
    hide Next, Enabled, Good, Intact;
    StepGrowsAtEnd(c, a);
    ServedGoesOn(c, a);
    DeferredStays(c, a, e);
  }

  lemma RegisterCounts(c: Cluster, e: Endpoint)
    requires Counted(c) && Enabled(c, Register(e))
    ensures Counted(Next(c, Register(e)))
  {
    hide Distinct, NoRepeats;
    StepListsOnce(c, Register(e));
    StepGrowsAtEnd(c, Register(e));
    var d := Next(c, Register(e));
    var list, grown := PrimaryList(c), PrimaryList(d);
    DistinctIff(grown);
    OthersOnce(grown, e);
    Coms.OthersIff(grown, e);
    forall x | x in d.nodes && (d.nodes[x].phase.Starting? || d.nodes[x].phase.Told?) ensures Pending(d, x) == 0 {
      assert Pending(c, x) == 0;
      assert Server(x, Backup) in grown ==> Server(x, Backup) in list;
    }
    forall k | 0 < k < |grown| ensures Pending(d, grown[k].at) == |grown| - 1 - k {
      if k < |list| {
        assert grown[k] == list[k] && list[k] in list && list[k].kind == Backup;
        assert Pending(c, list[k].at) == |list| - 1 - k;
      } else {
        assert Pending(c, e) == 0;
      }
    }
  }

  /** A server that has not registered had not registered before. */
  lemma EarlyBefore(c: Cluster, a: Action, e: Endpoint)
    requires Enabled(c, a) && (a.Boot? ==> a.e !in c.nodes) && e in c.nodes && e in Next(c, a).nodes
    requires Next(c, a).nodes[e].phase.Starting? || Next(c, a).nodes[e].phase.Told?
    ensures c.nodes[e].phase.Starting? || c.nodes[e].phase.Told?
  {
    hide PrimaryOf, Transfer;
  }

  lemma JustBooted(c: Cluster, a: Action, e: Endpoint)
    requires Enabled(c, a) && e !in c.nodes && e in Next(c, a).nodes && e !in Next(c, a).toNotify
    ensures Pending(Next(c, a), e) == 0
  {
    hide PrimaryOf, Transfer;
  }

  lemma GoodOf(c: Cluster)
    requires ListedOnce(c)
    ensures Good(c)
  {
  }

  lemma StepNotifiesFewer(c: Cluster, a: Action)
    requires Counted(c) && Enabled(c, a) && (a.Boot? ==> a.e !in c.nodes) && !a.Register?
    requires c.primary in Next(c, a).nodes && Next(c, a).primary == c.primary && Intact(Next(c, a))
    ensures NoRepeats(Next(c, a).toNotify) && forall e :: e in Next(c, a).toNotify ==> e in c.toNotify
  {
    hide Pending, Good, Intact, ListedOnce;
    if a.Notify? {
      assert c.toNotify == [c.toNotify[0]] + c.toNotify[1..];
    } else {
      hide Next, Enabled;
      GoodOf(c);
      StepGrowsAtEnd(c, a);
      ServedGoesOn(c, a);
    }
  }

  lemma StepCounts(c: Cluster, a: Action)
    requires Counted(c) && Enabled(c, a) && (a.Boot? ==> a.e !in c.nodes)
    requires c.primary in Next(c, a).nodes && Next(c, a).primary == c.primary && Intact(Next(c, a))
    ensures Counted(Next(c, a))
  {
    hide Next, Enabled, Pending, Good, Intact;
    if a.Register? {
      RegisterCounts(c, a.e);
    } else {
      StepListsOnce(c, a);
      StepGrowsAtEnd(c, a);
      var d := Next(c, a);
      StepNotifiesFewer(c, a);
      forall e | e in c.nodes ensures e in d.nodes && Pending(d, e) == Pending(c, e) {
        if a.Notify? {
          NotifyKeepsPending(c, e);
        } else {
          OthersKeepPending(c, a, e);
        }
      }
      forall e | e in d.nodes && (d.nodes[e].phase.Starting? || d.nodes[e].phase.Told?) ensures Pending(d, e) == 0 {
        if e in c.nodes {
          EarlyBefore(c, a, e);
        } else {
          JustBooted(c, a, e);
        }
      }
    }
  }

  lemma {:induction false} RunCounts(c: Cluster, actions: seq<Action>)
    requires Counted(c) && Run(c, actions) && FreshBoots(c, actions)
    requires var d := After(c, actions); c.primary in d.nodes && d.primary == c.primary && Intact(d)
    ensures Intact(c) && Counted(After(c, actions))
    decreases |actions|
  {
    hide Counted, Intact, Next, Enabled;
    if actions != [] {
      var next := Next(c, actions[0]);
      CountedIsListedOnce(c);
      StepListsOnce(c, actions[0]);
      StepGrowsAtEnd(c, actions[0]);
      RunIntact(next, actions[1..]);
      IntactBefore(c, actions[0]);
      StepCounts(c, actions[0]);
      RunCounts(next, actions[1..]);
    }
  }

  lemma CountedIsListedOnce(c: Cluster)
    requires Counted(c)
    ensures ListedOnce(c)
  {
  }

  /** When nobody who is listed has exited in the end, nobody had before. */
  lemma {:induction false} RunIntact(c: Cluster, actions: seq<Action>)
    requires ListedOnce(c) && Run(c, actions) && FreshBoots(c, actions)
    requires var d := After(c, actions); c.primary in d.nodes && d.primary == c.primary && Intact(d)
    ensures Intact(c)
    decreases |actions|
  {
    hide Intact, Next, Enabled, Distinct;
    if actions != [] {
      StepListsOnce(c, actions[0]);
      StepGrowsAtEnd(c, actions[0]);
      RunIntact(Next(c, actions[0]), actions[1..]);
      IntactBefore(c, actions[0]);
    }
  }

  /** In a settled cluster each server has one deferred request for every server that joined after it. */
  lemma DeferredIsLaterJoins(primary: Endpoint, actions: seq<Action>, k: nat)
    requires Run(Init(primary), actions) && FreshBoots(Init(primary), actions)
    requires var c := After(Init(primary), actions); primary in c.nodes && c.primary == primary && Settled(c)
    requires 0 < k < |PrimaryList(After(Init(primary), actions))|
    ensures var c, list := After(Init(primary), actions), PrimaryList(After(Init(primary), actions));
      list[k].at in c.nodes && c.nodes[list[k].at].deferred == |list| - 1 - k
  {
    hide Run, After, FreshBoots;
    var c := After(Init(primary), actions);
    DistinctIff([Server(primary, Primary)]);
    RunListsOnce(Init(primary), actions);
    SettledIsIntact(c);
    RunCounts(Init(primary), actions);
    assert PrimaryList(c)[k] in PrimaryList(c);
    assert Pending(c, PrimaryList(c)[k].at) == |PrimaryList(c)| - 1 - k;
  }

  lemma SettledIsIntact(c: Cluster)
    requires ListedOnce(c) && Settled(c)
    ensures Intact(c) && c.toNotify == []
  {
    forall s | s in PrimaryList(c) ensures c.nodes[s.at].phase != Gone {
      var k :| 0 <= k < |PrimaryList(c)| && PrimaryList(c)[k] == s;
      ListsIff(PrimaryList(c), s.at);
    }
  }

  // ------------------------------------------------------------------ any servers in any order

  lemma {:induction false} RunConcat(c: Cluster, first: seq<Action>, more: seq<Action>)
    requires Run(c, first) && FreshBoots(c, first)
    requires Run(After(c, first), more) && FreshBoots(After(c, first), more)
    ensures Run(c, first + more) && FreshBoots(c, first + more)
    ensures After(c, first + more) == After(After(c, first), more)
    decreases |first|
  {
    hide Next, Enabled;
    if first == [] {
      assert first + more == more;
    } else {
      assert (first + more)[1..] == first[1..] + more;
      RunConcat(Next(c, first[0]), first[1..], more);
    }
  }

  lemma OneStep(c: Cluster, a: Action)
    requires Enabled(c, a) && (a.Boot? ==> a.e !in c.nodes)
    ensures Run(c, [a]) && FreshBoots(c, [a]) && After(c, [a]) == Next(c, a)
  {
    hide Next, Enabled;
    assert [a][1..] == [];
    assert Run(Next(c, a), []) && FreshBoots(Next(c, a), []) && After(Next(c, a), []) == Next(c, a);
  }

  /** The same servers, at the same points and with the same lists, and no requests less. */
  ghost predicate OnlyNotified(c: Cluster, d: Cluster) {
    && d.primary == c.primary && d.serving == c.serving && d.nodes.Keys == c.nodes.Keys
    && forall e :: e in c.nodes ==>
      d.nodes[e].phase == c.nodes[e].phase && d.nodes[e].list == c.nodes[e].list
      && d.nodes[e].deferred >= c.nodes[e].deferred
  }

  /** Announcing to everybody who waits to be told. */
  lemma {:induction false} NotifyAll(c: Cluster) returns (actions: seq<Action>, d: Cluster)
    requires forall t :: t in c.toNotify ==> Alive(c, t)
    ensures Run(c, actions) && FreshBoots(c, actions) && After(c, actions) == d
    ensures OnlyNotified(c, d) && d.toNotify == []
    ensures forall t :: t in c.toNotify ==> t in d.nodes && d.nodes[t].deferred > 0
    decreases |c.toNotify|
  {
    if c.toNotify == [] {
      actions, d := [], c;
    } else {
      var next := Next(c, Notify);
      assert forall t :: t in c.toNotify <==> t == c.toNotify[0] || t in c.toNotify[1..];
      OneStep(c, Notify);
      actions, d := NotifyAll(next);
      RunConcat(c, [Notify], actions);
      actions := [Notify] + actions;
    }
  }

  /** Everybody who was ever started is joined and up to date. */
  ghost predicate AllJoined(c: Cluster) {
    && Good(c) && c.serving == None
    && (forall e :: e in c.nodes ==> c.nodes[e].phase == Joined && c.nodes[e].list == PrimaryList(c))
    && forall s :: s in PrimaryList(c) ==> s.at in c.nodes
  }

  lemma JoinTo(c: Cluster, e: Endpoint) returns (actions: seq<Action>, d: Cluster)
    requires AllJoined(c) && e !in c.nodes
    ensures Run(c, actions) && FreshBoots(c, actions) && After(c, actions) == d
    ensures d.primary == c.primary && d.serving == Some(e)
    ensures var grown := PrimaryList(c) + [Server(e, Backup)];
      && d.nodes == c.nodes[c.primary := c.nodes[c.primary].(list := grown)]
                           [e := Member(Registered, [Server(e, Backup)], 0)]
      && d.toNotify == Coms.Others(grown, e)
  {
    hide Coms.Others;
    HeadedFacts(PrimaryList(c), c.primary);
    var c1 := Next(c, Boot(e));
    OneStep(c, Boot(e));
    var c2 := Next(c1, Ask(e, c.primary));
    OneStep(c1, Ask(e, c.primary));
    RunConcat(c, [Boot(e)], [Ask(e, c.primary)]);
    d := Next(c2, Register(e));
    OneStep(c2, Register(e));
    RunConcat(c, [Boot(e)] + [Ask(e, c.primary)], [Register(e)]);
    actions := [Boot(e)] + [Ask(e, c.primary)] + [Register(e)];
  }

  lemma {:induction false} RefetchesBootNobody(c: Cluster, es: seq<Endpoint>)
    requires Run(c, Refetches(es))
    ensures FreshBoots(c, Refetches(es))
    decreases |es|
  {
    hide Next, Enabled;
    if es != [] {
      assert Refetches(es)[1..] == Refetches(es[1..]);
      RefetchesBootNobody(Next(c, Refetches(es)[0]), es[1..]);
    }
  }

  /** What the joining server fetches, once all others have been told. */
  lemma FetchJoins(d: Cluster, e: Endpoint) returns (d': Cluster)
    requires Good(d) && d.serving == Some(e) && d.toNotify == []
    ensures Enabled(d, Fetch(e)) && d' == Next(d, Fetch(e)) && Good(d') && d'.serving == None
    ensures d'.primary == d.primary
    ensures d'.nodes == d.nodes[e := Member(Joined, PrimaryList(d), d.nodes[e].deferred)]
  {
    HeadedFacts(PrimaryList(d), d.primary);
    StepIsGood(d, Fetch(e));
    d' := Next(d, Fetch(e));
  }

  /** Everybody in `list` but the newcomer has been told of it, and it has joined. */
  ghost predicate JoinedAs(c: Cluster, e: Endpoint, d: Cluster) {
    && Good(d) && d.primary == c.primary && c.primary in c.nodes && d.serving == None
    && d.nodes.Keys == c.nodes.Keys + {e} && PrimaryList(d) == PrimaryList(c) + [Server(e, Backup)]
    && d.nodes[e].phase == Joined && d.nodes[e].list == PrimaryList(d)
    && forall x :: x in c.nodes && x != c.primary ==> d.nodes[x].phase == Joined && d.nodes[x].deferred > 0
  }

  lemma TellAll(c: Cluster, e: Endpoint) returns (actions: seq<Action>, d: Cluster)
    requires AllJoined(c) && e !in c.nodes
    ensures Run(c, actions) && FreshBoots(c, actions) && After(c, actions) == d && JoinedAs(c, e, d)
  {
    hide Coms.Others, Good, Run, After, FreshBoots, Next, Enabled;
    var first, d1 := JoinTo(c, e);
    ListGrowsAtEnd(c, first);
    GoodHasPrimary(c);
    OthersAreAll(c, e);
    var second, d2 := NotifyAll(d1);
    ListGrowsAtEnd(d1, second);
    d := FetchJoins(d2, e);
    OneStep(d2, Fetch(e));
    RunConcat(d1, second, [Fetch(e)]);
    RunConcat(c, first, second + [Fetch(e)]);
    actions := first + (second + [Fetch(e)]);
  }

  /** Those told of a newcomer are all the servers there were, but the primary. */
  lemma OthersAreAll(c: Cluster, e: Endpoint)
    requires AllJoined(c) && e !in c.nodes && c.primary in c.nodes
    ensures forall x :: x in Coms.Others(PrimaryList(c) + [Server(e, Backup)], e) <==> x in c.nodes && x != c.primary
  {
    var list, grown := PrimaryList(c), PrimaryList(c) + [Server(e, Backup)];
    Coms.OthersIff(grown, e);
    forall x | x in c.nodes && x != c.primary ensures Server(x, Backup) in grown {
      assert MemberOk(c, list, x, c.nodes[x]);
    }
  }

  /** One more server joins, and everybody catches up. */
  lemma JoinOne(c: Cluster, e: Endpoint) returns (actions: seq<Action>, d: Cluster)
    requires AllJoined(c) && e !in c.nodes
    ensures Run(c, actions) && FreshBoots(c, actions) && After(c, actions) == d
    ensures AllJoined(d) && d.primary == c.primary && c.primary in c.nodes && d.primary in d.nodes
    ensures PrimaryList(d) == PrimaryList(c) + [Server(e, Backup)] && d.nodes.Keys == c.nodes.Keys + {e}
  {
    hide Coms.Others, Good, Run, After, FreshBoots, Next, Enabled;
    GoodHasPrimary(c);
    var others := Coms.Others(PrimaryList(c) + [Server(e, Backup)], e);
    OthersAreAll(c, e);
    var first, d1 := TellAll(c, e);
    DeferredUpdatesCatchUp(d1, others);
    RefetchesBootNobody(d1, others);
    RunConcat(c, first, Refetches(others));
    actions, d := first + Refetches(others), After(d1, Refetches(others));
    GoodHasPrimary(d);
    PrimaryIsJoined(d);
  }

  lemma PrimaryIsJoined(c: Cluster)
    requires Good(c)
    ensures c.primary in c.nodes && c.nodes[c.primary].phase == Joined
  {
  }

  lemma GoodHasPrimary(c: Cluster)
    requires Good(c)
    ensures c.primary in c.nodes
  {
  }

  function AsBackups(es: seq<Endpoint>): (list: seq<Server>)
    ensures |list| == |es| && forall k :: 0 <= k < |es| ==> list[k] == Server(es[k], Backup)
  {
    seq(|es|, k requires 0 <= k < |es| => Server(es[k], Backup))
  }

  lemma {:induction false} JoinAll(primary: Endpoint, es: seq<Endpoint>) returns (actions: seq<Action>)
    requires NoRepeats(es) && primary !in es
    ensures Run(Init(primary), actions) && FreshBoots(Init(primary), actions)
    ensures var c := After(Init(primary), actions);
      && AllJoined(c) && c.primary == primary && primary in c.nodes
      && c.nodes.Keys == {primary} + (set e | e in es) && PrimaryList(c) == [Server(primary, Primary)] + AsBackups(es)
    decreases |es|
  {
    hide AllJoined, Run, After, FreshBoots;
    if es == [] {
      actions := JoinNobody(primary);
      assert (set e | e in es) == {};
      assert [Server(primary, Primary)] + AsBackups(es) == [Server(primary, Primary)];
    } else {
      var front, last := es[..|es| - 1], es[|es| - 1];
      assert es == front + [last];
      actions := JoinAll(primary, front);
      var c := After(Init(primary), actions);
      var more, d := JoinOne(c, last);
      RunConcat(Init(primary), actions, more);
      actions := actions + more;
      assert (set e | e in es) == (set e | e in front) + {last};
      assert ([Server(primary, Primary)] + AsBackups(front)) + [Server(last, Backup)]
          == [Server(primary, Primary)] + AsBackups(es);
    }
  }

  lemma JoinNobody(primary: Endpoint) returns (actions: seq<Action>)
    ensures actions == [] && Run(Init(primary), actions) && FreshBoots(Init(primary), actions)
    ensures After(Init(primary), actions) == Init(primary) && AllJoined(Init(primary))
  {
    actions := [];
  }

  /** Any servers can join in any order and settle. */
  lemma AnyJoinOrder(primary: Endpoint, es: seq<Endpoint>) returns (actions: seq<Action>)
    requires NoRepeats(es) && primary !in es
    ensures Run(Init(primary), actions) && FreshBoots(Init(primary), actions)
    ensures var c := After(Init(primary), actions);
      && c.primary == primary && primary in c.nodes && Settled(c)
      && PrimaryList(c) == [Server(primary, Primary)] + AsBackups(es)
  {
    hide Run, After, FreshBoots, Good;
    actions := JoinAll(primary, es);
  }

  // ------------------------------------------------------------------ a connection that breaks

  /** Exactly who misses a registration: when the server that registers goes, those it leaves untold; and nobody
      misses one otherwise. */
  lemma MissedIffBroken(c: Cluster, a: Action, e: Endpoint)
    requires Good(c) && Enabled(c, a) && e !in c.missed
    ensures e in Next(c, a).missed <==>
      c.serving.Some? && Next(c, a).nodes[c.serving.value].phase == Gone && e in c.toNotify
  {
    hide PrimaryOf, Transfer, Coms.Others;
  }

  /** A server that holds `list`, and will not fetch unless it is told of a registration. */
  ghost predicate LeftBehind(c: Cluster, e: Endpoint, list: seq<Server>) {
    && c.serving == None && c.toNotify == [] && e in c.nodes && e != c.primary
    && c.nodes[e].deferred == 0 && c.nodes[e].list == list
    && (c.nodes[e].phase == Joined || c.nodes[e].phase == Gone)
  }

  lemma StepLeavesBehind(c: Cluster, a: Action, e: Endpoint, list: seq<Server>)
    requires LeftBehind(c, e, list) && Enabled(c, a) && !a.Register? && (a.Boot? ==> a.e !in c.nodes)
    ensures LeftBehind(Next(c, a), e, list)
  {
    hide PrimaryOf, Transfer;
  }

  predicate RegistersNobody(actions: seq<Action>) { forall a :: a in actions ==> !a.Register? }

  lemma {:induction false} RunLeavesBehind(c: Cluster, actions: seq<Action>, e: Endpoint, list: seq<Server>)
    requires LeftBehind(c, e, list) && Run(c, actions) && FreshBoots(c, actions) && RegistersNobody(actions)
    ensures LeftBehind(After(c, actions), e, list)
    decreases |actions|
  {
    hide Next, Enabled, LeftBehind;
    if actions != [] {
      StepLeavesBehind(c, actions[0], e, list);
      RunLeavesBehind(Next(c, actions[0]), actions[1..], e, list);
    }
  }

  /** When the connection of a server that registers breaks before the others are told, the one that joined last is
      left behind: it holds the list without the newcomer until somebody else registers. For any servers. */
  lemma BrokenAnnouncementLeavesBehind(primary: Endpoint, es: seq<Endpoint>, e: Endpoint) returns (actions: seq<Action>)
    requires NoRepeats(es) && es != [] && primary !in es && e != primary && e !in es
    ensures Run(Init(primary), actions) && FreshBoots(Init(primary), actions)
    ensures var c, before := After(Init(primary), actions), [Server(primary, Primary)] + AsBackups(es);
      var last := es[|es| - 1];
      && primary in c.nodes && c.primary == primary && PrimaryList(c) == before + [Server(e, Backup)]
      && last in c.nodes && c.nodes[last].phase == Joined && last in c.missed && LeftBehind(c, last, before)
      && forall more :: Run(c, more) && FreshBoots(c, more) && RegistersNobody(more) ==>
          LeftBehind(After(c, more), last, before)
  {
    hide Run, After, FreshBoots, Good, Coms.Others, LeftBehind;
    var before, last := [Server(primary, Primary)] + AsBackups(es), es[|es| - 1];
    actions := JoinAll(primary, es);
    var c := After(Init(primary), actions);
    assert before[|es|] == Server(last, Backup);
    DeferredIsLaterJoins(primary, actions, |es|);
    OthersAreAll(c, e);
    var more, d := JoinTo(c, e);
    RunConcat(Init(primary), actions, more);
    OneStep(d, Crash(e));
    RunConcat(Init(primary), actions + more, [Crash(e)]);
    actions := actions + more + [Crash(e)];
    var broken := Next(d, Crash(e));
    assert LeftBehind(broken, last, before) by {
      LeftWhenBroken(d, e, last, before);
    }
    forall more | Run(broken, more) && FreshBoots(broken, more) && RegistersNobody(more)
      ensures LeftBehind(After(broken, more), last, before)
    {
      RunLeavesBehind(broken, more, last, before);
    }
  }

  lemma LeftWhenBroken(d: Cluster, e: Endpoint, x: Endpoint, list: seq<Server>)
    requires d.serving == Some(e) && Enabled(d, Crash(e)) && x in d.nodes && x != d.primary && x != e
    requires d.nodes[x].phase == Joined && d.nodes[x].list == list && d.nodes[x].deferred == 0
    ensures LeftBehind(Next(d, Crash(e)), x, list)
  {
  }
}
