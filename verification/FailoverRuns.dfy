/** What every lossless run with one initiator does, and how it ends. */
module FailoverRuns {
  import opened Servers
  import opened ElectionServer
  import opened Ring
  import opened RingSafety
  import opened TokenCount
  import opened Failover

  /** How far such a run has got: election messages sent, or elected messages sent (`over` when
      the last of them has arrived). */
  datatype Stage = Voting(h: nat) | Telling(sent: nat, over: bool)

  predicate Reached(n: nat, d: nat, stage: Stage) {
    match stage
    case Voting(h) => h <= n + d
    case Telling(sent, over) => 1 <= sent <= n && (over ==> sent == n)
  }

  /** Deliveries still to come. */
  function Left(n: nat, d: nat, stage: Stage): int {
    match stage
    case Voting(h) => 2 * n + d - (if h == 0 then 0 else h - 1)
    case Telling(sent, over) => n - sent + if over then 0 else 1
  }

  /** Fetches made by then: one per elected message delivered, but for the one that ends the run. */
  function Fetched(stage: Stage): int { if stage.Voting? then 0 else stage.sent - 1 }

  /** The stage determines the whole world. */
  function WorldAt(servers: seq<Server>, ring: seq<Server>, failed: Endpoint, i: nat, top: nat, stage: Stage): World
    requires i < |ring| && top < |ring|
  {
    match stage
    case Voting(h) => ElectingWorld(servers, ring, failed, i, h)
    case Telling(sent, over) => InformingWorld(ring, i, top, sent, over)
  }

  lemma WhatIsInFlight(servers: seq<Server>, ring: seq<Server>, failed: Endpoint, i: nat, top: nat,
          stage: Stage, m: Message)
    requires i < |ring| && top < |ring|
    ensures m in WorldAt(servers, ring, failed, i, top, stage).tokens ==> stage.Voting? && stage.h >= 1
    ensures m in WorldAt(servers, ring, failed, i, top, stage).notices ==> stage.Telling? && !stage.over
  {
  }

  lemma SuspectStage(servers: seq<Server>, ring: seq<Server>, failed: Endpoint, i: nat, top: nat, stage: Stage,
          at: Endpoint)
    returns (next: Stage)
    requires Setting(servers, ring, failed, i, top) && Reached(|ring|, Dist(|ring|, i, top), stage)
    requires var w := WorldAt(servers, ring, failed, i, top, stage);
      at in w.nodes && OnlyStarter(Next(failed, w, Suspect(at)), ring[i].at)
    ensures Reached(|ring|, Dist(|ring|, i, top), next)
    ensures Left(|ring|, Dist(|ring|, i, top), next) == Left(|ring|, Dist(|ring|, i, top), stage)
    ensures Fetched(next) == Fetched(stage)
    ensures Next(failed, WorldAt(servers, ring, failed, i, top, stage), Suspect(at))
         == WorldAt(servers, ring, failed, i, top, next)
  {
    hide Next, ElectingWorld, InformingWorld, OnlyStarter;
    var w := WorldAt(servers, ring, failed, i, top, stage);
    next := stage;
    match stage
    case Voting(h) =>
      if h == 0 {
        FirstSuspicion(servers, ring, failed, i, top, w, at);
        next := Voting(1);
      } else {
        SuspicionWhileElecting(servers, ring, failed, i, top, w, h, at);
      }
    case Telling(sent, over) =>
      SuspicionWhileInforming(servers, ring, failed, i, top, w, sent, over, at);
  }

  lemma TokenStage(servers: seq<Server>, ring: seq<Server>, failed: Endpoint, i: nat, top: nat, stage: Stage,
          m: Message)
    returns (next: Stage)
    requires Setting(servers, ring, failed, i, top) && Reached(|ring|, Dist(|ring|, i, top), stage)
    requires m in WorldAt(servers, ring, failed, i, top, stage).tokens
    requires Enabled(WorldAt(servers, ring, failed, i, top, stage), DeliverToken(m))
    ensures Reached(|ring|, Dist(|ring|, i, top), next)
    ensures Left(|ring|, Dist(|ring|, i, top), next) == Left(|ring|, Dist(|ring|, i, top), stage) - 1
    ensures Fetched(next) == Fetched(stage)
    ensures Next(failed, WorldAt(servers, ring, failed, i, top, stage), DeliverToken(m))
         == WorldAt(servers, ring, failed, i, top, next)
  {
    hide Next, ElectingWorld, InformingWorld, Enabled;
    WhatIsInFlight(servers, ring, failed, i, top, stage, m);
    if stage.h < |ring| + Dist(|ring|, i, top) {
      TokenHops(servers, ring, failed, i, top, stage.h, m);
      next := Voting(stage.h + 1);
    } else {
      TokenWins(servers, ring, failed, i, top, stage.h, m);
      next := Telling(1, false);
    }
  }

  /** The notice on its way reaches the winner only with its last hop. */
  lemma NoticeTarget(ring: seq<Server>, i: nat, top: nat, sent: nat, m: Message)
    requires Distinct(ring) && i < |ring| && top < |ring| && 1 <= sent <= |ring|
    requires m in InformingWorld(ring, i, top, sent, false).notices
    ensures m.to == m.value <==> sent == |ring|
  {
    DistOfHop(|ring|, top, sent);
    Successor(ring, top);
    Successor(ring, Hop(|ring|, top, sent));
  }

  lemma NoticeStage(servers: seq<Server>, ring: seq<Server>, failed: Endpoint, i: nat, top: nat, stage: Stage,
          m: Message)
    returns (next: Stage)
    requires Setting(servers, ring, failed, i, top) && Reached(|ring|, Dist(|ring|, i, top), stage)
    requires m in WorldAt(servers, ring, failed, i, top, stage).notices
    requires Enabled(WorldAt(servers, ring, failed, i, top, stage), DeliverNotice(m, true))
    ensures Reached(|ring|, Dist(|ring|, i, top), next)
    ensures Left(|ring|, Dist(|ring|, i, top), next) == Left(|ring|, Dist(|ring|, i, top), stage) - 1
    ensures Fetched(next) == Fetched(stage) + if m.to == m.value then 0 else 1
    ensures Next(failed, WorldAt(servers, ring, failed, i, top, stage), DeliverNotice(m, true))
         == WorldAt(servers, ring, failed, i, top, next)
  {
    hide Next, ElectingWorld, InformingWorld, Enabled;
    WhatIsInFlight(servers, ring, failed, i, top, stage, m);
    NoticeTarget(ring, i, top, stage.sent, m);
    if stage.sent < |ring| {
      NoticeHops(servers, ring, failed, i, top, stage.sent, m);
      next := Telling(stage.sent + 1, false);
    } else {
      NoticeEnds(servers, ring, failed, i, top, WorldAt(servers, ring, failed, i, top, stage), m);
      next := Telling(stage.sent, true);
    }
  }

  lemma NextStage(servers: seq<Server>, ring: seq<Server>, failed: Endpoint, i: nat, top: nat, stage: Stage, a: Action)
    returns (next: Stage)
    requires Setting(servers, ring, failed, i, top) && Reached(|ring|, Dist(|ring|, i, top), stage)
    requires var w := WorldAt(servers, ring, failed, i, top, stage);
      Enabled(w, a) && Lossless(a) && OnlyStarter(Next(failed, w, a), ring[i].at)
    ensures Reached(|ring|, Dist(|ring|, i, top), next)
    ensures var n, d := |ring|, Dist(|ring|, i, top);
      Left(n, d, next) == Left(n, d, stage) - if IsDelivery(a) then 1 else 0
    ensures Fetched(next) == Fetched(stage) + if IsFetch(a) then 1 else 0
    ensures Next(failed, WorldAt(servers, ring, failed, i, top, stage), a)
         == WorldAt(servers, ring, failed, i, top, next)
  {
    match a
    case Suspect(at) => next := SuspectStage(servers, ring, failed, i, top, stage, at);
    case DeliverToken(m) => next := TokenStage(servers, ring, failed, i, top, stage, m);
    case DeliverNotice(m, _) => next := NoticeStage(servers, ring, failed, i, top, stage, m);
  }

  lemma {:induction false} LastStage(servers: seq<Server>, ring: seq<Server>, failed: Endpoint, i: nat,
          top: nat, stage: Stage, w: World, actions: seq<Action>)
    returns (last: Stage)
    requires Setting(servers, ring, failed, i, top) && Reached(|ring|, Dist(|ring|, i, top), stage)
    requires w == WorldAt(servers, ring, failed, i, top, stage)
    requires Run(failed, w, actions) && LosslessRun(actions)
    requires OnlyStarter(After(failed, w, actions), ring[i].at)
    ensures Reached(|ring|, Dist(|ring|, i, top), last)
    ensures Left(|ring|, Dist(|ring|, i, top), last) == Left(|ring|, Dist(|ring|, i, top), stage) - Deliveries(actions)
    ensures Fetched(last) == Fetched(stage) + Fetches(actions)
    ensures After(failed, w, actions) == WorldAt(servers, ring, failed, i, top, last)
    decreases |actions|
  {
    hide Next, Enabled, WorldAt, Left, Fetched, Reached, Setting, Lossless, IsDelivery, IsFetch;
    last := stage;
    if actions != [] {
      var w1 := Next(failed, w, actions[0]);
      WinnersGrow(failed, w1, actions[1..]);
      last := NextStage(servers, ring, failed, i, top, stage, actions[0]);
      last := LastStage(servers, ring, failed, i, top, last, w1, actions[1..]);
    }
  }

  /** A lossless run from agreed views in which exactly one survivor, `starter`, starts an election. */
  ghost predicate OneInitiatorRun(servers: seq<Server>, failed: Endpoint, w: World, actions: seq<Action>,
          starter: Endpoint) {
    Agreed(servers, failed) && Start(servers, failed, w) && Run(failed, w, actions)
    && LosslessRun(actions) && After(failed, w, actions).starts == [starter]
  }

  ghost predicate Silent(w: World) { w.tokens == multiset{} && w.notices == multiset{} }

  /** Ring distance between two survivors. */
  function RingDistance(ring: seq<Server>, a: Endpoint, b: Endpoint): nat
    requires Lists(ring, a)
  {
    Dist(|ring|, IndexFrom(ring, a, 0), IndexFrom(ring, b, 0))
  }

  lemma {:induction false} StartersAreSurvivors(failed: Endpoint, w: World, actions: seq<Action>, keys: set<Endpoint>)
    requires Run(failed, w, actions) && w.nodes.Keys <= keys && forall e :: e in w.starts ==> e in keys
    ensures forall e :: e in After(failed, w, actions).starts ==> e in keys
    decreases |actions|
  {
    if actions != [] {
      StartersAreSurvivors(failed, Next(failed, w, actions[0]), actions[1..], keys);
    }
  }

  lemma StartIsPhaseZero(servers: seq<Server>, failed: Endpoint, w: World, i: nat)
    requires Start(servers, failed, w) && i < |Backups(servers)|
    ensures w == ElectingWorld(servers, Backups(servers), failed, i, 0)
  {
    assert w.nodes == ElectingNodes(servers, Backups(servers), i, 0);
  }

  lemma SettingOf(servers: seq<Server>, failed: Endpoint, starter: Endpoint, top: Endpoint)
    requires Agreed(servers, failed) && Lists(Backups(servers), starter) && IsHighest(Backups(servers), top)
    ensures var ring := Backups(servers);
      Setting(servers, ring, failed, IndexFrom(ring, starter, 0), IndexFrom(ring, top, 0))
  {
    var ring := Backups(servers);
    AgreedGivesRing(servers, failed);
    BackupsMembers(servers);
    forall k | 0 <= k < |ring| ensures ring[k].kind == Backup {
      assert ring[k] in ring;
    }
  }

  lemma StarterIsSurvivor(servers: seq<Server>, failed: Endpoint, w: World, actions: seq<Action>, starter: Endpoint)
    requires OneInitiatorRun(servers, failed, w, actions, starter)
    ensures Lists(Backups(servers), starter)
  {
    StartersAreSurvivors(failed, w, actions, w.nodes.Keys);
    assert starter in After(failed, w, actions).starts;
    MembersAreListed(Backups(servers), starter);
  }

  /** Where a one-initiator run stands, from the ring positions of its starter and the greatest server. */
  lemma OneInitiatorStage(servers: seq<Server>, failed: Endpoint, w: World, actions: seq<Action>,
          starter: Endpoint, top: Endpoint)
    returns (ring: seq<Server>, i: nat, t: nat, last: Stage)
    requires OneInitiatorRun(servers, failed, w, actions, starter) && IsHighest(Backups(servers), top)
    ensures ring == Backups(servers) && Setting(servers, ring, failed, i, t) && Lists(ring, starter)
    ensures i == IndexFrom(ring, starter, 0) && t == IndexFrom(ring, top, 0)
    ensures Reached(|ring|, Dist(|ring|, i, t), last) && last != Voting(0)
    ensures After(failed, w, actions) == WorldAt(servers, ring, failed, i, t, last)
    ensures Left(|ring|, Dist(|ring|, i, t), last) == 2 * |ring| + Dist(|ring|, i, t) - Deliveries(actions)
    ensures Fetched(last) == Fetches(actions)
  {
    ring := Backups(servers);
    StarterIsSurvivor(servers, failed, w, actions, starter);
    SettingOf(servers, failed, starter, top);
    i, t := IndexFrom(ring, starter, 0), IndexFrom(ring, top, 0);
    StartIsPhaseZero(servers, failed, w, i);
    last := LastStage(servers, ring, failed, i, t, Voting(0), w, actions);
  }

  /** The end state: `top` is the winner and the DNS entry, and every server of `members` holds the
      entries of `kept`, in order, with `top` as the only primary. */
  ghost predicate FailedOver(w: World, members: set<Endpoint>, kept: seq<Server>, top: Endpoint) {
    && w.winners == [top] && w.dns == top && w.nodes.Keys == members
    && forall e :: e in w.nodes ==>
         && w.nodes[e].self == Server(e, if e == top then Primary else Backup)
         && |w.nodes[e].servers| == |kept|
         && forall k :: 0 <= k < |kept| ==>
              w.nodes[e].servers[k] == Server(kept[k].at, if kept[k].at == top then Primary else Backup)
  }

  lemma SilentIsOver(servers: seq<Server>, ring: seq<Server>, failed: Endpoint, i: nat, t: nat, stage: Stage)
    requires i < |ring| && t < |ring| && Reached(|ring|, Dist(|ring|, i, t), stage) && stage != Voting(0)
    requires Silent(WorldAt(servers, ring, failed, i, t, stage))
    ensures stage == Telling(|ring|, true)
  {
    hide Hop, Lead, ElectingNodes, InformingNodes;
  }

  /** Once all have been told, every survivor holds the ring with the winner marked. */
  lemma AllAreTold(ring: seq<Server>, t: nat, e: Endpoint)
    requires t < |ring| && e in InformingNodes(ring, t, |ring|)
    ensures InformingNodes(ring, t, |ring|)[e]
         == Node(Server(e, if e == ring[t].at then Primary else Backup), ring[t := Server(ring[t].at, Primary)])
  {
    MembersAreListed(ring, e);
  }

  lemma SilentStage(servers: seq<Server>, ring: seq<Server>, failed: Endpoint, i: nat, t: nat, stage: Stage)
    requires Setting(servers, ring, failed, i, t) && Reached(|ring|, Dist(|ring|, i, t), stage) && stage != Voting(0)
    requires Silent(WorldAt(servers, ring, failed, i, t, stage))
    ensures FailedOver(WorldAt(servers, ring, failed, i, t, stage), Members(ring), ring, ring[t].at)
  {
    hide IndexFrom, Hop, Lead, IsHighest, Without, Backups, HeldInforming, Silent;
    SilentIsOver(servers, ring, failed, i, t, stage);
    DistinctIff(ring);
    forall e | e in InformingNodes(ring, t, |ring|)
      ensures InformingNodes(ring, t, |ring|)[e]
           == Node(Server(e, if e == ring[t].at then Primary else Backup), ring[t := Server(ring[t].at, Primary)])
    {
      AllAreTold(ring, t, e);
    }
    hide Distinct, RingOf, Setting;
  }

  /** Failover: when nothing is in flight any more, the greatest survivor is the winner, the DNS
      names it, nobody has exited, and every survivor holds the old list without the failed
      primary, in the old order, with the winner as its only primary. */
  lemma FailoverCompletes(servers: seq<Server>, failed: Endpoint, w: World, actions: seq<Action>,
          starter: Endpoint, top: Endpoint)
    requires OneInitiatorRun(servers, failed, w, actions, starter) && IsHighest(Backups(servers), top)
    requires Silent(After(failed, w, actions))
    ensures FailedOver(After(failed, w, actions), w.nodes.Keys, Without(servers, failed), top)
    ensures top in w.nodes && forall e :: e in w.nodes ==> AtMost(e, top)
  {
    hide Run, After, LosslessRun, Agreed, FailedOver;
    HighestOfMembers(Backups(servers), top);
    var ring, i, t, last := OneInitiatorStage(servers, failed, w, actions, starter, top);
    SilentStage(servers, ring, failed, i, t, last);
  }

  /** Termination with an exact count: at most 2n + d deliveries happen, d the ring distance from the
      starter to the greatest survivor, and the run is over exactly when that many have happened;
      by then n + d election and n elected messages were sent, fewer than 3n in total. */
  lemma ElectionTerminates(servers: seq<Server>, failed: Endpoint, w: World, actions: seq<Action>,
          starter: Endpoint, top: Endpoint)
    requires OneInitiatorRun(servers, failed, w, actions, starter) && IsHighest(Backups(servers), top)
    ensures var ring, w' := Backups(servers), After(failed, w, actions);
      && Lists(ring, starter)
      && var n, d := |ring|, RingDistance(ring, starter, top);
      && d < n && Deliveries(actions) <= 2 * n + d
      && (Silent(w') <==> Deliveries(actions) == 2 * n + d)
      && (Silent(w') ==> w'.tokensSent == n + d && w'.noticesSent == n && w'.tokensSent + w'.noticesSent <= 3 * n - 1)
      && (Silent(w') ==> Fetches(actions) == n - 1)
  {
    var ring, i, t, last := OneInitiatorStage(servers, failed, w, actions, starter, top);
  }

  // ------------------------------------------------------------------ no run gets stuck

  /** Whatever is in flight can be delivered: its target is running. */
  lemma CanDeliver(servers: seq<Server>, ring: seq<Server>, failed: Endpoint, i: nat, top: nat, stage: Stage)
    returns (a: Action)
    requires Setting(servers, ring, failed, i, top) && Reached(|ring|, Dist(|ring|, i, top), stage)
    requires stage != Voting(0) && !Silent(WorldAt(servers, ring, failed, i, top, stage))
    ensures IsDelivery(a) && Lossless(a) && Enabled(WorldAt(servers, ring, failed, i, top, stage), a)
  {
    var k := if stage.Voting? then Hop(|ring|, i, stage.h) else Hop(|ring|, top, stage.sent);
    Successor(ring, k);
    MembersAreListed(ring, ring[k].at);
    a := match stage
      case Voting(h) => DeliverToken(Message(ring[k].at, ring[Lead(ring, i, h)].at))
      case Telling(_, _) => DeliverNotice(Message(ring[k].at, ring[top].at), true);
  }

  /** Progress: a one-initiator run in which something is still in flight can always deliver it. As the
      number of deliveries is bounded, every such run that goes on delivering falls silent. */
  lemma ElectionProgresses(servers: seq<Server>, failed: Endpoint, w: World, actions: seq<Action>, starter: Endpoint)
    requires OneInitiatorRun(servers, failed, w, actions, starter)
    ensures Silent(After(failed, w, actions))
       <==> forall a :: IsDelivery(a) ==> !Enabled(After(failed, w, actions), a)
  {
    StarterIsSurvivor(servers, failed, w, actions, starter);
    var top := HighestOf(Backups(servers));
    var ring, i, t, last := OneInitiatorStage(servers, failed, w, actions, starter, top);
    if !Silent(After(failed, w, actions)) {
      var a := CanDeliver(servers, ring, failed, i, t, last);
      assert IsDelivery(a) && Enabled(After(failed, w, actions), a);
    }
  }

  lemma {:induction false} RunConcat(failed: Endpoint, w: World, first: seq<Action>, more: seq<Action>)
    requires Run(failed, w, first) && Run(failed, After(failed, w, first), more)
    ensures Run(failed, w, first + more)
    ensures After(failed, w, first + more) == After(failed, After(failed, w, first), more)
    decreases |first|
  {
    hide Next, Enabled;
    if first == [] {
      assert first + more == more;
    } else {
      assert (first + more)[1..] == first[1..] + more;
      RunConcat(failed, Next(failed, w, first[0]), first[1..], more);
    }
  }

  /** Delivering until nothing is left. */
  lemma {:induction false} DeliverRest(servers: seq<Server>, ring: seq<Server>, failed: Endpoint, i: nat,
          top: nat, stage: Stage)
    returns (more: seq<Action>, last: Stage)
    requires Setting(servers, ring, failed, i, top)
    requires Reached(|ring|, Dist(|ring|, i, top), stage) && stage != Voting(0)
    ensures LosslessRun(more) && Run(failed, WorldAt(servers, ring, failed, i, top, stage), more)
    ensures Reached(|ring|, Dist(|ring|, i, top), last) && last != Voting(0)
    ensures After(failed, WorldAt(servers, ring, failed, i, top, stage), more)
         == WorldAt(servers, ring, failed, i, top, last)
    ensures Silent(WorldAt(servers, ring, failed, i, top, last))
    decreases Left(|ring|, Dist(|ring|, i, top), stage)
  {
    hide Next, Enabled, Silent, WorldAt, ElectingWorld, InformingWorld;
    var w := WorldAt(servers, ring, failed, i, top, stage);
    more, last := [], stage;
    if !Silent(w) {
      var a := CanDeliver(servers, ring, failed, i, top, stage);
      var next := DeliveryStage(servers, ring, failed, i, top, stage, a);
      more, last := DeliverRest(servers, ring, failed, i, top, next);
      assert ([a] + more)[1..] == more;
      more := [a] + more;
    }
  }

  lemma DeliveryStage(servers: seq<Server>, ring: seq<Server>, failed: Endpoint, i: nat, top: nat,
          stage: Stage, a: Action)
    returns (next: Stage)
    requires Setting(servers, ring, failed, i, top) && Reached(|ring|, Dist(|ring|, i, top), stage)
    requires IsDelivery(a) && Lossless(a) && Enabled(WorldAt(servers, ring, failed, i, top, stage), a)
    ensures Reached(|ring|, Dist(|ring|, i, top), next) && next != Voting(0)
    ensures 0 <= Left(|ring|, Dist(|ring|, i, top), next) < Left(|ring|, Dist(|ring|, i, top), stage)
    ensures Fetched(next) == Fetched(stage) + if IsFetch(a) then 1 else 0
    ensures Next(failed, WorldAt(servers, ring, failed, i, top, stage), a)
         == WorldAt(servers, ring, failed, i, top, next)
  {
    hide Next, ElectingWorld, InformingWorld, Setting;
    match a
    case DeliverToken(m) => next := TokenStage(servers, ring, failed, i, top, stage, m);
    case DeliverNotice(m, _) => next := NoticeStage(servers, ring, failed, i, top, stage, m);
  }

  /** Every one-initiator run, wherever it stands, can be carried on to its end. */
  lemma ElectionCanFinish(servers: seq<Server>, failed: Endpoint, w: World, actions: seq<Action>, starter: Endpoint)
    returns (more: seq<Action>)
    requires OneInitiatorRun(servers, failed, w, actions, starter)
    ensures OneInitiatorRun(servers, failed, w, actions + more, starter)
    ensures Silent(After(failed, w, actions + more))
  {
    hide Next, Enabled, Silent, WorldAt, Agreed, Start, Setting;
    StarterIsSurvivor(servers, failed, w, actions, starter);
    var top := HighestOf(Backups(servers));
    var ring, i, t, stage := OneInitiatorStage(servers, failed, w, actions, starter, top);
    var last: Stage;
    more, last := DeliverRest(servers, ring, failed, i, t, stage);
    RunConcat(failed, w, actions, more);
    StartsOfStage(servers, ring, failed, i, t, stage, last);
  }

  lemma StartsOfStage(servers: seq<Server>, ring: seq<Server>, failed: Endpoint, i: nat, top: nat, a: Stage, b: Stage)
    requires i < |ring| && top < |ring| && a != Voting(0) && b != Voting(0)
    ensures WorldAt(servers, ring, failed, i, top, a).starts == WorldAt(servers, ring, failed, i, top, b).starts
  {
  }

  /** Runs to the end exist: whichever survivor notices the crash first, there is one in which nobody
      else starts an election. */
  lemma EveryStarterHasARun(servers: seq<Server>, failed: Endpoint, w: World, starter: Endpoint)
    returns (actions: seq<Action>)
    requires Agreed(servers, failed) && Start(servers, failed, w) && Lists(Backups(servers), starter)
    ensures OneInitiatorRun(servers, failed, w, actions, starter) && Silent(After(failed, w, actions))
  {
    var first := [Suspect(starter)];
    FirstSuspicionStarts(servers, failed, w, starter);
    var more := ElectionCanFinish(servers, failed, w, first, starter);
    actions := first + more;
  }

  lemma FirstSuspicionStarts(servers: seq<Server>, failed: Endpoint, w: World, starter: Endpoint)
    requires Agreed(servers, failed) && Start(servers, failed, w) && Lists(Backups(servers), starter)
    ensures OneInitiatorRun(servers, failed, w, [Suspect(starter)], starter)
  {
    var ring := Backups(servers);
    AgreedGivesRing(servers, failed);
    MembersAreListed(ring, starter);
    SuspectStep(servers, ring, failed, w.nodes[starter]);
    var w1 := Next(failed, w, Suspect(starter));
    assert w1.starts == [starter];
    assert [Suspect(starter)][1..] == [];
    assert After(failed, w, [Suspect(starter)]) == After(failed, w1, []) == w1;
  }

  // ------------------------------------------------------------------ exactly when failover succeeds

  /** Exactly when failover succeeds: a lossless run from agreed views in which nothing is in flight any
      more has failed over if and only if exactly one survivor started an election. With none there
      was no election, and every further one costs a server its life or elects a second time. */
  lemma FailsOverIff(servers: seq<Server>, failed: Endpoint, w: World, actions: seq<Action>, top: Endpoint)
    requires Agreed(servers, failed) && Start(servers, failed, w) && IsHighest(Backups(servers), top)
    requires Run(failed, w, actions) && LosslessRun(actions) && Silent(After(failed, w, actions))
    ensures FailedOver(After(failed, w, actions), w.nodes.Keys, Without(servers, failed), top)
       <==> |After(failed, w, actions).starts| == 1
  {
    hide Run, After, LosslessRun, Agreed;
    var w' := After(failed, w, actions);
    RunAccountsStarts(failed, w, actions, |w.nodes|);
    assert |w'.nodes| == |w'.nodes.Keys| && |w.nodes| == |w.nodes.Keys|;
    if |w'.starts| == 1 {
      assert w'.starts == [w'.starts[0]];
      FailoverCompletes(servers, failed, w, actions, w'.starts[0], top);
    }
  }

  // ------------------------------------------------------------------ what the survivors see

  /** What a list in circulation shows: the failed primary, a new one, or neither. */
  lemma ViewAtStage(servers: seq<Server>, ring: seq<Server>, failed: Endpoint, i: nat, t: nat, stage: Stage,
          e: Endpoint)
    requires Setting(servers, ring, failed, i, t) && Reached(|ring|, Dist(|ring|, i, t), stage)
    requires e in WorldAt(servers, ring, failed, i, t, stage).nodes
    ensures var list := WorldAt(servers, ring, failed, i, t, stage).nodes[e].servers;
      if stage.Voting? then list == servers || list == ring else !Lists(list, failed)
  {
    PromotedRing(servers, ring, failed, i, t, t);
  }

  /** Agreement at every moment: no survivor still lists the failed primary once another lists a
      new one, and by the time anyone is elected everybody has dropped it. */
  lemma ViewsNeverSplit(servers: seq<Server>, failed: Endpoint, w: World, actions: seq<Action>,
          starter: Endpoint, a: Endpoint, b: Endpoint)
    requires OneInitiatorRun(servers, failed, w, actions, starter)
    requires a in After(failed, w, actions).nodes && b in After(failed, w, actions).nodes
    ensures var w' := After(failed, w, actions);
      && (w'.winners != [] ==> !Lists(w'.nodes[a].servers, failed))
      && !(Lists(w'.nodes[a].servers, failed)
           && exists s :: s in w'.nodes[b].servers && s.kind == Primary && s.at != failed)
  {
    StarterIsSurvivor(servers, failed, w, actions, starter);
    var top := HighestOf(Backups(servers));
    var ring, i, t, last := OneInitiatorStage(servers, failed, w, actions, starter, top);
    ViewAtStage(servers, ring, failed, i, t, last, a);
    ViewAtStage(servers, ring, failed, i, t, last, b);
    BackupsMembers(servers);
  }

  /** Every non-empty ring has a greatest server. */
  lemma {:induction false} HighestOf(ring: seq<Server>) returns (top: Endpoint)
    requires |ring| > 0
    ensures IsHighest(ring, top)
  {
    var k := 0;
    for j := 1 to |ring|
      invariant k < |ring|
      invariant forall l :: 0 <= l < j ==> !Greater(ring[l].at, ring[k].at)
    {
      if Greater(ring[j].at, ring[k].at) {
        k := j;
      }
    }
    top := ring[k].at;
    ListsIff(ring, top);
  }
}
