/** From joining to failover: the two state machines end to end. */
module Lifecycle {
  import opened Servers
  import opened Membership
  import Ring
  import RingSafety
  import FailoverRuns
  import ComsThreads
  import JoinOrder

  lemma {:induction false} WithoutHead(list: seq<Server>, e: Endpoint)
    requires |list| > 0 && list[0].at == e && forall k :: 0 < k < |list| ==> list[k].at != e
    ensures Without(list, e) == list[1..]
  {
    if |list| > 1 {
      var front := list[..|list| - 1];
      WithoutHead(front, e);
      assert list[1..] == front[1..] + [list[|list| - 1]];
    }
  }

  /** The run of joins has settled with this list, and this is what the primary's crash leaves. */
  ghost predicate SettledWith(primary: Endpoint, joins: seq<Action>, list: seq<Server>, w: Ring.World) {
    && Run(Init(primary), joins) && FreshBoots(Init(primary), joins)
    && var c := After(Init(primary), joins);
    && c.primary == primary && primary in c.nodes && Settled(c) && list == PrimaryList(c) && w == Survivors(c)
  }

  /** Servers join in any interleaving and settle; the primary then crashes, one survivor notices, and
      no message is lost. When the election falls silent, every other server that had joined is still
      there and holds the old primary's list without it, in the order in which they joined, with the
      greatest of them as the only primary; the DNS names that server. */
  lemma JoinedClusterFailsOver(primary: Endpoint, joins: seq<Action>, list: seq<Server>, w: Ring.World,
                               election: seq<Ring.Action>, starter: Endpoint, top: Endpoint)
    requires SettledWith(primary, joins, list, w)
    requires Ring.Run(primary, w, election) && Ring.LosslessRun(election)
    requires Ring.After(primary, w, election).starts == [starter]
    requires FailoverRuns.Silent(Ring.After(primary, w, election))
    requires RingSafety.IsHighest(Backups(list), top)
    ensures FailoverRuns.FailedOver(Ring.After(primary, w, election), w.nodes.Keys, list[1..], top)
  {
    hide Run, After, FreshBoots, Ring.Run, Ring.After, Ring.Agreed, Ring.Start;
    SettledClusterIsElectionReady(primary, joins);
    FailoverRuns.FailoverCompletes(list, primary, w, election, starter, top);
    SettledListIsHeaded(primary, joins);
    WithoutHead(list, primary);
  }

  lemma SettledListIsHeaded(primary: Endpoint, joins: seq<Action>)
    requires Run(Init(primary), joins)
    ensures var c := After(Init(primary), joins);
      primary in c.nodes && c.primary == primary && Headed(PrimaryList(c), primary)
  {
    assert Good(Init(primary));
    ListGrowsAtEnd(Init(primary), joins);
  }

  /** What the primary's crash leaves of a settled cluster, with every server's thread for the others. */
  function AtCrash(c: Cluster): ComsThreads.State {
    var w := Survivors(c);
    var coms := map e | e in w.nodes && e in c.nodes ::
      ComsThreads.Coms(ComsThreads.Accepting, [], c.nodes[e].deferred);
    ComsThreads.State(w, coms, {})
  }

  /** The greatest survivor has no deferred request exactly when it joined last. */
  lemma NoRequestsIff(primary: Endpoint, joins: seq<Action>, list: seq<Server>, w: Ring.World, top: Endpoint)
    requires SettledWith(primary, joins, list, w) && Ring.Agreed(list, primary) && Lists(Backups(list), top)
    ensures |list| > 1 && top in After(Init(primary), joins).nodes
    ensures After(Init(primary), joins).nodes[top].deferred == 0 <==> list[|list| - 1].at == top
  {
    hide Run, After, FreshBoots, Settled;
    BackupsMembers(list);
    var b := IndexFrom(Backups(list), top, 0);
    assert Backups(list)[b] in list;
    var k :| 0 <= k < |list| && list[k] == Backups(list)[b];
    SettledListIsHeaded(primary, joins);
    JoinOrder.DeferredIsLaterJoins(primary, joins, k);
    DistinctIff(list);
  }

  /** Exactly which joined clusters can finish a failover in which one survivor notices the crash: those with at
      most two survivors, and those whose greatest survivor joined last. In any other, the winner was told of
      a registration once, and answers one fetch only. */
  lemma JoinedClusterFinishesIff(primary: Endpoint, joins: seq<Action>, list: seq<Server>, w: Ring.World,
                                 starter: Endpoint, top: Endpoint)
    requires SettledWith(primary, joins, list, w)
    requires Lists(Backups(list), starter) && RingSafety.IsHighest(Backups(list), top)
    ensures |list| > 1
    ensures var s := AtCrash(After(Init(primary), joins));
      (exists election :: ComsThreads.Finishes(primary, s, election, starter))
      <==> |Backups(list)| <= 2 || list[|list| - 1].at == top
  {
    hide Run, After, FreshBoots, Ring.Agreed, Ring.Start, ComsThreads.Finishes;
    SettledClusterIsElectionReady(primary, joins);
    NoRequestsIff(primary, joins, list, w, top);
    var s := AtCrash(After(Init(primary), joins));
    ComsThreads.FinishesIff(list, primary, s, starter, top);
  }

  /** Any servers can have joined in any order; so both kinds of clusters come about. */
  lemma JoinOrderDecides(primary: Endpoint, es: seq<Endpoint>, starter: Endpoint, top: Endpoint)
    returns (joins: seq<Action>, list: seq<Server>)
    requires JoinOrder.NoRepeats(es) && primary !in es && starter in es && top in es
    requires forall e :: e in es ==> !Greater(e, top)
    ensures Run(Init(primary), joins) && SettledWith(primary, joins, list, Survivors(After(Init(primary), joins)))
    ensures list == [Server(primary, Primary)] + JoinOrder.AsBackups(es)
    ensures var s := AtCrash(After(Init(primary), joins));
      (exists election :: ComsThreads.Finishes(primary, s, election, starter))
      <==> |es| <= 2 || es[|es| - 1] == top
  {
    hide Run, After, FreshBoots, ComsThreads.Finishes, RingSafety.IsHighest, Settled;
    joins := JoinOrder.AnyJoinOrder(primary, es);
    list := PrimaryList(After(Init(primary), joins));
    BackupsOfJoined(primary, es, top);
    ListsIff(Backups(list), starter);
    var k :| 0 <= k < |es| && es[k] == starter;
    assert Backups(list)[k].at == starter;
    JoinedClusterFinishesIff(primary, joins, list, Survivors(After(Init(primary), joins)), starter, top);
  }

  lemma BackupsOfJoined(primary: Endpoint, es: seq<Endpoint>, top: Endpoint)
    requires top in es && forall e :: e in es ==> !Greater(e, top)
    ensures Backups([Server(primary, Primary)] + JoinOrder.AsBackups(es)) == JoinOrder.AsBackups(es)
    ensures RingSafety.IsHighest(JoinOrder.AsBackups(es), top)
  {
    BackupsAfterHead(Server(primary, Primary), JoinOrder.AsBackups(es));
    var list := JoinOrder.AsBackups(es);
    var k :| 0 <= k < |es| && es[k] == top;
    assert list[k].at == top;
    ListsIff(list, top);
  }

  lemma {:induction false} BackupsAfterHead(head: Server, rest: seq<Server>)
    requires head.kind == Primary && forall k :: 0 <= k < |rest| ==> rest[k].kind == Backup
    ensures Backups([head] + rest) == rest
  {
    var all := [head] + rest;
    if rest == [] {
      assert all[..0] == [];
    } else {
      var front := rest[..|rest| - 1];
      assert all[..|all| - 1] == [head] + front;
      BackupsAfterHead(head, front);
    }
  }
}
