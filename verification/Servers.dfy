/** The server list ("metadata") and the pure operations the election, the join sequence
    and the server-to-server protocol perform on it. */
module Servers {
  import opened Basics

  datatype Endpoint = Endpoint(ip: u32, port: u16)
  datatype ServerType = Primary | Backup
  datatype Server = Server(at: Endpoint, kind: ServerType)

  /** `comp`: lexicographic order on (ip, port). */
  predicate Greater(a: Endpoint, b: Endpoint) {
    if a.ip > b.ip then true
    else if a.ip < b.ip then false
    else a.port > b.port
  }

  lemma GreaterIsStrictTotalOrder(a: Endpoint, b: Endpoint, c: Endpoint)
    ensures !(Greater(a, b) && Greater(b, a))
    ensures a == b || Greater(a, b) || Greater(b, a)
    ensures Greater(a, b) && Greater(b, c) ==> Greater(a, c)
  {
  }

  /** Who wins a comparison: the greater ip, and among equal ips the greater port. */
  lemma GreaterIff(a: Endpoint, b: Endpoint)
    ensures Greater(a, b) <==> a.ip * 0x1_0000 + a.port > b.ip * 0x1_0000 + b.port
    ensures !Greater(a, b) <==> a.ip < b.ip || (a.ip == b.ip && a.port <= b.port)
  {
  }

  /** Position of the first entry for `e` at or after `from`, or the length when there is none. */
  function IndexFrom(servers: seq<Server>, e: Endpoint, from: nat): (k: nat)
    requires from <= |servers|
    ensures from <= k <= |servers|
    ensures k < |servers| ==> servers[k].at == e
  {
    FirstIndex(servers, (s: Server) => s.at == e, from)
  }

  /** No entry for `e` precedes the position found. */
  lemma {:induction false} IndexIsFirst(servers: seq<Server>, e: Endpoint, from: nat, j: nat)
    requires from <= j < |servers| && servers[j].at == e
    ensures IndexFrom(servers, e, from) <= j
    decreases |servers| - from
  {
    if servers[from].at != e {
      IndexIsFirst(servers, e, from + 1, j);
    }
  }

  predicate Lists(servers: seq<Server>, e: Endpoint) {
    IndexFrom(servers, e, 0) < |servers|
  }

  lemma ListsIff(servers: seq<Server>, e: Endpoint)
    ensures Lists(servers, e) <==> exists k :: 0 <= k < |servers| && servers[k].at == e
  {
    if k :| 0 <= k < |servers| && servers[k].at == e {
      IndexIsFirst(servers, e, 0, k);
    }
  }

  /** No endpoint is listed twice: every entry is the first one for its endpoint. */
  ghost predicate Distinct(servers: seq<Server>) {
    forall k {:trigger IndexFrom(servers, servers[k].at, 0)} :: 0 <= k < |servers| ==>
      IndexFrom(servers, servers[k].at, 0) == k
  }

  lemma DistinctIff(servers: seq<Server>)
    ensures Distinct(servers) <==> forall i, j :: 0 <= i < j < |servers| ==> servers[i].at != servers[j].at
  {
    if Distinct(servers) {
      forall i, j | 0 <= i < j < |servers| ensures servers[i].at != servers[j].at {
        assert IndexFrom(servers, servers[i].at, 0) == i && IndexFrom(servers, servers[j].at, 0) == j;
      }
    } else {
      var k :| 0 <= k < |servers| && IndexFrom(servers, servers[k].at, 0) != k;
      IndexIsFirst(servers, servers[k].at, 0, k);
    }
  }

  function Members(servers: seq<Server>): set<Endpoint> {
    if servers == [] then {} else {servers[0].at} + Members(servers[1..])
  }

  lemma {:induction false} MembersFrom(servers: seq<Server>, e: Endpoint, from: nat)
    requires from <= |servers|
    ensures e in Members(servers[from..]) <==> IndexFrom(servers, e, from) < |servers|
    decreases |servers| - from
  {
    if from < |servers| {
      MembersFrom(servers, e, from + 1);
      assert servers[from..][1..] == servers[from + 1..];
    }
  }

  lemma MembersAreListed(servers: seq<Server>, e: Endpoint)
    ensures e in Members(servers) <==> Lists(servers, e)
  {
    MembersFrom(servers, e, 0);
    assert servers[0..] == servers;
  }

  /** The position after `k` on a ring of `n`. */
  function Succ(n: nat, k: nat): nat { if k + 1 == n then 0 else k + 1 }

  lemma SuccIsModulo(n: nat, k: nat)
    requires k < n
    ensures (k + 1) % n == Succ(n, k)
  {
    if k + 1 < n {
      assert (k + 1) / n == 0;
    }
  }

  /** The server after `e` on the ring, or None when `e` is not listed. */
  function NextServer(servers: seq<Server>, e: Endpoint): Option<Endpoint> {
    var k := IndexFrom(servers, e, 0);
    if k == |servers| then None else Some(servers[Succ(|servers|, k)].at)
  }

  /** The list without the entries for `e`. */
  function Without(servers: seq<Server>, e: Endpoint): (kept: seq<Server>)
    ensures |kept| <= |servers|
  {
    if |servers| == 0 then []
    else
      var last := servers[|servers| - 1];
      var kept := Without(servers[..|servers| - 1], e);
      if last.at != e then kept + [last] else kept
  }

  /** The list without the entries marked primary. */
  function Backups(servers: seq<Server>): (kept: seq<Server>)
    ensures |kept| <= |servers|
  {
    if |servers| == 0 then []
    else
      var last := servers[|servers| - 1];
      var kept := Backups(servers[..|servers| - 1]);
      if last.kind != Primary then kept + [last] else kept
  }

  /** The list with the first entry for `e` marked primary. */
  function Promote(servers: seq<Server>, e: Endpoint): seq<Server> {
    var k := IndexFrom(servers, e, 0);
    if k == |servers| then servers else servers[k := Server(servers[k].at, Primary)]
  }

  /** Only the first entry for the server becomes primary, and no other entry changes. */
  lemma PromoteIff(servers: seq<Server>, e: Endpoint, k: nat)
    requires k < |servers|
    ensures |Promote(servers, e)| == |servers|
    ensures Promote(servers, e)[k] ==
      if servers[k].at == e && forall j :: 0 <= j < k ==> servers[j].at != e then Server(e, Primary) else servers[k]
  {
    var first := IndexFrom(servers, e, 0);
    if servers[k].at == e {
      IndexIsFirst(servers, e, 0, k);
      if j :| 0 <= j < k && servers[j].at == e {
        IndexIsFirst(servers, e, 0, j);
      }
    }
  }

  /** Position of the first primary at or after `from`, or the length when there is none. */
  function PrimaryFrom(servers: seq<Server>, from: nat): (k: nat)
    requires from <= |servers|
    ensures from <= k <= |servers|
    ensures k < |servers| ==> servers[k].kind == Primary
    ensures forall j :: from <= j < k ==> servers[j].kind != Primary
  {
    FirstIndex(servers, (s: Server) => s.kind == Primary, from)
  }

  /** What a fetch of this list delivers: the wire format names one primary position only. */
  function Transfer(servers: seq<Server>): (got: seq<Server>)
    ensures |got| == |servers|
    ensures forall k :: 0 <= k < |servers| ==> got[k].at == servers[k].at
  {
    seq(|servers|, k requires 0 <= k < |servers| =>
      Server(servers[k].at, if k == PrimaryFrom(servers, 0) then Primary else Backup))
  }

  ghost predicate AtMostOnePrimary(servers: seq<Server>) {
    forall i, j :: 0 <= i < j < |servers| ==> servers[i].kind == Backup || servers[j].kind == Backup
  }

  /** A fetched list equals the sender's list exactly when the sender has at most one primary. */
  lemma TransferIsIdentityIff(servers: seq<Server>)
    ensures Transfer(servers) == servers <==> AtMostOnePrimary(servers)
  {
    var p := PrimaryFrom(servers, 0);
    var got := Transfer(servers);
    if AtMostOnePrimary(servers) {
      forall k | 0 <= k < |servers| ensures got[k] == servers[k] {
        assert k < p ==> servers[k].kind == Backup;
        assert p < k ==> servers[k].kind == Backup;
      }
    } else {
      var i, j :| 0 <= i < j < |servers| && servers[i].kind == Primary && servers[j].kind == Primary;
      assert p <= i;
      assert got[j].kind == Backup;
    }
  }

  lemma {:induction false} WithoutMembers(servers: seq<Server>, e: Endpoint)
    ensures forall s :: s in Without(servers, e) <==> s in servers && s.at != e
    ensures |Without(servers, e)| == |servers| <==> !Lists(servers, e)
    ensures !Lists(servers, e) ==> Without(servers, e) == servers
  {
    if |servers| > 0 {
      var front, last := servers[..|servers| - 1], servers[|servers| - 1];
      assert servers == front + [last];
      WithoutMembers(front, e);
      ListsIff(front, e);
      ListsIff(servers, e);
      if Lists(front, e) {
        var k := IndexFrom(front, e, 0);
        assert servers[k].at == e;
      }
    }
  }

  lemma {:induction false} BackupsMembers(servers: seq<Server>)
    ensures forall s :: s in Backups(servers) <==> s in servers && s.kind == Backup
  {
    if |servers| > 0 {
      var front, last := servers[..|servers| - 1], servers[|servers| - 1];
      assert servers == front + [last];
      BackupsMembers(front);
    }
  }

  /** Dropping entries keeps the endpoints distinct. */
  lemma {:induction false} BackupsDistinct(servers: seq<Server>)
    requires Distinct(servers)
    ensures Distinct(Backups(servers))
  {
    DistinctIff(servers);
    DistinctIff(Backups(servers));
    if |servers| > 0 {
      var front, last := servers[..|servers| - 1], servers[|servers| - 1];
      DistinctIff(front);
      DistinctIff(Backups(front));
      BackupsDistinct(front);
      BackupsMembers(front);
      forall k | 0 <= k < |Backups(front)| ensures Backups(front)[k].at != last.at {
        assert Backups(front)[k] in front;
      }
    }
  }

  /** With one primary in the list, dropping that server and dropping the primaries is the same. */
  lemma {:induction false} WithoutPrimaryIsBackups(servers: seq<Server>, failed: Endpoint)
    requires forall s :: s in servers ==> (s.kind == Primary <==> s.at == failed)
    ensures Without(servers, failed) == Backups(servers)
  {
    if |servers| > 0 {
      WithoutPrimaryIsBackups(servers[..|servers| - 1], failed);
    }
  }

  lemma {:induction false} BackupsOfBackups(servers: seq<Server>)
    requires forall s :: s in servers ==> s.kind == Backup
    ensures Backups(servers) == servers
  {
    if |servers| > 0 {
      BackupsOfBackups(servers[..|servers| - 1]);
    }
  }
}
