/** The server-to-server requests: fetching the server list, joining, finding the primary, and asking
    a server to update its list. */
module Coms {
  import opened Basics
  import opened Servers
  import opened Wire
  import opened Streams

  const STATUS_OK: nat := 0
  const STATUS_INVALID_REQUEST_TYPE: nat := 10

  datatype Request = FetchMetadata | Hello | Register(port: u16) | GetPrimary | UpdateMetadata

  type ServerList = Sized<Server>

  function EncodeRequest(r: Request): Bytes {
    match r
    case FetchMetadata => Low(1, 14)
    case Hello => Low(1, 15)
    case Register(port) => Low(1, 16) + Low(2, port)
    case GetPrimary => Low(1, 17)
    case UpdateMetadata => Low(1, 18)
  }

  function ParseRequest(s: Bytes): Parsed<Request> {
    var (code, s) :- ParseUint(1, s);
    match code
    case 14 => Got(FetchMetadata, s)
    case 15 => Got(Hello, s)
    case 16 =>
      var (port, s) :- ParseUint(2, s);
      PowersOf256();
      Got(Register(port), s)
    case 17 => Got(GetPrimary, s)
    case 18 => Got(UpdateMetadata, s)
    case _ => Rejected
  }

  lemma NoCode(s: Bytes)
    ensures ParseUint(1, s) == Short ==> ParseRequest(s) == Short
  {
  }

  /** What the request is, once its code has been read. */
  lemma CodeDecides(s: Bytes, code: nat, rest: Bytes)
    requires ParseUint(1, s) == Got(code, rest)
    ensures code == 14 ==> ParseRequest(s) == Got(FetchMetadata, rest)
    ensures code == 15 ==> ParseRequest(s) == Got(Hello, rest)
    ensures code == 16 ==> match ParseUint(2, rest)
                           case Got(port, left) => port < 0x1_0000 && ParseRequest(s) == Got(Register(port), left)
                           case _ => ParseRequest(s) == Short
    ensures code == 17 ==> ParseRequest(s) == Got(GetPrimary, rest)
    ensures code == 18 ==> ParseRequest(s) == Got(UpdateMetadata, rest)
    ensures !(14 <= code <= 18) ==> ParseRequest(s) == Rejected
  {
    PowersOf256();
  }

  lemma RequestRoundTrip(r: Request, rest: Bytes)
    ensures ParseRequest(EncodeRequest(r) + rest) == Got(r, rest)
  {
    hide Low, ParseUint;
    match r
    case FetchMetadata => ValueRoundTrip(1, 14, rest);
    case Hello => ValueRoundTrip(1, 15, rest);
    case Register(port) =>
      assert EncodeRequest(r) + rest == Low(1, 16) + (Low(2, port) + rest);
      ValueRoundTrip(1, 16, Low(2, port) + rest);
      ValueRoundTrip(2, port, rest);
    case GetPrimary => ValueRoundTrip(1, 17, rest);
    case UpdateMetadata => ValueRoundTrip(1, 18, rest);
  }

  /** The requests, byte by byte. */
  lemma RequestBytes(port: u16)
    ensures EncodeRequest(FetchMetadata) == [14] && EncodeRequest(Hello) == [15]
    ensures EncodeRequest(Register(port)) == [16, port % 0x100, port / 0x100]
    ensures EncodeRequest(GetPrimary) == [17] && EncodeRequest(UpdateMetadata) == [18]
  {
    LowBytes(14);
    LowBytes(15);
    LowBytes(16);
    LowBytes(17);
    LowBytes(18);
    LowBytes(port);
  }

  // ------------------------------------------------------------------ the list on the wire

  function EncodeEndpoint(e: Endpoint): Bytes { Low(4, e.ip) + Low(2, e.port) }

  /** The endpoints of a list, in order; the kinds do not travel. */
  function EncodeEntries(servers: seq<Server>): Bytes {
    if servers == [] then [] else EncodeEndpoint(servers[0].at) + EncodeEntries(servers[1..])
  }

  /** The length, the position of the first primary (or the length when there is none), the entries. */
  function EncodeMetadata(servers: ServerList): Bytes {
    Low(2, STATUS_OK) + Low(8, |servers|) + Low(8, PrimaryFrom(servers, 0)) + EncodeEntries(servers)
  }

  function ParseEndpoint(s: Bytes): Parsed<Endpoint> {
    var (ip, s) :- ParseUint(4, s);
    var (port, s) :- ParseUint(2, s);
    PowersOf256();
    Got(Endpoint(ip, port), s)
  }

  /** The entries from position `i` on, of which the one at `primary` is the primary. */
  function ParseEntries(i: nat, length: nat, primary: nat, s: Bytes): (p: Parsed<seq<Server>>)
    requires i <= length
    ensures p.Got? ==> |p.value| == length - i
    ensures !p.Rejected?
    decreases length - i
  {
    if i == length then Got([], s)
    else
      var (at, s) :- ParseEndpoint(s);
      var (rest, s) :- ParseEntries(i + 1, length, primary, s);
      Got([Server(at, if i == primary then Primary else Backup)] + rest, s)
  }

  /** What the fetching side makes of the reply; another status yields an empty list. */
  function ParseMetadata(s: Bytes): Parsed<(u16, seq<Server>)> {
    PowersOf256();
    var (status, s) :- ParseUint(2, s);
    if status != STATUS_OK then Got((status, []), s)
    else
      var (length, s) :- ParseUint(8, s);
      var (primary, s) :- ParseUint(8, s);
      var (servers, s) :- ParseEntries(0, length, primary, s);
      Got((status, servers), s)
  }

  /** Each entry takes six bytes. */
  lemma {:induction false} EntriesLayout(servers: seq<Server>, k: nat)
    ensures |EncodeEntries(servers)| == 6 * |servers|
    ensures k < |servers| ==>
      EncodeEntries(servers)[6 * k..6 * k + 6] == Low(4, servers[k].at.ip) + Low(2, servers[k].at.port)
  {
    hide Low;
    if servers != [] {
      var first, rest := EncodeEndpoint(servers[0].at), EncodeEntries(servers[1..]);
      EntriesLayout(servers[1..], if k > 0 then k - 1 else 0);
      if k == 0 {
        assert (first + rest)[..6] == first;
      } else if k < |servers| {
        assert (first + rest)[6 * k..6 * k + 6] == rest[6 * (k - 1)..6 * (k - 1) + 6];
      }
    }
  }

  /** The list, field by field: status zero, length, position of the first primary or the length, and for each
      entry the ip and the port, all with the lowest byte first. */
  lemma MetadataLayout(servers: ServerList, k: nat)
    ensures var bytes := EncodeMetadata(servers);
      && |bytes| == 18 + 6 * |servers| && bytes[..2] == [0, 0]
      && Value(bytes[2..10]) == |servers|
      && Value(bytes[10..18]) == PrimaryFrom(servers, 0)
      && (k < |servers| ==>
        && Value(bytes[18 + 6 * k..22 + 6 * k]) == servers[k].at.ip
        && Value(bytes[22 + 6 * k..24 + 6 * k]) == servers[k].at.port)
  {
    hide Low, Value, PrimaryFrom, EncodeEntries;
    var bytes, entries := EncodeMetadata(servers), EncodeEntries(servers);
    EntriesLayout(servers, k);
    LowBytes(0);
    assert bytes[..2] == Low(2, STATUS_OK);
    assert bytes[2..10] == Low(8, |servers|) && bytes[10..18] == Low(8, PrimaryFrom(servers, 0));
    assert bytes[18..] == entries;
    PowersOf256();
    ValueOfLow(8, |servers|);
    ValueOfLow(8, PrimaryFrom(servers, 0));
    if k < |servers| {
      var at := servers[k].at;
      assert bytes[18 + 6 * k..22 + 6 * k] == entries[6 * k..6 * k + 6][..4] == Low(4, at.ip);
      assert bytes[22 + 6 * k..24 + 6 * k] == entries[6 * k..6 * k + 6][4..] == Low(2, at.port);
      ValueOfLow(4, at.ip);
      ValueOfLow(2, at.port);
    }
  }

  /** A reply with another status carries no list, and no primary. */
  lemma RefusedList(status: u16, rest: Bytes)
    requires status != 0
    ensures ParseMetadata([status % 0x100, status / 0x100] + rest) == Got((status, []), rest)
    ensures ParsePrimary([status % 0x100, status / 0x100] + rest) == Rejected
  {
    LowBytes(status);
    PowersOf256();
    ValueRoundTrip(2, status, rest);
  }

  lemma EndpointRoundTrip(e: Endpoint, rest: Bytes)
    ensures ParseEndpoint(EncodeEndpoint(e) + rest) == Got(e, rest)
  {
    assert EncodeEndpoint(e) + rest == Low(4, e.ip) + (Low(2, e.port) + rest);
    ValueRoundTrip(4, e.ip, Low(2, e.port) + rest);
    ValueRoundTrip(2, e.port, rest);
  }

  lemma {:induction false} EntriesRoundTrip(servers: seq<Server>, i: nat, rest: Bytes)
    requires i <= |servers|
    ensures ParseEntries(i, |servers|, PrimaryFrom(servers, 0), EncodeEntries(servers[i..]) + rest)
         == Got(Transfer(servers)[i..], rest)
    decreases |servers| - i
  {
    hide PrimaryFrom, ParseEndpoint, EncodeEndpoint;
    var got := Transfer(servers);
    if i == |servers| {
      assert EncodeEntries(servers[i..]) + rest == rest;
      assert got[i..] == [];
    } else {
      assert got[i] == Server(servers[i].at, if i == PrimaryFrom(servers, 0) then Primary else Backup);
      var next := EncodeEntries(servers[i + 1..]) + rest;
      assert servers[i..][1..] == servers[i + 1..];
      assert EncodeEntries(servers[i..]) + rest == EncodeEndpoint(servers[i].at) + next;
      EndpointRoundTrip(servers[i].at, next);
      EntriesRoundTrip(servers, i + 1, rest);
      assert got[i..] == [got[i]] + got[i + 1..];
    }
  }

  /** Metadata transfer: a list of any length arrives with only its first primary still primary, and
      therefore unchanged exactly when it has at most one primary. */
  lemma MetadataRoundTrip(servers: ServerList, rest: Bytes)
    ensures ParseMetadata(EncodeMetadata(servers) + rest) == Got((STATUS_OK, Transfer(servers)), rest)
    ensures ParseMetadata(EncodeMetadata(servers) + rest) == Got((STATUS_OK, servers), rest)
       <==> AtMostOnePrimary(servers)
  {
    hide PrimaryFrom, AtMostOnePrimary, ParseEntries, EncodeEntries, Transfer;
    var primary := PrimaryFrom(servers, 0);
    var s3 := EncodeEntries(servers) + rest;
    var s2 := Low(8, primary) + s3;
    var s1 := Low(8, |servers|) + s2;
    assert EncodeMetadata(servers) + rest == Low(2, STATUS_OK) + s1;
    ValueRoundTrip(2, STATUS_OK, s1);
    ValueRoundTrip(8, |servers|, s2);
    ValueRoundTrip(8, primary, s3);
    assert servers[0..] == servers && Transfer(servers)[0..] == Transfer(servers);
    EntriesRoundTrip(servers, 0, rest);
    TransferIsIdentityIff(servers);
  }

  // ------------------------------------------------------------------ one request at a server

  /** Where a registration is announced: every backup listed except the one that registered. */
  function Others(servers: seq<Server>, peer: Endpoint): (others: seq<Endpoint>)
    ensures peer !in others
  {
    if servers == [] then []
    else
      var rest := Others(servers[1..], peer);
      if servers[0].kind != Primary && servers[0].at != peer then [servers[0].at] + rest else rest
  }

  datatype Outcome =
    | Served(servers: seq<Server>, peer: Endpoint, deferred: nat, reply: Bytes, announce: seq<Endpoint>)
    | Closed(reply: Bytes)    // the connection is dropped
    | Crashed                 // the address of a primary is taken where there is none

  /** What a server with this list makes of the next request of a peer. */
  function Handle(servers: ServerList, peer: Endpoint, deferred: nat, s: Bytes): Outcome {
    match ParseRequest(s)
    case Got(FetchMetadata, _) => Served(servers, peer, deferred, EncodeMetadata(servers), [])
    case Got(Hello, _) => Served(servers, peer, deferred, Low(2, STATUS_OK), [])
    case Got(Register(port), _) =>
      var joined := Endpoint(peer.ip, port);
      var grown := servers + [Server(joined, Backup)];
      Served(grown, joined, deferred, Low(2, STATUS_OK), Others(grown, joined))
    case Got(GetPrimary, _) =>
      var k := PrimaryFrom(servers, 0);
      if k == |servers| then Crashed
      else Served(servers, peer, deferred, Low(2, STATUS_OK) + EncodeEndpoint(servers[k].at), [])
    case Got(UpdateMetadata, _) => Served(servers, peer, deferred + 1, Low(2, STATUS_OK), [])
    case Rejected => Closed(Low(2, STATUS_INVALID_REQUEST_TYPE))
    case Short => Closed([])
  }

  function ParsePrimary(s: Bytes): Parsed<Endpoint> {
    var (status, s) :- ParseUint(2, s);
    if status != STATUS_OK then Rejected else ParseEndpoint(s)
  }

  /** The join dialogue with the primary, over the bytes of one connection: hello and register are
      accepted, everybody else is told, and the list fetched is the primary's list with the joining
      server appended. */
  lemma JoinDialogue(servers: ServerList, peer: Endpoint, deferred: nat, port: u16, r1: Bytes, r2: Bytes, r3: Bytes)
    requires |servers| + 1 < U64_LIMIT && AtMostOnePrimary(servers)
    ensures var joined := Endpoint(peer.ip, port);
      var grown := servers + [Server(joined, Backup)];
      && Handle(servers, peer, deferred, EncodeRequest(Hello) + r1)
         == Served(servers, peer, deferred, Low(2, STATUS_OK), [])
      && Handle(servers, peer, deferred, EncodeRequest(Register(port)) + r2)
         == Served(grown, joined, deferred, Low(2, STATUS_OK), Others(grown, joined))
      && Handle(grown, joined, deferred, EncodeRequest(FetchMetadata) + r3)
         == Served(grown, joined, deferred, EncodeMetadata(grown), [])
      && ParseMetadata(EncodeMetadata(grown)) == Got((STATUS_OK, grown), [])
      && (forall e :: e in Others(grown, joined) ==> Server(e, Backup) in servers)
      && (forall s :: s in servers && s.kind == Backup && s.at != joined ==> s.at in Others(grown, joined))
  {
    hide ParseRequest, EncodeRequest, ParseMetadata, EncodeMetadata;
    var joined := Endpoint(peer.ip, port);
    var grown := servers + [Server(joined, Backup)];
    RequestRoundTrip(Hello, r1);
    RequestRoundTrip(Register(port), r2);
    RequestRoundTrip(FetchMetadata, r3);
    MetadataRoundTrip(grown, []);
    assert EncodeMetadata(grown) + [] == EncodeMetadata(grown);
    OthersIff(grown, joined);
  }

  lemma {:induction false} OthersIff(servers: seq<Server>, peer: Endpoint)
    ensures forall e :: e in Others(servers, peer) <==> e != peer && Server(e, Backup) in servers
  {
    if servers != [] {
      OthersIff(servers[1..], peer);
      assert servers == [servers[0]] + servers[1..];
    }
  }

  /** They are told in the order of the list: the servers of its front before those of its back. */
  lemma {:induction false} OthersInOrder(front: seq<Server>, back: seq<Server>, peer: Endpoint)
    ensures Others(front + back, peer) == Others(front, peer) + Others(back, peer)
    ensures forall s :: Others([s], peer) == if s.kind == Backup && s.at != peer then [s.at] else []
  {
    if front == [] {
      assert front + back == back;
    } else {
      assert (front + back)[1..] == front[1..] + back;
      OthersInOrder(front[1..], back, peer);
    }
    forall s ensures Others([s], peer) == if s.kind == Backup && s.at != peer then [s.at] else [] {
      assert [s][1..] == [];
    }
  }

  /** A request of unknown kind is refused with status 10, and the connection dropped; when not even the kind
      arrives, nothing is sent. */
  lemma UnknownIsRefused(servers: ServerList, peer: Endpoint, deferred: nat, code: u8, rest: Bytes)
    ensures !(14 <= code <= 18) ==> Handle(servers, peer, deferred, [code] + rest) == Closed([10, 0])
    ensures Handle(servers, peer, deferred, []) == Closed([])
  {
    LowBytes(code);
    LowBytes(10);
    PowersOf256();
    ValueRoundTrip(1, code, rest);
    CodeDecides([code] + rest, code, rest);
  }

  /** Asking for the primary crashes exactly the servers that list none. */
  lemma AskingCrashesIff(servers: ServerList, peer: Endpoint, deferred: nat, rest: Bytes)
    ensures Handle(servers, peer, deferred, EncodeRequest(GetPrimary) + rest) == Crashed
       <==> forall s :: s in servers ==> s.kind == Backup
  {
    hide ParseRequest, EncodeRequest;
    RequestRoundTrip(GetPrimary, rest);
    var k := PrimaryFrom(servers, 0);
    assert k < |servers| ==> servers[k] in servers;
  }

  /** A server that lists one primary answers with it. */
  lemma PrimaryIsTold(servers: ServerList, peer: Endpoint, deferred: nat, rest: Bytes, p: Endpoint)
    requires Server(p, Primary) in servers
    requires forall s :: s in servers && s.kind == Primary ==> s.at == p
    ensures var reply := Low(2, STATUS_OK) + EncodeEndpoint(p);
      && Handle(servers, peer, deferred, EncodeRequest(GetPrimary) + rest)
         == Served(servers, peer, deferred, reply, [])
      && ParsePrimary(reply) == Got(p, [])
  {
    hide ParseRequest, EncodeRequest;
    RequestRoundTrip(GetPrimary, rest);
    var k := PrimaryFrom(servers, 0);
    assert k < |servers| && servers[k] in servers;
    ValueRoundTrip(2, STATUS_OK, EncodeEndpoint(p));
    EndpointRoundTrip(p, []);
    assert EncodeEndpoint(p) + [] == EncodeEndpoint(p);
  }

  // ------------------------------------------------------------------ the coms thread

  method WriteEndpoint(w: TcpWriter, e: Endpoint) returns (ok: bool)
    requires w.Valid()
    modifies w, w.buffer
    ensures w.Wrote(ok, EncodeEndpoint(e))
  {
    hide Extends;
    ghost var start := w.Written();
    ok := w.WriteUint(4, e.ip);
    FirstPart(start, Low(4, e.ip), Low(2, e.port), w.Written());
    if ok {
      ok := w.WriteUint(2, e.port);
      SecondPart(start, Low(4, e.ip), Low(2, e.port), w.Written());
    }
  }

  method WriteEntries(w: TcpWriter, servers: seq<Server>) returns (ok: bool)
    requires w.Valid()
    modifies w, w.buffer
    ensures w.Wrote(ok, EncodeEntries(servers))
  {
    hide Extends, EncodeEndpoint;
    ghost var start := w.Written();
    ghost var done: Bytes := [];
    NoPart(start);
    for i := 0 to |servers|
      invariant w.Wrote(true, done)
      invariant EncodeEntries(servers) == done + EncodeEntries(servers[i..])
    {
      ghost var entry, rest := EncodeEndpoint(servers[i].at), EncodeEntries(servers[i + 1..]);
      assert EncodeEntries(servers) == (done + entry) + rest by {
        assert servers[i..][1..] == servers[i + 1..];
        assert done + (entry + rest) == (done + entry) + rest;
      }
      ok := WriteEndpoint(w, servers[i].at);
      SecondPart(start, done, entry, w.Written());
      FirstPart(start, done + entry, rest, w.Written());
      if !ok {
        return false;
      }
      done := done + entry;
    }
    assert EncodeEntries(servers) == done;
    ok := true;
  }

  /** Finding the primary's position, then writing everything: the reply to a fetch, unflushed. */
  method WriteMetadata(w: TcpWriter, servers: ServerList) returns (ok: bool)
    requires w.Valid()
    modifies w, w.buffer
    ensures w.Wrote(ok, EncodeMetadata(servers))
  {
    hide Extends, EncodeEntries;
    ghost var start := w.Written();
    ok := w.WriteUint(2, STATUS_OK);
    ghost var s, l := Low(2, STATUS_OK), Low(8, |servers|);
    FirstPart(start, s, l, w.Written());
    var primaryIndex := |servers|;
    for i := 0 to |servers|
      invariant primaryIndex == |servers| && PrimaryFrom(servers, 0) == PrimaryFrom(servers, i)
    {
      if servers[i].kind == Primary {
        primaryIndex := i;
        break;
      }
    }
    assert primaryIndex == PrimaryFrom(servers, 0);
    ghost var p, e := Low(8, primaryIndex), EncodeEntries(servers);
    if ok {
      ok := w.WriteUint(8, |servers|);
      SecondPart(start, s, l, w.Written());
    }
    FirstPart(start, s + l, p, w.Written());
    if ok {
      ok := w.WriteUint(8, primaryIndex);
      SecondPart(start, s + l, p, w.Written());
    }
    FirstPart(start, s + l + p, e, w.Written());
    if ok {
      ok := WriteEntries(w, servers);
      SecondPart(start, s + l + p, e, w.Written());
    }
  }

  /** The receiving half of a fetch. */
  method ReadMetadata(r: TcpReader) returns (ok: bool, status: u16, servers: seq<Server>)
    requires r.Valid()
    modifies r, r.aBuffer, r.bBuffer
    ensures r.Valid()
    ensures ok ==> ParseMetadata(old(r.Pending())) == Got((status, servers), r.Pending())
    ensures !ok ==> ParseMetadata(old(r.Pending())) == Short
  {
    PowersOf256();
    status, servers := 0, [];
    var code: nat, length: nat, primary: nat;
    ok, code := r.ReadUint(2);
    if !ok {
      return;
    }
    status := code;
    if status != STATUS_OK {
      return;
    }
    ok, length := r.ReadUint(8);
    if !ok {
      return;
    }
    ok, primary := r.ReadUint(8);
    if !ok {
      return;
    }
    ok, servers := ReadEntries(r, length, primary);
  }

  method ReadEntries(r: TcpReader, length: nat, primary: nat) returns (ok: bool, servers: seq<Server>)
    requires r.Valid()
    modifies r, r.aBuffer, r.bBuffer
    ensures r.Valid()
    ensures ok ==> ParseEntries(0, length, primary, old(r.Pending())) == Got(servers, r.Pending())
    ensures !ok ==> ParseEntries(0, length, primary, old(r.Pending())) == Short
  {
    hide ParseEndpoint;
    ghost var all := ParseEntries(0, length, primary, old(r.Pending()));
    servers := [];
    assert all.Got? ==> servers + all.value == all.value;
    for i := 0 to length
      invariant r.Valid() && |servers| == i
      invariant var left := ParseEntries(i, length, primary, r.Pending());
        (left.Got? && all == Got(servers + left.value, left.rest)) || (left.Short? && all.Short?)
    {
      var at: Endpoint;
      NextEntry(i, length, primary, r.Pending(), servers);
      ok, at := ReadEndpoint(r);
      if !ok {
        return;
      }
      servers := servers + [Server(at, if i == primary then Primary else Backup)];
    }
    assert all.Got? ==> servers + ParseEntries(length, length, primary, r.Pending()).value == servers;
    ok := true;
  }

  lemma NextEntry(i: nat, length: nat, primary: nat, s: Bytes, done: seq<Server>)
    requires i < length
    ensures var all := ParseEntries(i, length, primary, s);
      var at := ParseEndpoint(s);
      && (!at.Got? ==> all.Short?)
      && (at.Got? ==>
        var left := ParseEntries(i + 1, length, primary, at.rest);
        var entry := Server(at.value, if i == primary then Primary else Backup);
        if all.Got? then left.Got? && left.rest == all.rest && done + all.value == (done + [entry]) + left.value
        else all.Short? && left.Short?)
  {
  }

  method ReadEndpoint(r: TcpReader) returns (ok: bool, at: Endpoint)
    requires r.Valid()
    modifies r, r.aBuffer, r.bBuffer
    ensures r.Valid()
    ensures ok ==> ParseEndpoint(old(r.Pending())) == Got(at, r.Pending())
    ensures !ok ==> ParseEndpoint(old(r.Pending())) == Short
  {
    PowersOf256();
    at := Endpoint(0, 0);
    var ip: nat, port: nat;
    ok, ip := r.ReadUint(4);
    if !ok {
      return;
    }
    ok, port := r.ReadUint(2);
    if ok {
      at := Endpoint(ip, port);
    }
  }

  /** The list after the deferred updates from the k-th on, where `fetch` is what each of them gets from
      the server then taken for the primary; None when there is no such server, and the process
      crashes. */
  function Refetched(servers: seq<Server>, k: nat, deferred: nat, fetch: (nat,
          Endpoint) -> Option<ServerList>): Option<seq<Server>>
    requires k <= deferred
    decreases deferred - k
  {
    if k == deferred then Some(servers)
    else
      var p := PrimaryFrom(servers, 0);
      if p == |servers| then None
      else
        var got := fetch(k, servers[p].at);
        Refetched(if got.Some? then got.value else servers, k + 1, deferred, fetch)
  }

  ghost predicate LastSuccess(j: nat, deferred: nat, fetch: (nat, Endpoint) -> Option<ServerList>, primary: Endpoint) {
    fetch(j, primary).Some? && forall l :: j < l < deferred ==> fetch(l, primary).None?
  }

  /** The first server marked primary, wherever it stands. */
  predicate Follows(servers: seq<Server>, primary: Endpoint) {
    exists k :: 0 <= k < |servers| && servers[k] == Server(primary, Primary)
                && forall j :: 0 <= j < k ==> servers[j].kind == Backup
  }

  lemma FollowsIff(servers: seq<Server>, primary: Endpoint)
    ensures var p := PrimaryFrom(servers, 0);
      Follows(servers, primary) <==> p < |servers| && servers[p].at == primary
  {
    var p := PrimaryFrom(servers, 0);
    if k :| 0 <= k < |servers| && servers[k] == Server(primary, Primary)
            && forall j :: 0 <= j < k ==> servers[j].kind == Backup {
      assert k == p;
    }
    if p < |servers| && servers[p].at == primary {
      assert servers[p] == Server(primary, Primary);
    }
  }

  /** Under a primary, wherever its list and those fetched from it name it, the deferred updates never crash,
      and leave the list that the last successful one of them fetched from that primary. */
  lemma {:induction false} DeferredUpdatesFetchLast(servers: seq<Server>, k: nat, deferred: nat, fetch: (nat,
          Endpoint) -> Option<ServerList>, primary: Endpoint)
    requires k <= deferred && Follows(servers, primary)
    requires forall j :: k <= j < deferred && fetch(j, primary).Some? ==> Follows(fetch(j, primary).value, primary)
    ensures Refetched(servers, k, deferred, fetch).Some?
    ensures var list := Refetched(servers, k, deferred, fetch).value;
      && Follows(list, primary)
      && forall j :: k <= j < deferred && LastSuccess(j, deferred, fetch, primary) ==> list == fetch(j, primary).value
    ensures (forall j :: k <= j < deferred ==> fetch(j, primary).None?) ==>
      Refetched(servers, k, deferred, fetch).value == servers
    decreases deferred - k
  {
    FollowsIff(servers, primary);
    hide Follows;
    if k < deferred {
      var got := fetch(k, primary);
      DeferredUpdatesFetchLast(if got.Some? then got.value else servers, k + 1, deferred, fetch, primary);
    }
  }

  /** The turns of a round of deferred updates: the list before each, and the server asked in each. */
  datatype Round = Round(lists: seq<seq<Server>>, asked: seq<Endpoint>)

  /** In each turn the first listed primary is asked, and what it sends, if anything, replaces the list. The
      round comes to its end exactly when every deferred request had its turn, and crashes exactly on a
      list that names no primary. */
  ghost predicate IsRound(r: Round, first: seq<Server>, last: seq<Server>, deferred: nat, crashed: bool,
          fetch: (nat, Endpoint) -> Option<ServerList>) {
    && |r.lists| == |r.asked| + 1 && r.lists[0] == first && r.lists[|r.asked|] == last
    && (forall k :: 0 <= k < |r.asked| ==>
      && Follows(r.lists[k], r.asked[k])
      && r.lists[k + 1] == match fetch(k, r.asked[k]) case Some(list) => list case None => r.lists[k])
    && (if crashed then |r.asked| < deferred && forall s :: s in last ==> s.kind == Backup else |r.asked| == deferred)
  }

  lemma RoundStarts(servers: seq<Server>, fetch: (nat, Endpoint) -> Option<ServerList>)
    ensures IsRound(Round([servers], []), servers, servers, 0, false, fetch)
  {
  }

  lemma RoundGoesOn(r: Round, first: seq<Server>, last: seq<Server>, k: nat,
          fetch: (nat, Endpoint) -> Option<ServerList>, at: Endpoint, next: seq<Server>)
    requires IsRound(r, first, last, k, false, fetch) && Follows(last, at)
    requires next == match fetch(k, at) case Some(list) => list case None => last
    ensures IsRound(Round(r.lists + [next], r.asked + [at]), first, next, k + 1, false, fetch)
  {
    hide Follows;
    var r' := Round(r.lists + [next], r.asked + [at]);
    forall j | 0 <= j < |r'.asked|
      ensures Follows(r'.lists[j], r'.asked[j])
      ensures r'.lists[j + 1] == match fetch(j, r'.asked[j]) case Some(list) => list case None => r'.lists[j]
    {
      if j < k {
        assert r'.lists[j] == r.lists[j] && r'.lists[j + 1] == r.lists[j + 1] && r'.asked[j] == r.asked[j];
      }
    }
  }

  lemma RoundCrashes(r: Round, first: seq<Server>, last: seq<Server>, k: nat, deferred: nat,
          fetch: (nat, Endpoint) -> Option<ServerList>)
    requires IsRound(r, first, last, k, false, fetch) && k < deferred && PrimaryFrom(last, 0) == |last|
    ensures IsRound(r, first, last, deferred, true, fetch)
  {
  }

  datatype Result = Kept | Dropped | Crash

  class ComsServer {
    var servers: ServerList
    var deferred: nat   // requests to fetch the list again; the list of them is never emptied

    constructor (self: Server)
      ensures servers == [self] && deferred == 0
    {
      servers := [self];
      deferred := 0;
    }

    /** `get_primary_server`: the position of the first primary, or the length. */
    method FindPrimary() returns (p: nat)
      ensures p == PrimaryFrom(servers, 0)
    {
      p := 0;
      while p < |servers| && servers[p].kind != Primary
        invariant p <= |servers| && PrimaryFrom(servers, p) == PrimaryFrom(servers, 0)
      {
        p := p + 1;
      }
    }

    /** The loop over the deferred requests, which stay deferred: as many turns as there are, unless one of them
        finds no primary. */
    method ProcessDeferred(fetch: (nat, Endpoint) -> Option<ServerList>) returns (crashed: bool, ghost round: Round)
      modifies this`servers
      ensures IsRound(round, old(servers), servers, deferred, crashed, fetch)
      ensures crashed <==> Refetched(old(servers), 0, deferred, fetch).None?
      ensures !crashed ==> servers == Refetched(old(servers), 0, deferred, fetch).value
    {
      hide IsRound, Follows, PrimaryFrom;
      round := Round([servers], []);
      RoundStarts(servers, fetch);
      for k := 0 to deferred
        invariant IsRound(round, old(servers), servers, k, false, fetch)
        invariant Refetched(servers, k, deferred, fetch) == Refetched(old(servers), 0, deferred, fetch)
      {
        var p := FindPrimary();
        if p == |servers| {
          RoundCrashes(round, old(servers), servers, k, deferred, fetch);
          return true, round;
        }
        FollowsIff(servers, servers[p].at);
        ghost var last, at := servers, servers[p].at;
        var got := fetch(k, servers[p].at);
        if got.Some? {
          servers := got.value;
        }
        RoundGoesOn(round, old(servers), last, k, fetch, at, servers);
        round := Round(round.lists + [servers], round.asked + [at]);
      }
      crashed := false;
    }

    method Reply(w: TcpWriter, status: u16) returns (ok: bool)
      requires w.Valid()
      modifies w, w.buffer
      ensures w.Wrote(ok, Low(2, status))
      ensures ok ==> w.sent == old(w.Written()) + Low(2, status)
    {
      hide Extends;
      ghost var start := w.Written();
      ok := w.WriteUint(2, status);
      if ok {
        ok := w.Deliver(start, Low(2, status));
      }
    }

    /** Code 14. */
    method SendMetadata(w: TcpWriter) returns (ok: bool)
      requires w.Valid()
      modifies w, w.buffer
      ensures w.Wrote(ok, EncodeMetadata(servers))
      ensures ok ==> w.sent == old(w.Written()) + EncodeMetadata(servers)
    {
      hide Extends, EncodeMetadata;
      ghost var start := w.Written();
      ok := WriteMetadata(w, servers);
      if ok {
        ok := w.Deliver(start, EncodeMetadata(servers));
      }
    }

    /** Code 16, after the reply: connects to each of the others in turn and asks it to update, up to
        the first that cannot be reached. */
    method Announce(peer: Endpoint) returns (ok: bool, announced: seq<Endpoint>)
      ensures announced <= Others(servers, peer) && (ok <==> announced == Others(servers, peer))
    {
      announced := [];
      for i := 0 to |servers|
        invariant announced + Others(servers[i..], peer) == Others(servers, peer)
      {
        assert servers[i..][1..] == servers[i + 1..];
        if servers[i].kind != Primary && servers[i].at != peer {
          var reached: bool := *;
          if !reached {
            assert Others(servers[i..], peer) == [servers[i].at] + Others(servers[i + 1..], peer);
            return false, announced;
          }
          announced := announced + [servers[i].at];
        }
      }
      assert announced + Others([], peer) == announced;
      ok := true;
    }

    /** Code 16: the peer is listed, then told so, then announced. */
    method Admit(w: TcpWriter, peer: Endpoint) returns (result: Result, announced: seq<Endpoint>)
      requires w.Valid() && |servers| + 1 < U64_LIMIT
      modifies this, w, w.buffer
      ensures servers == old(servers) + [Server(peer, Backup)] && deferred == old(deferred)
      ensures w.Wrote(result.Kept? || !w.broken, Low(2, STATUS_OK)) && !result.Crash?
      ensures announced <= Others(servers, peer)
      ensures result.Kept? ==> announced == Others(servers, peer)
      ensures !w.broken ==> w.sent == w.Written() && (result.Kept? <==> announced == Others(servers, peer))
    {
      hide Extends;
      result, announced := Dropped, [];
      servers := servers + [Server(peer, Backup)];
      var ok := Reply(w, STATUS_OK);
      if !ok {
        return;
      }
      ok, announced := Announce(peer);
      result := if ok then Kept else Dropped;
    }

    /** Code 17. The status goes out before the missing primary is noticed. */
    method SendPrimary(w: TcpWriter) returns (result: Result)
      requires w.Valid()
      modifies w, w.buffer
      ensures w.Valid() && (old(w.broken) ==> w.broken) && (result.Dropped? ==> w.broken)
      ensures result.Crash? ==> PrimaryFrom(servers, 0) == |servers|
      ensures result.Kept? ==>
        var k := PrimaryFrom(servers, 0);
        k < |servers| && w.sent == w.Written() == old(w.Written()) + (Low(2, STATUS_OK) + EncodeEndpoint(servers[k].at))
    {
      hide Extends, EncodeEndpoint;
      ghost var start := w.Written();
      var k := FindPrimary();
      var ok := w.WriteUint(2, STATUS_OK);
      if !ok {
        return Dropped;
      }
      if k == |servers| {
        return Crash;
      }
      ok := WriteEndpoint(w, servers[k].at);
      SecondPart(start, Low(2, STATUS_OK), EncodeEndpoint(servers[k].at), w.Written());
      if ok {
        ok := w.Deliver(start, Low(2, STATUS_OK) + EncodeEndpoint(servers[k].at));
      }
      result := if ok then Kept else Dropped;
    }

    /** One request of a peer. While no `send` fails, it does what `Handle` says; a registration counts
        even when it can no longer be announced to everybody. */
    method HandleRequest(r: TcpReader, w: TcpWriter, peer: Endpoint)
      returns (result: Result, peer': Endpoint, announced: seq<Endpoint>)
      requires r.Valid() && w.Valid() && w.buffer != r.aBuffer && w.buffer != r.bBuffer
      requires |servers| + 1 < U64_LIMIT
      modifies this, r, r.aBuffer, r.bBuffer, w, w.buffer
      ensures r.Valid() && w.Valid() && (old(w.broken) ==> w.broken)
      ensures var out := Handle(old(servers), peer, old(deferred), old(r.Pending()));
        && (result.Crash? ==> out.Crashed?)
        && (!w.broken && out.Crashed? ==> result.Crash?)
        && (!out.Served? ==> servers == old(servers) && deferred == old(deferred) && !result.Kept?)
        && (out.Served? ==> servers == out.servers && announced <= out.announce && deferred <= out.deferred)
        && (out.Served? && result.Kept? ==> announced == out.announce)
        && (out.Served? && !w.broken ==>
          && peer' == out.peer && deferred == out.deferred && w.sent == w.Written() == old(w.Written()) + out.reply
          && (result.Kept? <==> announced == out.announce))
    {
      hide Extends, EncodeMetadata, EncodeEndpoint, Low, Others, PrimaryFrom, Transfer, ParseRequest, ParseUint;
      result, peer', announced := Dropped, peer, [];
      NoCode(r.Pending());
      var ok, code := r.ReadUint(1);
      if !ok {
        return;
      }
      CodeDecides(old(r.Pending()), code, r.Pending());
      if code == 14 {
        ok := SendMetadata(w);
        result := if ok then Kept else Dropped;
      } else if code == 15 {
        ok := Reply(w, STATUS_OK);
        result := if ok then Kept else Dropped;
      } else if code == 16 {
        var port: nat;
        ok, port := r.ReadUint(2);
        if !ok {
          return;
        }
        peer' := Endpoint(peer.ip, port);
        result, announced := Admit(w, peer');
      } else if code == 17 {
        result := SendPrimary(w);
      } else if code == 18 {
        ok := Reply(w, STATUS_OK);
        if ok {
          deferred := deferred + 1;
          result := Kept;
        }
      } else {
        var _ := Reply(w, STATUS_INVALID_REQUEST_TYPE);
      }
    }
  }
}
