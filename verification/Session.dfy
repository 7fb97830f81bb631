/** A client session on the server: what the handler does with each request, the byte streams in
    between, and when the two sides stay in step. */
module Session {
  import opened Basics
  import opened Wire
  import opened Packets

  type Disk = map<Content, Content>

  /** The user's files and the events this client has not fetched yet. */
  datatype State = State(disk: Disk, pending: seq<FileEvent>)

  /** What a change does to a file; to remove one that is not there does nothing. */
  datatype Change = Stored(name: Content, content: Content) | Removed(name: Content)

  /** All connections of a user share the directory: a connection changes a file first, and only later
      broadcasts the event. */
  datatype Step = Touch(change: Change) | Tell(event: FileEvent)

  function Performed(disk: Disk, c: Change): Disk {
    match c
    case Stored(name, content) => disk[name := content]
    case Removed(name) => disk - {name}
  }

  /** The files after the changes among some steps. */
  function Touched(disk: Disk, steps: seq<Step>): Disk
    decreases |steps|
  {
    if steps == [] then disk
    else Touched(if steps[0].Touch? then Performed(disk, steps[0].change) else disk, steps[1..])
  }

  /** The events broadcast in some steps. */
  function Told(steps: seq<Step>): seq<FileEvent> {
    if steps == [] then [] else (if steps[0].Tell? then [steps[0].event] else []) + Told(steps[1..])
  }

  function Meet(s: State, steps: seq<Step>): State { State(Touched(s.disk, steps), s.pending + Told(steps)) }

  predicate TouchesName(steps: seq<Step>, name: Content) {
    exists k :: 0 <= k < |steps| && steps[k].Touch? && steps[k].change.name == name
  }

  /** What a request meets: the steps of the user's other connections before it is acted on and after that,
      before its own event is broadcast; whether this server is the primary, the status held after each
      backup was asked to follow, whether the file call itself succeeds, and what the directory listing
      finds. */
  datatype Env = Env(before: seq<Step>, after: seq<Step>, primary: bool, backups: seq<u8>, works: bool,
                     listing: Option<Sized<FileDescription>>)

  datatype Outcome = Outcome(state: State, replies: seq<Reply>, running: bool)

  const SUCCEEDED := Status(STATUS_SUCCESS)
  const FAILED := Status(STATUS_FAIL)

  /** The failure reply sent for every backup that did not report success. */
  function Rollbacks(backups: seq<u8>): (replies: seq<Reply>)
    ensures forall r :: r in replies ==> r == FAILED
    ensures replies == [] <==> forall b :: b in backups ==> b == STATUS_SUCCESS
    ensures |replies| == |backups| - multiset(backups)[STATUS_SUCCESS]
  {
    if backups == [] then []
    else
      assert backups == [backups[0]] + backups[1..];
      assert backups[0] in backups && forall b :: b in backups <==> b == backups[0] || b in backups[1..];
      if backups[0] == STATUS_SUCCESS then Rollbacks(backups[1..]) else [FAILED] + Rollbacks(backups[1..])
  }

  /** The replies caused by the backups, before the one that answers the request. */
  function Extra(r: Request, e: Env): seq<Reply> {
    if (r.Upload? || r.Delete?) && e.primary then Rollbacks(e.backups) else []
  }

  /** The requests a connected client sends and waits on. */
  predicate Ordinary(r: Request) { r.Download? || r.Upload? || r.Delete? || r.ListFiles? || r.Update? }

  /** What the handler does for a request: its effect on the files and the events fetched, the reply, and
      the events it will broadcast. */
  function Act(s: State, r: Request, e: Env): (State, Reply, seq<FileEvent>)
    requires Ordinary(r)
  {
    match r
    case Download(name) =>
      (s, if e.works && name in s.disk then File(s.disk[name]) else FAILED, [])
    case Upload(name, content) =>
      if e.works then (s.(disk := s.disk[name := content]), SUCCEEDED, [FileEvent(Modified, name)])
      else (s, FAILED, [])
    case Delete(name) =>
      if e.works && name in s.disk then (s.(disk := s.disk - {name}), SUCCEEDED, [FileEvent(Deleted, name)])
      else (s, FAILED, [])
    case ListFiles =>
      (s, if e.listing.Some? then Listing(e.listing.value) else FAILED, [])
    case Update =>
      if s.pending != [] then (s.(pending := s.pending[1..]), Event(s.pending[0]), [])
      else (s, Status(STATUS_EMPTY), [])
  }

  /** The reply that answers the request, and what becomes of the files and events meanwhile. */
  function Answer(s: State, r: Request, e: Env): (State, Reply)
    requires Ordinary(r)
  {
    var (acted, reply, events) := Act(Meet(s, e.before), r, e);
    var met := Meet(acted, e.after);
    (met.(pending := met.pending + events), reply)
  }

  /** One turn of the handler's loop. */
  function Handle(s: State, r: Request, e: Env): Outcome {
    if Ordinary(r) then
      var (s', reply) := Answer(s, r, e);
      Outcome(s', Extra(r, e) + [reply], true)
    else Outcome(Meet(Meet(s, e.before), e.after), [], false)
  }

  function EncodeReplies(replies: seq<Reply>): (bytes: Bytes)
    ensures bytes == [] <==> replies == []
  {
    if replies == [] then [] else EncodeReply(replies[0]) + EncodeReplies(replies[1..])
  }

  lemma {:induction false} RepliesConcat(a: seq<Reply>, b: seq<Reply>)
    ensures EncodeReplies(a + b) == EncodeReplies(a) + EncodeReplies(b)
  {
    if a == [] {
      assert a + b == b;
    } else {
      assert (a + b)[1..] == a[1..] + b;
      RepliesConcat(a[1..], b);
    }
  }

  /** Bytes sent after `start`: one batch of replies, then another. */
  lemma RepliesAfter(start: Bytes, a: seq<Reply>, b: seq<Reply>)
    ensures (start + EncodeReplies(a)) + EncodeReplies(b) == start + EncodeReplies(a + b)
  {
    hide EncodeReplies;
    RepliesConcat(a, b);
    var x, y := EncodeReplies(a), EncodeReplies(b);
    assert (start + x) + y == start + (x + y);
  }

  /** The replies to `requests`, taken one after the other off the front of `s`. */
  function ParseReplies(requests: seq<Request>, held: u64, s: Bytes): Parsed<seq<Reply>> {
    if requests == [] then Got([], s)
    else
      var (reply, s) :- ParseReply(requests[0], held, s);
      var (replies, s) :- ParseReplies(requests[1..], held, s);
      Got([reply] + replies, s)
  }

  function CanonicalReplies(replies: seq<Reply>): seq<Reply> {
    if replies == [] then [] else [CanonicalReply(replies[0])] + CanonicalReplies(replies[1..])
  }

  /** Reply streams are self-delimiting too: replies of any kinds and lengths, sent back to back, come
      out as what was sent, and no byte is left over. */
  lemma {:induction false} RepliesRoundTrip(requests: seq<Request>, held: u64, replies: seq<Reply>)
    requires |requests| == |replies|
    requires forall i :: 0 <= i < |replies| ==> Answers(requests[i], replies[i])
    ensures ParseReplies(requests, held, EncodeReplies(replies)) == Got(CanonicalReplies(replies), [])
  {
    hide ParseReply, EncodeReply, CanonicalReply;
    if replies != [] {
      ReplyRoundTrip(requests[0], held, replies[0], EncodeReplies(replies[1..]));
      forall i | 0 <= i < |replies[1..]| ensures Answers(requests[1..][i], replies[1..][i]) {
        assert Answers(requests[i + 1], replies[i + 1]);
      }
      RepliesRoundTrip(requests[1..], held, replies[1..]);
    }
  }

  lemma OneReply(reply: Reply)
    ensures EncodeReplies([reply]) == EncodeReply(reply)
  {
    assert EncodeReply(reply) + [] == EncodeReply(reply);
  }

  // ------------------------------------------------------------------ one exchange

  /** A request by the client, and what it meets on the server. */
  datatype Call = Call(request: Request, env: Env)

  /** The bytes on their way to the server and to the client, and the server's state. */
  datatype Link = Link(up: Bytes, down: Bytes, state: State)

  predicate InStep(link: Link) { link.up == [] && link.down == [] }

  /** The client sends a request, the server takes one packet and replies, the client takes one
      reply as the answer. */
  function Exchange(link: Link, call: Call): (Link, Parsed<Reply>) {
    var up := link.up + EncodeRequest(call.request);
    match ParsePacket(up)
    case Got(r, rest) =>
      var out := Handle(link.state, r, call.env);
      Collect(call.request, Link(rest, link.down + EncodeReplies(out.replies), out.state))
    case _ => Collect(call.request, link.(up := up))
  }

  function Collect(request: Request, link: Link): (Link, Parsed<Reply>) {
    var reply := ParseReply(request, 0, link.down);
    (if reply.Got? then link.(down := reply.rest) else link, reply)
  }

  /** Did every backup that was asked report success? */
  predicate Clean(call: Call) {
    (call.request.Upload? || call.request.Delete?) && call.env.primary ==>
      forall b :: b in call.env.backups ==> b == STATUS_SUCCESS
  }

  /** The answer to a call, as the request arrives. */
  function Serve(s: State, call: Call): (result: (State, Reply))
    requires Ordinary(call.request)
    ensures Answers(call.request, result.1)
    ensures (call.request.Upload? || call.request.Delete?) ==> result.1.Status?
  {
    Answer(s, Canonical(call.request), call.env)
  }

  /** Everything the handler sends in response to a call: the answer comes last. */
  function Replies(s: State, call: Call): (replies: seq<Reply>)
    requires Ordinary(call.request)
    ensures |replies| > 0 && replies[|replies| - 1] == Serve(s, call).1
    ensures forall r :: r in replies ==> Answers(call.request, r)
    ensures (call.request.Upload? || call.request.Delete?) ==> forall r :: r in replies ==> r.Status?
    ensures |replies| == 1 <==> Clean(call)
  {
    Extra(call.request, call.env) + [Serve(s, call).1]
  }

  /** The server's half of an exchange, from an empty upward stream. */
  lemma ServerTurn(down: Bytes, s: State, call: Call)
    requires Ordinary(call.request)
    ensures Exchange(Link([], down, s), call)
         == Collect(call.request, Link([], down + EncodeReplies(Replies(s, call)), Serve(s, call).0))
  {
    hide ParsePacket, EncodeRequest, Collect, EncodeReplies;
    assert [] + EncodeRequest(call.request) == EncodeRequest(call.request) + [];
    PacketRoundTrip(call.request, []);
  }

  /** What one exchange leaves behind, starting in step: the client took the first reply the handler
      sent, and the others, one for each failed backup, are still in the stream. */
  lemma ExchangeLeaves(s: State, call: Call)
    requires Ordinary(call.request)
    ensures var replies := Replies(s, call);
      Exchange(Link([], [], s), call) == (Link([], EncodeReplies(replies[1..]), Serve(s, call).0),
                                          Got(CanonicalReply(replies[0]), EncodeReplies(replies[1..])))
  {
    hide Exchange, ParseReply, EncodeReply, Serve, Replies;
    var replies := Replies(s, call);
    ServerTurn([], s, call);
    assert [] + EncodeReplies(replies) == EncodeReply(replies[0]) + EncodeReplies(replies[1..]);
    ReplyRoundTrip(call.request, 0, replies[0], EncodeReplies(replies[1..]));
  }

  /** Lockstep for one exchange: both streams are consumed exactly when no backup failed, and then
      the client decoded exactly the handler's answer. */
  lemma InStepIff(link: Link, call: Call)
    requires InStep(link) && Ordinary(call.request)
    ensures InStep(Exchange(link, call).0) <==> Clean(call)
    ensures var (state, answer) := Serve(link.state, call);
      Clean(call) ==> Exchange(link, call) == (Link([], [], state), Got(CanonicalReply(answer), []))
  {
    hide Exchange, Serve, Clean;
    ExchangeLeaves(link.state, call);
    var replies := Replies(link.state, call);
    assert |replies| == 1 ==> replies[1..] == [];
  }

  // ------------------------------------------------------------------ whole sessions

  predicate OrdinaryCalls(calls: seq<Call>) { forall c :: c in calls ==> Ordinary(c.request) }

  /** The link after a script of exchanges, and what the client decoded in each. */
  function Run(link: Link, calls: seq<Call>): (Link, seq<Parsed<Reply>>)
    decreases |calls|
  {
    if calls == [] then (link, [])
    else
      var (next, reply) := Exchange(link, calls[0]);
      var (last, replies) := Run(next, calls[1..]);
      (last, [reply] + replies)
  }

  /** The same script as remote procedure calls, with no bytes in between. */
  function Answered(s: State, calls: seq<Call>): (result: (State, seq<Reply>))
    requires OrdinaryCalls(calls)
    ensures |result.1| == |calls|
    decreases |calls|
  {
    if calls == [] then (s, [])
    else
      var (next, reply) := Serve(s, calls[0]);
      var (last, replies) := Answered(next, calls[1..]);
      (last, [reply] + replies)
  }

  function Decoded(replies: seq<Reply>): (d: seq<Parsed<Reply>>)
    ensures |d| == |replies|
  {
    if replies == [] then [] else [Got(CanonicalReply(replies[0]), [])] + Decoded(replies[1..])
  }

  /** Session lockstep: as long as no backup fails, a session over byte streams is the same as
      remote procedure calls, for every script of requests and every environment. */
  lemma {:induction false} SessionIsCalls(s: State, calls: seq<Call>)
    requires OrdinaryCalls(calls) && forall c :: c in calls ==> Clean(c)
    decreases |calls|
    ensures Run(Link([], [], s), calls)
         == (Link([], [], Answered(s, calls).0), Decoded(Answered(s, calls).1))
  {
    hide Exchange, Serve, Clean;
    if calls != [] {
      InStepIff(Link([], [], s), calls[0]);
      SessionIsCalls(Serve(s, calls[0]).0, calls[1..]);
    }
  }

  /** A session is in step after every exchange exactly when no exchange met a failing backup. */
  lemma {:induction false} InStepThroughoutIff(link: Link, calls: seq<Call>)
    requires InStep(link) && OrdinaryCalls(calls)
    decreases |calls|
    ensures (forall k :: 0 <= k <= |calls| ==> InStep(Run(link, calls[..k]).0))
       <==> (forall c :: c in calls ==> Clean(c))
  {
    hide Exchange, Clean;
    if calls != [] {
      var next := Exchange(link, calls[0]).0;
      InStepIff(link, calls[0]);
      RunFirst(link, calls, 1);
      assert Run(next, []) == (next, []);
      if Clean(calls[0]) {
        forall k | 0 < k <= |calls|
          ensures Run(link, calls[..k]).0 == Run(next, calls[1..][..k - 1]).0
        {
          RunFirst(link, calls, k);
        }
        InStepThroughoutIff(next, calls[1..]);
        if forall k :: 0 <= k <= |calls| ==> InStep(Run(link, calls[..k]).0) {
          forall j | 0 <= j <= |calls[1..]| ensures InStep(Run(next, calls[1..][..j]).0) {
            assert InStep(Run(link, calls[..j + 1]).0);
          }
        }
        if forall c :: c in calls ==> Clean(c) {
          forall k | 0 <= k <= |calls| ensures InStep(Run(link, calls[..k]).0) {
            if k > 0 {
              assert InStep(Run(next, calls[1..][..k - 1]).0);
            } else {
              assert calls[..0] == [];
            }
          }
        }
      } else {
        assert calls[1..][..0] == [];
        assert !InStep(Run(link, calls[..1]).0);
      }
    }
  }

  lemma RunFirst(link: Link, calls: seq<Call>, k: nat)
    requires 0 < k <= |calls|
    ensures Run(link, calls[..k]).0 == Run(Exchange(link, calls[0]).0, calls[1..][..k - 1]).0
  {
    assert calls[..k][0] == calls[0];
    assert calls[..k][1..] == calls[1..][..k - 1];
  }

  // ------------------------------------------------------------------ out of step

  /** All the replies the handler sends in the course of a script. */
  function Sent(s: State, calls: seq<Call>): (replies: seq<Reply>)
    requires OrdinaryCalls(calls)
    ensures |replies| >= |calls|
    decreases |calls|
  {
    if calls == [] then []
    else
      var next := Serve(s, calls[0]).0;
      Replies(s, calls[0]) + Sent(next, calls[1..])
  }

  predicate ChangesOnly(calls: seq<Call>) {
    forall c :: c in calls ==> c.request.Upload? || c.request.Delete?
  }

  /** Once replies are owed, they are never caught up with: a client that goes on uploading and
      deleting takes the owed replies first, and so gets for each request the reply to an earlier
      one. */
  lemma {:induction false} RepliesLag(s: State, owed: seq<Reply>, calls: seq<Call>)
    requires ChangesOnly(calls) && OrdinaryCalls(calls)
    requires forall r :: r in owed ==> r.Status?
    decreases |calls|
    ensures var (last, got) := Run(Link([], EncodeReplies(owed), s), calls);
      var all := owed + Sent(s, calls);
      && last == Link([], EncodeReplies(all[|calls|..]), Answered(s, calls).0)
      && |got| == |calls|
      && forall i :: 0 <= i < |calls| ==> got[i].Got? && got[i].value == all[i]
  {
    hide Exchange, Serve, Replies, EncodeReplies;
    if calls == [] {
      assert owed + Sent(s, calls) == owed;
    } else {
      var next := Serve(s, calls[0]).0;
      var queue := owed + Replies(s, calls[0]);
      OwedExchange(s, owed, calls[0]);
      RepliesLag(next, queue[1..], calls[1..]);
      var all := owed + Sent(s, calls);
      assert all == [queue[0]] + (queue[1..] + Sent(next, calls[1..]));
      assert all[|calls|..] == (queue[1..] + Sent(next, calls[1..]))[|calls[1..]|..];
    }
  }

  /** The backups that did not follow the change of a call. */
  function Unfollowed(call: Call): nat {
    if (call.request.Upload? || call.request.Delete?) && call.env.primary
    then |call.env.backups| - multiset(call.env.backups)[STATUS_SUCCESS] else 0
  }

  function AllUnfollowed(calls: seq<Call>): nat {
    if calls == [] then 0 else Unfollowed(calls[0]) + AllUnfollowed(calls[1..])
  }

  lemma {:induction false} SentCount(s: State, calls: seq<Call>)
    requires OrdinaryCalls(calls)
    ensures |Sent(s, calls)| == |calls| + AllUnfollowed(calls)
    decreases |calls|
  {
    hide Serve;
    if calls != [] {
      SentCount(Serve(s, calls[0]).0, calls[1..]);
    }
  }

  /** By how many replies a client that uploads and deletes is behind: one for every backup that did not follow
      one of its changes. */
  lemma LagIs(s: State, calls: seq<Call>) returns (owed: seq<Reply>)
    requires ChangesOnly(calls) && OrdinaryCalls(calls)
    ensures |owed| == AllUnfollowed(calls)
    ensures Run(Link([], [], s), calls).0 == Link([], EncodeReplies(owed), Answered(s, calls).0)
  {
    hide Run, Answered, Sent;
    RepliesLag(s, [], calls);
    SentCount(s, calls);
    assert EncodeReplies([]) == [];
    owed := ([] + Sent(s, calls))[|calls|..];
  }

  lemma OwedExchange(s: State, owed: seq<Reply>, call: Call)
    requires call.request.Upload? || call.request.Delete?
    requires forall r :: r in owed ==> r.Status?
    ensures var queue := owed + Replies(s, call);
      && (forall r :: r in queue ==> r.Status?)
      && Exchange(Link([], EncodeReplies(owed), s), call)
         == (Link([], EncodeReplies(queue[1..]), Serve(s, call).0), Got(queue[0], EncodeReplies(queue[1..])))
  {
    hide Exchange, ParseReply, EncodeReply, Serve, Replies;
    var queue := owed + Replies(s, call);
    ServerTurn(EncodeReplies(owed), s, call);
    RepliesConcat(owed, Replies(s, call));
    assert queue[0] in queue;
    assert EncodeReplies(queue) == EncodeReply(queue[0]) + EncodeReplies(queue[1..]);
    StatusRoundTrip(call.request, queue[0], EncodeReplies(queue[1..]));
  }

  /** A status is decoded the same whichever change it answers. */
  lemma StatusRoundTrip(request: Request, reply: Reply, rest: Bytes)
    requires reply.Status? && (request.Upload? || request.Delete?)
    ensures ParseReply(request, 0, EncodeReply(reply) + rest) == Got(reply, rest)
  {
    ReplyRoundTrip(request, 0, reply, rest);
  }

  /** An example of the lag, for every file, content and state: an upload that one backup refuses is
      reported as failed although it took place, and a delete of a file that does not exist,
      sent next, is reported as done. */
  lemma FailedBackupMisleads(s: State, name: Content, content: Content, absent: Content, status: u8)
    requires status != STATUS_SUCCESS && CString(absent) !in s.disk && CString(absent) != CString(name)
    ensures var first := Call(Upload(name, content), Env([], [], true, [status], true, None));
      var second := Call(Delete(absent), Env([], [], true, [STATUS_SUCCESS], true, None));
      var (link1, told1) := Exchange(Link([], [], s), first);
      var (link2, told2) := Exchange(link1, second);
      && link1.state.disk == link2.state.disk == s.disk[CString(name) := content]
      && told1.Got? && told1.value == FAILED
      && told2.Got? && told2.value == SUCCEEDED
  {
    hide Exchange, EncodeReplies, CString;
    var first := Call(Upload(name, content), Env([], [], true, [status], true, None));
    var second := Call(Delete(absent), Env([], [], true, [STATUS_SUCCESS], true, None));
    OwedExchange(s, [], first);
    assert Rollbacks([status]) == [FAILED] by {
      assert [status][1..] == [];
    }
    assert [] + Replies(s, first) == [FAILED, SUCCEEDED];
    assert EncodeReplies([]) == [];
    var s1 := Serve(s, first).0;
    OwedExchange(s1, [SUCCEEDED], second);
    assert [FAILED, SUCCEEDED][1..] == [SUCCEEDED];
  }

  // ------------------------------------------------------------------ the handler's loop

  /** What the handler's loop makes of a stream: the state it ends in, the replies it sends, and the
      bytes it leaves unread. */
  datatype Transcript = Transcript(state: State, replies: seq<Reply>, left: Bytes)

  /** The name the handler's variable holds after a request. */
  function HeldAfter(held: Content, r: Request): Content {
    if r.Download? || r.Upload? || r.Delete? then r.filename else held
  }

  /** `held` is the name left over from the packets before. */
  function ServeStream(s: State, held: Content, up: Bytes, envs: nat -> Env, turn: nat): Transcript
    decreases |up|
  {
    match ReceivedPacket(held, up)
    case Got(r, rest) =>
      var out := Handle(s, r, envs(turn));
      if !out.running then Transcript(out.state, out.replies, rest)
      else
        var t := ServeStream(out.state, HeldAfter(held, r), rest, envs, turn + 1);
        t.(replies := out.replies + t.replies)
    case _ => Transcript(s, [], up)
  }

  /** Where the loop stands: the state, the name held, the bytes to come, and whether it goes on. */
  datatype Position = Position(state: State, held: Content, up: Bytes, running: bool)

  function Turn(p: Position, e: Env): Position {
    if !p.running then p
    else match ReceivedPacket(p.held, p.up)
      case Got(r, rest) =>
        var out := Handle(p.state, r, e);
        Position(out.state, HeldAfter(p.held, r), rest, out.running)
      case _ => p.(running := false)
  }

  /** Where the loop stands after `n` turns. */
  function PositionAfter(p: Position, envs: nat -> Env, n: nat): Position {
    if n == 0 then p else Turn(PositionAfter(p, envs, n - 1), envs(n - 1))
  }

  /** Does the stream not end inside an upload? */
  predicate Determined(held: Content, up: Bytes)
    decreases |up|
  {
    match ReceivedPacket(held, up)
    case Got(r, rest) => Determined(HeldAfter(held, r), rest)
    case Rejected => true
    case Short => |up| < 3
  }

  function Requests(calls: seq<Call>): seq<Request> {
    if calls == [] then [] else [calls[0].request] + Requests(calls[1..])
  }

  function LastName(held: Content, calls: seq<Call>): Content
    decreases |calls|
  {
    if calls == [] then held else LastName(HeldAfter(held, Canonical(calls[0].request)), calls[1..])
  }

  lemma PipelinedTurn(s: State, held: Content, calls: seq<Call>, tail: Bytes, envs: nat -> Env, turn: nat)
    requires calls != [] && Ordinary(calls[0].request) && envs(turn) == calls[0].env
    ensures var all, rest := EncodeRequests(Requests(calls)) + tail, EncodeRequests(Requests(calls[1..])) + tail;
      var next := HeldAfter(held, Canonical(calls[0].request));
      var t := ServeStream(Serve(s, calls[0]).0, next, rest, envs, turn + 1);
      && ServeStream(s, held, all, envs, turn) == t.(replies := Replies(s, calls[0]) + t.replies)
      && (Determined(next, rest) ==> Determined(held, all))
  {
    hide ParsePacket, ReceivedPacket, EncodeRequest, Replies, Serve;
    var rest := EncodeRequests(Requests(calls[1..])) + tail;
    assert Requests(calls)[1..] == Requests(calls[1..]);
    assert EncodeRequests(Requests(calls)) + tail == EncodeRequest(calls[0].request) + rest;
    PacketRoundTrip(calls[0].request, rest);
    ReceivedWhole(held, EncodeRequest(calls[0].request) + rest);
    HandledAsServed(s, calls[0]);
  }

  lemma HandledAsServed(s: State, call: Call)
    requires Ordinary(call.request)
    ensures Handle(s, Canonical(call.request), call.env) == Outcome(Serve(s, call).0, Replies(s, call), true)
  {
  }

  /** Whole packets at the front of a stream are served as they were sent, whatever follows them. */
  lemma {:induction false} WholePacketsFirst(s: State, held: Content, calls: seq<Call>, tail: Bytes,
          envs: nat -> Env, turn: nat)
    requires OrdinaryCalls(calls)
    requires forall i :: 0 <= i < |calls| ==> envs(turn + i) == calls[i].env
    ensures var all := EncodeRequests(Requests(calls)) + tail;
      var t := ServeStream(Answered(s, calls).0, LastName(held, calls), tail, envs, turn + |calls|);
      && ServeStream(s, held, all, envs, turn) == t.(replies := Sent(s, calls) + t.replies)
      && (Determined(LastName(held, calls), tail) ==> Determined(held, all))
    decreases |calls|
  {
    hide ServeStream, Determined, EncodeRequest, Serve, Replies, HeldAfter;
    if calls == [] {
      assert EncodeRequests(Requests(calls)) + tail == tail;
      var t := ServeStream(s, held, tail, envs, turn);
      assert [] + t.replies == t.replies;
    } else {
      var next := HeldAfter(held, Canonical(calls[0].request));
      assert envs(turn + 0) == calls[0].env;
      PipelinedTurn(s, held, calls, tail, envs, turn);
      forall i | 0 <= i < |calls[1..]| ensures envs(turn + 1 + i) == calls[1..][i].env {
        assert envs(turn + (i + 1)) == calls[i + 1].env;
      }
      WholePacketsFirst(Serve(s, calls[0]).0, next, calls[1..], tail, envs, turn + 1);
      var t := ServeStream(Answered(s, calls).0, LastName(held, calls), tail, envs, turn + |calls|);
      assert turn + |calls| == turn + 1 + |calls[1..]|;
      assert Replies(s, calls[0]) + (Sent(Serve(s, calls[0]).0, calls[1..]) + t.replies)
          == (Replies(s, calls[0]) + Sent(Serve(s, calls[0]).0, calls[1..])) + t.replies;
    }
  }

  /** An exit ends the connection: nothing is replied to it, and whatever follows is not read. */
  lemma NothingAfterExit(s: State, calls: seq<Call>, tail: Bytes, envs: nat -> Env)
    requires OrdinaryCalls(calls) && forall i :: 0 <= i < |calls| ==> envs(i) == calls[i].env
    ensures var up := EncodeRequests(Requests(calls)) + (EncodeRequest(Exit) + tail);
      var last, e := Answered(s, calls).0, envs(|calls|);
      ServeStream(s, [], up, envs, 0) == Transcript(Meet(Meet(last, e.before), e.after), Sent(s, calls), tail)
  {
    hide EncodeRequests, Sent, Answered, LastName, Requests, Meet, EncodeRequest, ServeStream, Determined;
    WholePacketsFirst(s, [], calls, EncodeRequest(Exit) + tail, envs, 0);
    ExitAlone(Answered(s, calls).0, LastName([], calls), tail, envs, |calls|);
    assert Sent(s, calls) + [] == Sent(s, calls);
  }

  lemma ExitAlone(s: State, held: Content, tail: Bytes, envs: nat -> Env, turn: nat)
    ensures ServeStream(s, held, EncodeRequest(Exit) + tail, envs, turn)
         == Transcript(Meet(Meet(s, envs(turn).before), envs(turn).after), [], tail)
  {
    hide ParsePacket, ReceivedPacket, EncodeRequest, Meet;
    PacketRoundTrip(Exit, tail);
    ReceivedWhole(held, EncodeRequest(Exit) + tail);
  }

  predicate NamesAFile(r: Request) { r.Download? || r.Upload? || r.Delete? }

  /** The name that is left over is that of the last request that named a file. */
  lemma {:induction false} LastNameIs(held: Content, calls: seq<Call>, k: nat)
    requires k <= |calls| && forall j :: k < j < |calls| ==> !NamesAFile(calls[j].request)
    ensures k < |calls| && NamesAFile(calls[k].request) ==>
      LastName(held, calls) == CString(calls[k].request.filename)
    ensures (forall j :: 0 <= j < |calls| ==> !NamesAFile(calls[j].request)) ==> LastName(held, calls) == held
    decreases |calls|
  {
    if calls != [] {
      var next, rest := HeldAfter(held, Canonical(calls[0].request)), calls[1..];
      forall j | 0 <= j < |rest| ensures rest[j] == calls[j + 1] {
      }
      if k > 0 {
        LastNameIs(next, rest, k - 1);
      } else {
        LastNameIs(next, rest, |rest|);
      }
    }
  }

  /** Sending every request before reading any reply makes no difference to the server: the packets
      come apart as they were written, none is left, and the same replies go out. */
  lemma PipeliningIsTheSame(s: State, held: Content, calls: seq<Call>, envs: nat -> Env, turn: nat)
    requires OrdinaryCalls(calls)
    requires forall i :: 0 <= i < |calls| ==> envs(turn + i) == calls[i].env
    ensures ServeStream(s, held, EncodeRequests(Requests(calls)), envs, turn)
         == Transcript(Answered(s, calls).0, Sent(s, calls), [])
    ensures Determined(held, EncodeRequests(Requests(calls)))
  {
    hide EncodeRequests, Sent, Answered;
    WholePacketsFirst(s, held, calls, [], envs, turn);
    assert EncodeRequests(Requests(calls)) + [] == EncodeRequests(Requests(calls));
    assert Sent(s, calls) + [] == Sent(s, calls);
  }

  /** A stream that ends inside a request other than an upload: the whole packets before it are served as they
      were sent, and the part, if it reaches beyond the header, as the same request for the name that was
      sent last. */
  lemma CutRequestIsServed(s: State, calls: seq<Call>, r: Request, k: nat, envs: nat -> Env)
    requires OrdinaryCalls(calls) && forall i :: 0 <= i < |calls| ==> envs(i) == calls[i].env
    requires !r.Handshake? && !r.Upload? && k < |EncodeRequest(r)|
    ensures k >= 3 ==> r.Download? || r.Delete?
    ensures var up := EncodeRequests(Requests(calls)) + EncodeRequest(r)[..k];
      var last := Answered(s, calls).0;
      && Determined([], up)
      && ServeStream(s, [], up, envs, 0) ==
         if k < 3 then Transcript(last, Sent(s, calls), EncodeRequest(r)[..k])
         else var out := Handle(last, Named(r, LastName([], calls)), envs(|calls|));
              Transcript(out.state, Sent(s, calls) + out.replies, [])
  {
    hide EncodeRequests, EncodeRequest, Handle, Sent, Answered, ServeStream, Determined;
    hide LastName, Requests, OrdinaryCalls;
    var part, held := EncodeRequest(r)[..k], LastName([], calls);
    CutRequestTakesHeldName(held, r, k);
    WholePacketsFirst(s, [], calls, part, envs, 0);
    CutRequestAlone(Answered(s, calls).0, held, r, k, envs, |calls|);
    assert Sent(s, calls) + [] == Sent(s, calls);
  }

  lemma CutRequestAlone(s: State, held: Content, r: Request, k: nat, envs: nat -> Env, turn: nat)
    requires !r.Handshake? && !r.Upload? && k < |EncodeRequest(r)|
    ensures var part := EncodeRequest(r)[..k];
      && Determined(held, part)
      && ServeStream(s, held, part, envs, turn) ==
         if k < 3 then Transcript(s, [], part)
         else var out := Handle(s, Named(r, held), envs(turn)); Transcript(out.state, out.replies, [])
  {
    hide EncodeRequest, ReceivedPacket, Handle;
    CutRequestTakesHeldName(held, r, k);
    if k >= 3 {
      NothingReceived(held);
      assert Determined(held, []);
      var out := Handle(s, Named(r, held), envs(turn));
      assert out.replies + [] == out.replies;
    }
  }

  /** What the user's other connections make of the files in a turn of the loop. */
  function OthersAlone(disk: Disk, e: Env): Disk { Touched(Touched(disk, e.before), e.after) }

  /** Exactly when a stream that ends inside a request other than an upload does harm: when the request is a
      delete, of which more than the header arrived, and the file named by the last request before, which
      it then deletes, is there and not stored again at once. */
  lemma CutRequestHarmsIff(s: State, calls: seq<Call>, r: Request, k: nat, envs: nat -> Env)
    requires OrdinaryCalls(calls) && forall i :: 0 <= i < |calls| ==> envs(i) == calls[i].env
    requires !r.Handshake? && !r.Upload? && k < |EncodeRequest(r)|
    ensures var up := EncodeRequests(Requests(calls)) + EncodeRequest(r)[..k];
      var disk, e, name := Answered(s, calls).0.disk, envs(|calls|), LastName([], calls);
      ServeStream(s, [], up, envs, 0).state.disk != (if k < 3 then disk else OthersAlone(disk, e))
      <==> r.Delete? && k >= 3 && e.works && name in Touched(disk, e.before) && !TouchesName(e.after, name)
  {
    hide EncodeRequests, EncodeRequest, Sent, Answered, ServeStream, Determined;
    hide LastName, Requests, OrdinaryCalls, Touched, TouchesName, Told;
    CutRequestIsServed(s, calls, r, k, envs);
    var e, name := envs(|calls|), LastName([], calls);
    var disk := Touched(Answered(s, calls).0.disk, e.before);
    if name in disk {
      DeletionShowsIff(disk, e.after, name);
    }
  }

  /** The file is gone in the end exactly when nobody touches it afterwards. */
  lemma {:induction false} DeletionShowsIff(disk: Disk, after: seq<Step>, name: Content)
    requires name in disk
    ensures Touched(disk - {name}, after) != Touched(disk, after) <==> !TouchesName(after, name)
    decreases |after|
  {
    if after != [] {
      assert TouchesName(after, name) <==>
        (after[0].Touch? && after[0].change.name == name) || TouchesName(after[1..], name) by {
        assert forall k :: 0 < k < |after| ==> after[k] == after[1..][k - 1];
      }
      if after[0].Touch? {
        var c := after[0].change;
        if c.name == name {
          assert Performed(disk - {name}, c) == Performed(disk, c);
        } else {
          assert Performed(disk - {name}, c) == Performed(disk, c) - {name};
          DeletionShowsIff(Performed(disk, c), after[1..], name);
        }
      } else {
        DeletionShowsIff(disk, after[1..], name);
      }
    }
  }

  lemma NothingReceived(held: Content)
    ensures ReceivedPacket(held, []) == Short
  {
  }

  /** A connection from its first byte: the handshake is taken off the stream and acknowledged, and
      the rest of what the client sends is served to the last byte. */
  lemma ConnectionIsServed(hello: Request, s: State, calls: seq<Call>, envs: nat -> Env, rest: Bytes)
    requires hello.Handshake? && OrdinaryCalls(calls)
    requires forall i :: 0 <= i < |calls| ==> envs(i) == calls[i].env
    ensures var packets := EncodeRequests(Requests(calls));
      && ParseHandshake(EncodeRequest(hello) + packets) == Got(Canonical(hello), packets)
      && ServeStream(s, [], packets, envs, 0) == Transcript(Answered(s, calls).0, Sent(s, calls), [])
    ensures ParseReply(hello, 0, EncodeReply(SUCCEEDED) + rest) == Got(SUCCEEDED, rest)
    ensures ParseReply(hello, 0, EncodeReply(FAILED) + rest) == Got(FAILED, rest)
  {
    hide ParseHandshake, ParseReply, EncodeRequest, EncodeReply, ServeStream;
    HandshakeRoundTrip(hello, EncodeRequests(Requests(calls)));
    PipeliningIsTheSame(s, [], calls, envs, 0);
    ReplyRoundTrip(hello, 0, SUCCEEDED, rest);
    ReplyRoundTrip(hello, 0, FAILED, rest);
  }

  /** One turn of the loop, with the replies of the turns before it put in front. */
  lemma NextTurn(s: State, held: Content, up: Bytes, envs: nat -> Env, turn: nat, sent: seq<Reply>)
    requires Determined(held, up) && ReceivedPacket(held, up).Got?
    ensures var p := ReceivedPacket(held, up);
      var out, next := Handle(s, p.value, envs(turn)), HeldAfter(held, p.value);
      var t := ServeStream(s, held, up, envs, turn);
      var t' := ServeStream(out.state, next, p.rest, envs, turn + 1);
      && Determined(next, p.rest)
      && (!out.running ==> t.state == out.state && sent + t.replies == sent + out.replies)
      && (out.running ==> t.state == t'.state && sent + t.replies == (sent + out.replies) + t'.replies)
  {
    hide ReceivedPacket, Handle;
    var p := ReceivedPacket(held, up);
    var out := Handle(s, p.value, envs(turn));
    var t' := ServeStream(out.state, HeldAfter(held, p.value), p.rest, envs, turn + 1);
    assert sent + (out.replies + t'.replies) == (sent + out.replies) + t'.replies;
  }

  /** The same turn, counted from the beginning. */
  lemma NextPosition(begin: Position, s: State, held: Content, up: Bytes, envs: nat -> Env, turn: nat)
    requires PositionAfter(begin, envs, turn) == Position(s, held, up, true) && ReceivedPacket(held, up).Got?
    ensures var p := ReceivedPacket(held, up);
      var out := Handle(s, p.value, envs(turn));
      PositionAfter(begin, envs, turn + 1) == Position(out.state, HeldAfter(held, p.value), p.rest, out.running)
  {
  }

  lemma NoTurns(begin: Position, envs: nat -> Env)
    ensures PositionAfter(begin, envs, 0) == begin
  {
  }

  lemma StreamEnds(s: State, held: Content, up: Bytes, envs: nat -> Env, turn: nat, sent: seq<Reply>)
    ensures Determined(held, up) && ReceivedPacket(held, up) == Short ==> |up| < 3
    ensures !ReceivedPacket(held, up).Got? ==>
      var t := ServeStream(s, held, up, envs, turn); t.state == s && sent + t.replies == sent
  {
  }

  lemma NoReplies(start: Bytes)
    ensures start == start + EncodeReplies([])
  {
  }
}
