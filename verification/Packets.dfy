/** The client-server packets: how each request and reply is laid out, and how the other side
    takes it apart. */
module Packets {
  import opened Basics
  import opened Wire

  const PROTOCOL_VERSION: nat := 1
  const STATUS_SUCCESS: u8 := 10
  const STATUS_EMPTY: u8 := 11
  const STATUS_FAIL: u8 := 20

  datatype EventKind = Modified | Deleted
  datatype FileEvent = FileEvent(kind: EventKind, filename: Content)
  datatype FileDescription = FileDescription(filename: Content, mtime: u64, atime: u64, ctime: u64)

  datatype Request =
    | Handshake(username: Content, fromPrimary: bool)
    | Download(filename: Content)
    | Upload(filename: Content, content: Content)
    | Delete(filename: Content)
    | ListFiles
    | Exit
    | Update

  /** A status alone, or the success status followed by what was asked for. */
  datatype Reply =
    | Status(status: u8)
    | File(content: Content)
    | Listing(files: Sized<FileDescription>)
    | Event(event: FileEvent)

  function PacketType(r: Request): u8 {
    match r
    case Handshake(_, _) => 0
    case Download(_) => 1
    case Upload(_, _) => 2
    case Delete(_) => 3
    case ListFiles => 4
    case Exit => 5
    case Update => 6
  }

  function EventCode(k: EventKind): u32 { if k == Modified then 1 else 2 }

  function RequestBody(r: Request): Bytes {
    match r
    case Handshake(username, fromPrimary) => EncodeString(username) + Low(1, if fromPrimary then 1 else 0)
    case Download(filename) => EncodeString(filename)
    case Upload(filename, content) => EncodeString(filename) + EncodeBytes(content)
    case Delete(filename) => EncodeString(filename)
    case ListFiles => []
    case Exit => []
    case Update => []
  }

  function EncodeRequest(r: Request): (bytes: Bytes)
    ensures |bytes| >= 3
  {
    Low(2, PROTOCOL_VERSION) + Low(1, PacketType(r)) + RequestBody(r)
  }

  /** The request the server sees: names end at their first NUL. */
  function Canonical(r: Request): Request {
    match r
    case Handshake(username, fromPrimary) => Handshake(CString(username), fromPrimary)
    case Download(filename) => Download(CString(filename))
    case Upload(filename, content) => Upload(CString(filename), content)
    case Delete(filename) => Delete(CString(filename))
    case ListFiles => ListFiles
    case Exit => Exit
    case Update => Update
  }

  function CanonicalRequests(rs: seq<Request>): (c: seq<Request>)
    ensures |c| == |rs| && forall i :: 0 <= i < |rs| ==> c[i] == Canonical(rs[i])
  {
    seq(|rs|, i requires 0 <= i < |rs| => Canonical(rs[i]))
  }

  /** `read_string` where its result is heeded: when even the length is missing, the string keeps the value
      it had, and that passes for success. */
  function ParseName(held: Content, s: Bytes): Parsed<Content> {
    if |s| < 8 then Got(held, []) else ParseBytes(s)
  }

  /** `read_byte_array` where its result is heeded: when the length is missing, the one held before counts. */
  function ParseArray(held: u64, s: Bytes): Parsed<Content> {
    if |s| >= 8 then ParseBytes(s) else if held == 0 then Got([], []) else Short
  }

  /** `handshake`: the first packet of a connection. */
  function ParseHandshake(s: Bytes): Parsed<Request> {
    var (version, s) :- ParseUint(2, s);
    var (kind, s) :- ParseUint(1, s);
    if version != PROTOCOL_VERSION || kind != 0 then Rejected
    else
      var (username, s) :- ParseBytes(s);
      var (flag, s) :- ParseUint(1, s);
      Got(Handshake(username, flag == 1), s)
  }

  /** `receive_packet`: every later one; a second handshake and unknown types are rejected. */
  function ParsePacket(s: Bytes): (p: Parsed<Request>)
    ensures p.Got? ==> |p.rest| < |s|
  {
    var (version, s) :- ParseUint(2, s);
    var (kind, s) :- ParseUint(1, s);
    if version != PROTOCOL_VERSION then Rejected
    else match kind
      case 1 =>
        var (filename, s) :- ParseBytes(s);
        Got(Download(filename), s)
      case 2 =>
        var (filename, s) :- ParseBytes(s);
        var (content, s) :- ParseBytes(s);
        Got(Upload(filename, content), s)
      case 3 =>
        var (filename, s) :- ParseBytes(s);
        Got(Delete(filename), s)
      case 4 => Got(ListFiles, s)
      case 5 => Got(Exit, s)
      case 6 => Got(Update, s)
      case _ => Rejected
  }

  /** `read_string` where its result is ignored: a string that is cut short leaves the old value. */
  function Taken(held: Content, s: Bytes): (Content, Bytes) {
    match ParseBytes(s)
    case Got(value, rest) => (value, rest)
    case _ => (held, [])
  }

  /** What the server takes off the front of any stream, cut inside a packet or not; `held` is the name
      left over from the packets before. Only for an upload that is cut is it not determined, as its
      contents are then read from freed memory. */
  function ReceivedPacket(held: Content, s: Bytes): (p: Parsed<Request>)
    ensures p.Got? ==> |p.rest| < |s|
  {
    var (version, s) :- ParseUint(2, s);
    var (kind, s) :- ParseUint(1, s);
    if version != PROTOCOL_VERSION then Rejected
    else match kind
      case 1 =>
        var (filename, s) := Taken(held, s);
        Got(Download(filename), s)
      case 2 =>
        var (filename, s) := Taken(held, s);
        var (content, s) :- ParseBytes(s);
        Got(Upload(filename, content), s)
      case 3 =>
        var (filename, s) := Taken(held, s);
        Got(Delete(filename), s)
      case 4 => Got(ListFiles, s)
      case 5 => Got(Exit, s)
      case 6 => Got(Update, s)
      case _ => Rejected
  }

  /** On whole packets it is what was sent. */
  lemma ReceivedWhole(held: Content, s: Bytes)
    ensures ParsePacket(s).Got? ==> ReceivedPacket(held, s) == ParsePacket(s)
    ensures ParsePacket(s).Rejected? ==> ReceivedPacket(held, s) == Rejected
    ensures ReceivedPacket(held, s).Rejected? ==> ParsePacket(s) == Rejected
  {
  }

  lemma PartIsShort(c: Content, k: nat)
    requires k < |EncodeBytes(c)|
    ensures ParseBytes(EncodeBytes(c)[..k]) == Short
  {
    var part := EncodeBytes(c)[..k];
    if k >= 8 {
      assert part == Low(8, |c|) + c[..k - 8];
      ValueRoundTrip(8, |c|, c[..k - 8]);
    }
  }

  /** The same request for another name. */
  function Named(r: Request, name: Content): Request {
    match r
    case Download(_) => Download(name)
    case Delete(_) => Delete(name)
    case _ => r
  }

  /** A request other than an upload that is cut short: within its header nothing is received, and within its
      name the same request for the name held before. */
  lemma CutRequestTakesHeldName(held: Content, r: Request, k: nat)
    requires !r.Handshake? && !r.Upload? && k < |EncodeRequest(r)|
    ensures k >= 3 ==> r.Download? || r.Delete?
    ensures ReceivedPacket(held, EncodeRequest(r)[..k]) == if k < 3 then Short else Got(Named(r, held), [])
  {
    if k >= 3 {
      var header, body := Low(2, PROTOCOL_VERSION) + Low(1, PacketType(r)), RequestBody(r);
      var part := body[..k - 3];
      assert EncodeRequest(r)[..k] == header + part == header + part + [];
      HeaderRoundTrip(PacketType(r), part, []);
      assert part + [] == part;
      PartIsShort(CString(r.filename), k - 3);
    }
  }

  function EncodeFile(f: FileDescription): Bytes {
    Low(8, f.mtime) + Low(8, f.atime) + Low(8, f.ctime) + EncodeString(f.filename)
  }

  function EncodeFiles(files: seq<FileDescription>): Bytes {
    if files == [] then [] else EncodeFile(files[0]) + EncodeFiles(files[1..])
  }

  function ReplyStatus(reply: Reply): u8 { if reply.Status? then reply.status else STATUS_SUCCESS }

  function ReplyBody(reply: Reply): Bytes {
    match reply
    case Status(_) => []
    case File(content) => EncodeBytes(content)
    case Listing(files) => Low(8, |files|) + EncodeFiles(files)
    case Event(event) => Low(4, EventCode(event.kind)) + EncodeString(event.filename)
  }

  function EncodeReply(reply: Reply): (bytes: Bytes)
    ensures |bytes| >= 3
  {
    Low(2, PROTOCOL_VERSION) + Low(1, ReplyStatus(reply)) + ReplyBody(reply)
  }

  function CanonicalFile(f: FileDescription): FileDescription { f.(filename := CString(f.filename)) }

  function CanonicalFiles(files: seq<FileDescription>): (c: seq<FileDescription>)
    ensures |c| == |files| && forall i :: 0 <= i < |files| ==> c[i] == CanonicalFile(files[i])
  {
    seq(|files|, i requires 0 <= i < |files| => CanonicalFile(files[i]))
  }

  /** The reply the client sees. */
  function CanonicalReply(reply: Reply): Reply {
    match reply
    case Listing(files) => Listing(CanonicalFiles(files))
    case Event(event) => Event(event.(filename := CString(event.filename)))
    case Status(_) => reply
    case File(_) => reply
  }

  function ParseFile(s: Bytes): Parsed<FileDescription> {
    var (mtime, s) :- ParseUint(8, s);
    var (atime, s) :- ParseUint(8, s);
    var (ctime, s) :- ParseUint(8, s);
    var (filename, s) :- ParseName([], s);
    PowersOf256();
    Got(FileDescription(filename, mtime, atime, ctime), s)
  }

  function ParseFiles(count: nat, s: Bytes): (p: Parsed<seq<FileDescription>>)
    ensures p.Got? ==> |p.value| == count
    ensures !p.Rejected?
  {
    if count == 0 then Got([], s)
    else
      var (f, s) :- ParseFile(s);
      var (fs, s) :- ParseFiles(count - 1, s);
      Got([f] + fs, s)
  }

  /** What follows the success status in the reply to `request`; `held` is what the variable for the length
      of a download held before. */
  function ParseReplyBody(request: Request, held: u64, s: Bytes): Parsed<Reply> {
    match request
    case Download(_) =>
      var (content, s) :- ParseArray(held, s);
      Got(File(content), s)
    case ListFiles =>
      var (count, s) :- ParseUint(8, s);
      var (files, s) :- ParseFiles(count, s);
      PowersOf256();
      Got(Listing(files), s)
    case Update =>
      var (code, s) :- ParseUint(4, s);
      var (filename, s) :- ParseName([], s);
      if code == 1 then Got(Event(FileEvent(Modified, filename)), s)
      else if code == 2 then Got(Event(FileEvent(Deleted, filename)), s)
      else Rejected
    case _ => Got(Status(STATUS_SUCCESS), s)
  }

  /** How the client reads the reply to `request`. */
  function ParseReply(request: Request, held: u64, s: Bytes): Parsed<Reply> {
    var (version, s) :- ParseUint(2, s);
    if version != PROTOCOL_VERSION then Rejected
    else
      var (status, s) :- ParseUint(1, s);
      PowersOf256();
      if status != STATUS_SUCCESS then Got(Status(status), s) else ParseReplyBody(request, held, s)
  }

  /** The replies the server gives to each request. */
  predicate Answers(request: Request, reply: Reply) {
    match reply
    case Status(status) => status != STATUS_SUCCESS || request.Handshake? || request.Upload? || request.Delete?
    case File(_) => request.Download?
    case Listing(_) => request.ListFiles?
    case Event(_) => request.Update?
  }

  lemma HeaderRoundTrip(second: u8, body: Bytes, rest: Bytes)
    ensures var s := Low(2, PROTOCOL_VERSION) + Low(1, second) + body + rest;
      ParseUint(2, s) == Got(PROTOCOL_VERSION, Low(1, second) + body + rest)
      && ParseUint(1, Low(1, second) + body + rest) == Got(second, body + rest)
  {
    assert Low(2, PROTOCOL_VERSION) + Low(1, second) + body + rest
        == Low(2, PROTOCOL_VERSION) + (Low(1, second) + body + rest);
    ValueRoundTrip(2, PROTOCOL_VERSION, Low(1, second) + body + rest);
    assert Low(1, second) + body + rest == Low(1, second) + (body + rest);
    ValueRoundTrip(1, second, body + rest);
  }

  lemma HandshakeRoundTrip(r: Request, rest: Bytes)
    requires r.Handshake?
    ensures ParseHandshake(EncodeRequest(r) + rest) == Got(Canonical(r), rest)
    ensures ParsePacket(EncodeRequest(r) + rest) == Rejected
  {
    hide Low, CString, ParseBytes, EncodeBytes;
    HeaderRoundTrip(0, RequestBody(r), rest);
    var flag := Low(1, if r.fromPrimary then 1 else 0);
    assert RequestBody(r) + rest == EncodeString(r.username) + (flag + rest);
    StringRoundTrip(r.username, flag + rest);
    ValueRoundTrip(1, if r.fromPrimary then 1 else 0, rest);
  }

  lemma PacketRoundTrip(r: Request, rest: Bytes)
    requires !r.Handshake?
    ensures ParsePacket(EncodeRequest(r) + rest) == Got(Canonical(r), rest)
  {
    hide Low, ParseUint, ParseBytes, EncodeBytes, CString;
    HeaderRoundTrip(PacketType(r), RequestBody(r), rest);
    match r
    case Download(filename) => StringRoundTrip(filename, rest);
    case Delete(filename) => StringRoundTrip(filename, rest);
    case Upload(filename, content) =>
      assert RequestBody(r) + rest == EncodeString(filename) + (EncodeBytes(content) + rest);
      StringRoundTrip(filename, EncodeBytes(content) + rest);
      BytesRoundTrip(content, rest);
    case ListFiles => assert RequestBody(r) + rest == rest;
    case Exit => assert RequestBody(r) + rest == rest;
    case Update => assert RequestBody(r) + rest == rest;
  }

  lemma FileRoundTrip(f: FileDescription, rest: Bytes)
    ensures ParseFile(EncodeFile(f) + rest) == Got(CanonicalFile(f), rest)
  {
    var s3 := EncodeString(f.filename) + rest;
    var s2 := Low(8, f.ctime) + s3;
    var s1 := Low(8, f.atime) + s2;
    assert EncodeFile(f) + rest == Low(8, f.mtime) + s1;
    ValueRoundTrip(8, f.mtime, s1);
    ValueRoundTrip(8, f.atime, s2);
    ValueRoundTrip(8, f.ctime, s3);
    StringRoundTrip(f.filename, rest);
  }

  lemma {:induction false} FilesRoundTrip(files: seq<FileDescription>, rest: Bytes)
    ensures ParseFiles(|files|, EncodeFiles(files) + rest) == Got(CanonicalFiles(files), rest)
  {
    if files == [] {
      assert EncodeFiles(files) + rest == rest;
    } else {
      hide CString, EncodeFile, ParseFile, CanonicalFile, CanonicalFiles, EncodeFiles;
      var tail := files[1..];
      FirstOfFiles(files);
      assert EncodeFiles(files) + rest == EncodeFile(files[0]) + (EncodeFiles(tail) + rest);
      FileRoundTrip(files[0], EncodeFiles(tail) + rest);
      FilesRoundTrip(tail, rest);
    }
  }

  lemma ReplyBodyRoundTrip(request: Request, held: u64, reply: Reply, rest: Bytes)
    requires Answers(request, reply) && ReplyStatus(reply) == STATUS_SUCCESS
    ensures ParseReplyBody(request, held, ReplyBody(reply) + rest) == Got(CanonicalReply(reply), rest)
  {
    var body := ReplyBody(reply);
    match reply
    case Status(_) => assert body + rest == rest;
    case File(content) => BytesRoundTrip(content, rest);
    case Listing(files) =>
      assert body + rest == Low(8, |files|) + (EncodeFiles(files) + rest);
      ValueRoundTrip(8, |files|, EncodeFiles(files) + rest);
      FilesRoundTrip(files, rest);
    case Event(event) => EventRoundTrip(event, rest);
  }

  /** Reply round trip: whatever follows it in the stream, the client decodes exactly this reply. */
  lemma ReplyRoundTrip(request: Request, held: u64, reply: Reply, rest: Bytes)
    requires Answers(request, reply)
    ensures ParseReply(request, held, EncodeReply(reply) + rest) == Got(CanonicalReply(reply), rest)
  {
    HeaderRoundTrip(ReplyStatus(reply), ReplyBody(reply), rest);
    if ReplyStatus(reply) == STATUS_SUCCESS {
      ReplyBodyRoundTrip(request, held, reply, rest);
    } else {
      assert ReplyBody(reply) + rest == rest;
    }
  }

  lemma EventRoundTrip(event: FileEvent, rest: Bytes)
    ensures var body := ReplyBody(Event(event));
      ParseUint(4, body + rest) == Got(EventCode(event.kind), EncodeString(event.filename) + rest)
      && ParseBytes(EncodeString(event.filename) + rest) == Got(CString(event.filename), rest)
  {
    assert ReplyBody(Event(event)) + rest == Low(4, EventCode(event.kind)) + (EncodeString(event.filename) + rest);
    ValueRoundTrip(4, EventCode(event.kind), EncodeString(event.filename) + rest);
    StringRoundTrip(event.filename, rest);
  }

  // ------------------------------------------------------------------ byte by byte

  /** Every request, byte by byte: version 1, lowest byte first, the type, and the fields. */
  lemma RequestLayout(r: Request)
    ensures EncodeRequest(r) == match r
      case Handshake(name, primary) =>
        [1, 0, 0] + (Low(8, |CString(name)|) + CString(name)) + [if primary then 1 else 0]
      case Download(name) => [1, 0, 1] + (Low(8, |CString(name)|) + CString(name))
      case Upload(name, content) =>
        [1, 0, 2] + (Low(8, |CString(name)|) + CString(name)) + (Low(8, |content|) + content)
      case Delete(name) => [1, 0, 3] + (Low(8, |CString(name)|) + CString(name))
      case ListFiles => [1, 0, 4]
      case Exit => [1, 0, 5]
      case Update => [1, 0, 6]
  {
    LowBytes(1);
    LowBytes(0);
    LowBytes(PacketType(r));
    assert [1, 0] + [PacketType(r)] == [1, 0, PacketType(r)];
    if r.Handshake? {
      var name, flag := EncodeString(r.username), [if r.fromPrimary then 1 else 0];
      assert [1, 0, 0] + (name + flag) == [1, 0, 0] + name + flag;
    } else if r.Upload? {
      var name, content := EncodeString(r.filename), EncodeBytes(r.content);
      assert [1, 0, 2] + (name + content) == [1, 0, 2] + name + content;
    }
  }

  /** Every reply, byte by byte: version 1, the status (10 for success), and the fields. */
  lemma ReplyLayout(reply: Reply)
    ensures EncodeReply(reply) == match reply
      case Status(status) => [1, 0, status]
      case File(content) => [1, 0, 10] + (Low(8, |content|) + content)
      case Listing(files) => [1, 0, 10] + (Low(8, |files|) + EncodeFiles(files))
      case Event(event) =>
        var name := CString(event.filename);
        [1, 0, 10] + ([if event.kind == Modified then 1 else 2, 0, 0, 0] + (Low(8, |name|) + name))
    ensures STATUS_SUCCESS == 10 && STATUS_EMPTY == 11 && STATUS_FAIL == 20
  {
    LowBytes(1);
    LowBytes(ReplyStatus(reply));
    assert [1, 0] + [ReplyStatus(reply)] == [1, 0, ReplyStatus(reply)];
    match reply
    case Event(event) => LowFour(EventCode(event.kind));
    case Status(_) =>
    case File(_) =>
    case Listing(_) =>
  }

  lemma LowFour(v: u8)
    ensures Low(4, v) == [v, 0, 0, 0]
  {
    assert Low(0, 0) == [] && Low(1, 0) == [0] && Low(2, 0) == [0, 0] && Low(3, 0) == [0, 0, 0];
  }

  /** An entry of a listing: the three times and the name. */
  lemma FileLayout(f: FileDescription)
    ensures var name := CString(f.filename);
      EncodeFiles([f]) == Low(8, f.mtime) + Low(8, f.atime) + Low(8, f.ctime) + (Low(8, |name|) + name)
  {
    assert [f][1..] == [] && EncodeFile(f) + [] == EncodeFile(f);
  }

  // ------------------------------------------------------------------ what is rejected

  /** The first bytes of a packet, read as integers. */
  lemma FirstBytes(s: Bytes)
    ensures |s| >= 2 ==> ParseUint(2, s).Got? && ParseUint(2, s).rest == s[2..]
    ensures |s| >= 2 ==> (ParseUint(2, s).value == 1 <==> s[0] == 1 && s[1] == 0)
    ensures |s| >= 1 ==> ParseUint(1, s) == Got(s[0], s[1..])
  {
    if |s| >= 1 {
      assert s[..1][1..] == [] && Value([]) == 0;
    }
    if |s| >= 2 {
      PowersOf256();
      assert s[..2] == [s[0]] + [s[1]] && [s[0]][1..] == [];
      ValueAppend([s[0]], s[1]);
    }
  }

  /** Exactly which packets are rejected: those of another version, those of a type that is not expected, and as
      replies to an update, events of unknown kind. */
  lemma RejectedIff(request: Request, held: u64, s: Bytes)
    ensures ParseHandshake(s).Rejected? <==> |s| >= 3 && (s[0] != 1 || s[1] != 0 || s[2] != 0)
    ensures ParsePacket(s).Rejected? <==> |s| >= 3 && (s[0] != 1 || s[1] != 0 || !(1 <= s[2] <= 6))
    ensures ParseReply(request, held, s).Rejected? <==>
      |s| >= 2 && (s[0] != 1 || s[1] != 0 || UnknownEvent(request, s[2..]))
  {
    hide ParseUint, ParseBytes, ParseFiles;
    FirstBytes(s);
    ShortBytes(s);
    if |s| >= 3 {
      FirstBytes(s[2..]);
      assert s[2..][1..] == s[3..];
      NamesAreNotRejected(s[3..]);
    }
  }

  /** After the status 10, an event kind other than 1 and 2, and a name that is whole or missing. */
  predicate UnknownEvent(request: Request, s: Bytes) {
    request.Update? && |s| >= 1 && s[0] == 10 &&
    match ParseUint(4, s[1..])
    case Got(code, rest) => code != 1 && code != 2 && ParseName([], rest).Got?
    case _ => false
  }

  lemma ShortBytes(s: Bytes)
    ensures |s| < 2 ==> ParseUint(2, s) == Short
    ensures |s| == 2 ==> ParseUint(1, s[2..]) == Short
  {
  }

  lemma NamesAreNotRejected(s: Bytes)
    ensures !ParseBytes(s).Rejected? && forall n: nat :: !ParseUint(n, s).Rejected?
  {
  }

  // ------------------------------------------------------------------ replies that are cut

  /** The entries, the last without its name. */
  function NamelessLast(files: seq<FileDescription>): (r: seq<FileDescription>)
    requires files != []
    ensures |r| == |files|
  {
    files[|files| - 1 := files[|files| - 1].(filename := [])]
  }

  /** An entry that is cut: the name is missed, and taken for empty, exactly when the cut is in its length. */
  lemma CutFile(f: FileDescription, k: nat)
    ensures |EncodeFile(f)| == 32 + |CString(f.filename)|
    ensures k < |EncodeFile(f)| ==>
      ParseFile(EncodeFile(f)[..k]) == if 24 <= k < 32 then Got(f.(filename := []), []) else Short
  {
    hide CString;
    var name := EncodeString(f.filename);
    var s0, s1, s2 := Low(8, f.mtime), Low(8, f.atime), Low(8, f.ctime);
    if k < |EncodeFile(f)| {
      var part := EncodeFile(f)[..k];
      if k >= 24 {
        var left := name[..k - 24];
        assert part == s0 + (s1 + (s2 + left));
        ValueRoundTrip(8, f.mtime, s1 + (s2 + left));
        ValueRoundTrip(8, f.atime, s2 + left);
        ValueRoundTrip(8, f.ctime, left);
        PartIsShort(CString(f.filename), k - 24);
      } else if k >= 16 {
        var left := s2[..k - 16];
        assert part == s0 + (s1 + left);
        ValueRoundTrip(8, f.mtime, s1 + left);
        ValueRoundTrip(8, f.atime, left);
      } else if k >= 8 {
        var left := s1[..k - 8];
        assert part == s0 + left;
        ValueRoundTrip(8, f.mtime, left);
      }
    }
  }

  lemma NoFiles(n: nat)
    ensures ParseFiles(n, []) == if n == 0 then Got([], []) else Short
  {
  }

  lemma {:induction false} FilesLength(files: seq<FileDescription>)
    requires files != []
    ensures |EncodeFiles(files)| >= 32 + |CString(files[|files| - 1].filename)|
    decreases |files|
  {
    hide CString, EncodeFile;
    CutFile(files[0], 0);
    if |files| > 1 {
      FilesLength(files[1..]);
      assert files[1..][|files[1..]| - 1] == files[|files| - 1];
    } else {
      assert files[1..] == [];
    }
  }

  /** Whether a cut after `k` bytes is in the length of the last name. */
  predicate InLastLength(files: seq<FileDescription>, k: nat)
    requires files != []
  {
    var start := |EncodeFiles(files)| - |CString(files[|files| - 1].filename)|;
    start - 8 <= k < start
  }

  lemma CutInFirst(files: seq<FileDescription>, k: nat)
    requires files != [] && k < |EncodeFile(files[0])|
    ensures ParseFiles(|files|, EncodeFiles(files)[..k])
         == if InLastLength(files, k) then Got(NamelessLast(CanonicalFiles(files)), []) else Short
  {
    hide CString, ParseFile, EncodeFile, EncodeFiles, CanonicalFiles, CanonicalFile, NamelessLast;
    CutFile(files[0], k);
    NoFiles(|files| - 1);
    FirstOfFiles(files);
    var first, rest := EncodeFile(files[0]), EncodeFiles(files[1..]);
    assert (first + rest)[..k] == first[..k];
    if |files| > 1 {
      FilesLength(files[1..]);
      assert files[1..][|files[1..]| - 1] == files[|files| - 1];
    } else {
      OnlyNameless(files);
      assert [files[0].(filename := [])] + [] == [files[0].(filename := [])];
    }
  }

  lemma OnlyNameless(files: seq<FileDescription>)
    requires |files| == 1
    ensures NamelessLast(CanonicalFiles(files)) == [files[0].(filename := [])]
  {
  }

  lemma FirstOfFiles(files: seq<FileDescription>)
    requires files != []
    ensures EncodeFiles(files) == EncodeFile(files[0]) + EncodeFiles(files[1..])
    ensures |files| == 1 ==> EncodeFiles(files[1..]) == []
    ensures CanonicalFiles(files) == [CanonicalFile(files[0])] + CanonicalFiles(files[1..])
  {
    hide CString, EncodeFile, CanonicalFile, CanonicalFiles;
  }

  /** A listing that is cut among its entries passes exactly when the cut is in the length of the last name. */
  lemma {:induction false} CutFiles(files: seq<FileDescription>, k: nat)
    requires files != [] && k < |EncodeFiles(files)|
    ensures ParseFiles(|files|, EncodeFiles(files)[..k])
         == if InLastLength(files, k) then Got(NamelessLast(CanonicalFiles(files)), []) else Short
    decreases |files|
  {
    hide CString, ParseFile, EncodeFile, EncodeFiles;
    FirstOfFiles(files);
    var first, rest, names := EncodeFile(files[0]), EncodeFiles(files[1..]), CanonicalFiles(files);
    if k < |first| {
      CutInFirst(files, k);
    } else {
      assert (first + rest)[..k] == first + rest[..k - |first|];
      FileRoundTrip(files[0], rest[..k - |first|]);
      CutFiles(files[1..], k - |first|);
      assert files[1..][|files[1..]| - 1] == files[|files| - 1];
      assert NamelessLast(names) == [names[0]] + NamelessLast(CanonicalFiles(files[1..]));
    }
  }

  lemma CutListing(files: Sized<FileDescription>, k: nat)
    requires k < 8 + |EncodeFiles(files)|
    ensures ParseReplyBody(ListFiles, 0, (Low(8, |files|) + EncodeFiles(files))[..k])
         == if files != [] && k >= 8 && InLastLength(files, k - 8)
            then Got(Listing(NamelessLast(CanonicalFiles(files))), []) else Short
  {
    hide EncodeFiles, ParseFiles, InLastLength, NamelessLast;
    var bytes := Low(8, |files|) + EncodeFiles(files);
    if k >= 8 {
      assert bytes[..k] == Low(8, |files|) + EncodeFiles(files)[..k - 8];
      ValueRoundTrip(8, |files|, EncodeFiles(files)[..k - 8]);
      if files == [] {
        NoBytes();
      } else {
        CutFiles(files, k - 8);
      }
    }
  }

  lemma NoBytes()
    ensures EncodeFiles([]) == []
  {
  }

  /** What a reply that is cut after `k` bytes is taken for, if it passes. */
  function TakenFor(held: u64, reply: Reply, k: nat): Option<Reply> {
    match reply
    case Status(_) => None
    case File(_) => if 3 <= k < 11 && held == 0 then Some(File([])) else None
    case Listing(files) =>
      if files != [] && k >= 11 && InLastLength(files, k - 11)
      then Some(Listing(NamelessLast(CanonicalFiles(files)))) else None
    case Event(event) => if 7 <= k < 15 then Some(Event(event.(filename := []))) else None
  }

  lemma CutBody(request: Request, held: u64, reply: Reply, k: nat)
    requires Answers(request, reply) && ReplyStatus(reply) == STATUS_SUCCESS && k < |ReplyBody(reply)|
    ensures ParseReplyBody(request, held, ReplyBody(reply)[..k]) == match TakenFor(held, reply, k + 3)
      case Some(passed) => Got(passed, [])
      case None => Short
  {
    hide CString, InLastLength, NamelessLast, EncodeFiles, ParseFiles;
    var part := ReplyBody(reply)[..k];
    match reply
    case File(content) => PartIsShort(content, k);
    case Listing(files) => CutListing(files, k);
    case Event(event) =>
      if k >= 4 {
        var name := EncodeString(event.filename)[..k - 4];
        assert part == Low(4, EventCode(event.kind)) + name;
        ValueRoundTrip(4, EventCode(event.kind), name);
        PartIsShort(CString(event.filename), k - 4);
      }
    case Status(_) =>
  }

  /** Exactly when a reply that is cut passes for a whole one: a download cut in its length, which is taken for an
      empty file if the variable for the length held zero, an event cut in the length of its name, and a listing
      cut in the length of its last name, both taken with that name empty. */
  lemma CutReplyPassesIff(request: Request, held: u64, reply: Reply, k: nat)
    requires Answers(request, reply) && k < |EncodeReply(reply)|
    ensures ParseReply(request, held, EncodeReply(reply)[..k]) == match TakenFor(held, reply, k)
      case Some(passed) => Got(passed, [])
      case None => Short
  {
    hide Low, TakenFor, ParseReplyBody, ReplyBody;
    var header, status := Low(2, PROTOCOL_VERSION) + Low(1, ReplyStatus(reply)), ReplyStatus(reply);
    var all := EncodeReply(reply);
    if k < 3 {
      CutHeader(request, held, reply, k);
    } else {
      var part := ReplyBody(reply)[..k - 3];
      assert all[..k] == header + part == header + part + [];
      HeaderRoundTrip(status, part, []);
      assert part + [] == part;
      StatusHasNoBody(reply);
      CutBody(request, held, reply, k - 3);
    }
  }

  lemma StatusHasNoBody(reply: Reply)
    ensures reply.Status? ==> ReplyBody(reply) == []
  {
  }

  lemma CutHeader(request: Request, held: u64, reply: Reply, k: nat)
    requires k < 3
    ensures ParseReply(request, held, EncodeReply(reply)[..k]) == Short && TakenFor(held, reply, k) == None
  {
    hide CString, InLastLength, NamelessLast, EncodeFiles, ParseFiles;
    if k == 2 {
      var all := EncodeReply(reply);
      assert all[..2] == Low(2, PROTOCOL_VERSION) == Low(2, PROTOCOL_VERSION) + [];
      ValueRoundTrip(2, PROTOCOL_VERSION, []);
    }
  }

  /** Any other flag than one is a client. */
  lemma FlagIff(name: Content, flag: u8, rest: Bytes)
    ensures ParseHandshake([1, 0, 0] + EncodeBytes(name) + [flag] + rest) == Got(Handshake(name, flag == 1), rest)
  {
    hide Low, ParseBytes, EncodeBytes;
    LowBytes(1);
    LowBytes(0);
    LowBytes(flag);
    var body := EncodeBytes(name) + [flag];
    assert [1, 0] + [0] == [1, 0, 0];
    assert [1, 0, 0] + EncodeBytes(name) + [flag] + rest == Low(2, PROTOCOL_VERSION) + Low(1, 0) + body + rest;
    HeaderRoundTrip(0, body, rest);
    assert body + rest == EncodeBytes(name) + (Low(1, flag) + rest);
    BytesRoundTrip(name, Low(1, flag) + rest);
    ValueRoundTrip(1, flag, rest);
  }

  function EncodeRequests(rs: seq<Request>): Bytes {
    if rs == [] then [] else EncodeRequest(rs[0]) + EncodeRequests(rs[1..])
  }

  /** Every packet that can be taken off the front of `s`, and the bytes that remain. */
  function ParsePackets(s: Bytes): (seq<Request>, Bytes)
    decreases |s|
  {
    match ParsePacket(s)
    case Got(r, rest) => var (rs, left) := ParsePackets(rest); ([r] + rs, left)
    case _ => ([], s)
  }

  lemma NoPacket()
    ensures ParsePacket([]) == Short
  {
  }

  /** Request streams are self-delimiting: packets written back to back come out as the same
      packets, and no byte is left over. */
  lemma {:induction false} PacketsRoundTrip(rs: seq<Request>)
    requires forall r :: r in rs ==> !r.Handshake?
    ensures ParsePackets(EncodeRequests(rs)) == (CanonicalRequests(rs), [])
  {
    hide ParsePacket, EncodeRequest, Canonical;
    if rs == [] {
      NoPacket();
    } else {
      PacketRoundTrip(rs[0], EncodeRequests(rs[1..]));
      PacketsRoundTrip(rs[1..]);
      assert CanonicalRequests(rs) == [Canonical(rs[0])] + CanonicalRequests(rs[1..]);
    }
  }

  /** A whole connection: the handshake is taken off first, then exactly the packets sent. */
  lemma ConnectionRoundTrip(hello: Request, rs: seq<Request>)
    requires hello.Handshake? && forall r :: r in rs ==> !r.Handshake?
    ensures ParseHandshake(EncodeRequest(hello) + EncodeRequests(rs)) == Got(Canonical(hello), EncodeRequests(rs))
    ensures ParsePackets(EncodeRequests(rs)) == (CanonicalRequests(rs), [])
  {
    HandshakeRoundTrip(hello, EncodeRequests(rs));
    PacketsRoundTrip(rs);
  }
}
