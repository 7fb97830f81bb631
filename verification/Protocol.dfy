/** The protocol functions of both sides, over the buffered writer and reader. */
module Protocol {
  import opened Basics
  import opened Wire
  import opened Streams
  import opened Packets

  method WriteHeader(w: TcpWriter, second: u8) returns (ok: bool)
    requires w.Valid()
    modifies w, w.buffer
    ensures w.Wrote(ok, Low(2, PROTOCOL_VERSION) + Low(1, second))
  {
    hide Extends;
    ghost var start := w.Written();
    ok := w.WriteUint(2, PROTOCOL_VERSION);
    if !ok {
      FirstPart(start, Low(2, PROTOCOL_VERSION), Low(1, second), w.Written());
      return false;
    }
    ok := w.WriteUint(1, second);
    SecondPart(start, Low(2, PROTOCOL_VERSION), Low(1, second), w.Written());
  }

  method WriteRequestBody(w: TcpWriter, r: Request) returns (ok: bool)
    requires w.Valid()
    modifies w, w.buffer
    ensures w.Wrote(ok, RequestBody(r))
  {
    hide Extends;
    ghost var start := w.Written();
    match r {
      case Handshake(username, fromPrimary) =>
        ok := w.WriteString(username);
        var flag := if fromPrimary then 1 else 0;
        if !ok {
          FirstPart(start, EncodeString(username), Low(1, flag), w.Written());
          return false;
        }
        ok := w.WriteUint(1, flag);
        SecondPart(start, EncodeString(username), Low(1, flag), w.Written());
      case Download(filename) =>
        ok := w.WriteString(filename);
      case Upload(filename, content) =>
        ok := w.WriteString(filename);
        if !ok {
          FirstPart(start, EncodeString(filename), EncodeBytes(content), w.Written());
          return false;
        }
        ok := w.WriteByteArray(content);
        SecondPart(start, EncodeString(filename), EncodeBytes(content), w.Written());
      case Delete(filename) =>
        ok := w.WriteString(filename);
      case ListFiles => ok := true; NoPart(start);
      case Exit => ok := true; NoPart(start);
      case Update => ok := true; NoPart(start);
    }
  }

  /** The sending half of every `request_*` function. */
  method SendRequest(w: TcpWriter, r: Request) returns (ok: bool)
    requires w.Valid()
    modifies w, w.buffer
    ensures w.Wrote(ok, EncodeRequest(r))
    ensures ok ==> w.sent == old(w.Written()) + EncodeRequest(r)
  {
    hide Extends, RequestBody;
    ghost var start := w.Written();
    ghost var header := Low(2, PROTOCOL_VERSION) + Low(1, PacketType(r));
    ok := WriteHeader(w, PacketType(r));
    if !ok {
      FirstPart(start, header, RequestBody(r), w.Written());
      return false;
    }
    ok := WriteRequestBody(w, r);
    SecondPart(start, header, RequestBody(r), w.Written());
    if !ok {
      return false;
    }
    ok := w.Deliver(start, EncodeRequest(r));
  }

  method WriteFile(w: TcpWriter, f: FileDescription) returns (ok: bool)
    requires w.Valid()
    modifies w, w.buffer
    ensures w.Wrote(ok, EncodeFile(f))
  {
    hide Extends;
    ghost var start := w.Written();
    ghost var m, a, c, n := Low(8, f.mtime), Low(8, f.atime), Low(8, f.ctime), EncodeString(f.filename);
    ok := w.WriteUint(8, f.mtime);
    FirstPart(start, m, a, w.Written());
    if ok {
      ok := w.WriteUint(8, f.atime);
      SecondPart(start, m, a, w.Written());
    }
    FirstPart(start, m + a, c, w.Written());
    if ok {
      ok := w.WriteUint(8, f.ctime);
      SecondPart(start, m + a, c, w.Written());
    }
    FirstPart(start, m + a + c, n, w.Written());
    if ok {
      ok := w.WriteString(f.filename);
      SecondPart(start, m + a + c, n, w.Written());
    }
  }

  method WriteFiles(w: TcpWriter, files: seq<FileDescription>) returns (ok: bool)
    requires w.Valid()
    modifies w, w.buffer
    ensures w.Wrote(ok, EncodeFiles(files))
  {
    hide Extends, EncodeFile;
    ghost var start := w.Written();
    ghost var done: Bytes := [];
    NoPart(start);
    for i := 0 to |files|
      invariant w.Wrote(true, done)
      invariant EncodeFiles(files) == done + EncodeFiles(files[i..])
    {
      ghost var file, rest := EncodeFile(files[i]), EncodeFiles(files[i + 1..]);
      assert EncodeFiles(files) == (done + file) + rest by {
        assert files[i..][1..] == files[i + 1..];
        assert done + (file + rest) == (done + file) + rest;
      }
      ok := WriteFile(w, files[i]);
      SecondPart(start, done, file, w.Written());
      FirstPart(start, done + file, rest, w.Written());
      if !ok {
        return false;
      }
      done := done + file;
    }
    assert EncodeFiles(files) == done;
    ok := true;
  }

  method WriteReplyBody(w: TcpWriter, reply: Reply) returns (ok: bool)
    requires w.Valid()
    modifies w, w.buffer
    ensures w.Wrote(ok, ReplyBody(reply))
  {
    hide Extends, EncodeFiles;
    ghost var start := w.Written();
    match reply {
      case Status(_) => ok := true; NoPart(start);
      case File(content) =>
        ok := w.WriteByteArray(content);
      case Listing(files) =>
        ok := w.WriteUint(8, |files|);
        if !ok {
          FirstPart(start, Low(8, |files|), EncodeFiles(files), w.Written());
          return false;
        }
        ok := WriteFiles(w, files);
        SecondPart(start, Low(8, |files|), EncodeFiles(files), w.Written());
      case Event(event) =>
        ok := w.WriteUint(4, EventCode(event.kind));
        if !ok {
          FirstPart(start, Low(4, EventCode(event.kind)), EncodeString(event.filename), w.Written());
          return false;
        }
        ok := w.WriteString(event.filename);
        SecondPart(start, Low(4, EventCode(event.kind)), EncodeString(event.filename), w.Written());
    }
  }

  /** Every `respond_*` function. */
  method SendReply(w: TcpWriter, reply: Reply) returns (ok: bool)
    requires w.Valid()
    modifies w, w.buffer
    ensures w.Wrote(ok, EncodeReply(reply))
    ensures ok ==> w.sent == old(w.Written()) + EncodeReply(reply)
  {
    hide Extends, ReplyBody;
    ghost var start := w.Written();
    ghost var header := Low(2, PROTOCOL_VERSION) + Low(1, ReplyStatus(reply));
    ok := WriteHeader(w, ReplyStatus(reply));
    if !ok {
      FirstPart(start, header, ReplyBody(reply), w.Written());
      return false;
    }
    ok := WriteReplyBody(w, reply);
    SecondPart(start, header, ReplyBody(reply), w.Written());
    if !ok {
      return false;
    }
    ok := w.Deliver(start, EncodeReply(reply));
  }

  lemma NoUint(width: nat)
    requires width > 0
    ensures ParseUint(width, []) == Short
  {
  }

  /** Succeeds exactly on a whole handshake. */
  method ReceiveHandshake(r: TcpReader) returns (ok: bool, request: Request)
    requires r.Valid()
    modifies r, r.aBuffer, r.bBuffer
    ensures r.Valid() && request.Handshake?
    ensures ok <==> ParseHandshake(old(r.Pending())).Got?
    ensures ok ==> ParseHandshake(old(r.Pending())) == Got(request, r.Pending())
  {
    hide ParseUint, ParseBytes;
    assert ParseUint(1, []) == Short by {
      NoUint(1);
    }
    request := Handshake([], false);
    var version: nat, kind: nat, username: Content, flag: nat;
    ok, version := r.ReadUint(2);
    if !ok {
      return;
    }
    ok, kind := r.ReadUint(1);
    if !ok {
      return;
    }
    if version != PROTOCOL_VERSION || kind != 0 {
      return false, request;
    }
    ok, username := r.ReadString([]);
    if !ok {
      return;
    }
    ok, flag := r.ReadUint(1);
    request := Handshake(username, flag == 1);
  }

  /** `receive_packet`, whose `filename` keeps its value from one packet to the next. The results of the
      string and array reads are ignored. */
  method ReceivePacket(r: TcpReader, held: Content) returns (ok: bool, request: Request)
    requires r.Valid()
    modifies r, r.aBuffer, r.bBuffer
    ensures r.Valid()
    ensures ReceivedPacket(held, old(r.Pending())).Got? ==>
      ok && ReceivedPacket(held, old(r.Pending())) == Got(request, r.Pending())
    ensures ReceivedPacket(held, old(r.Pending())).Rejected? ==> !ok
    ensures ReceivedPacket(held, old(r.Pending())).Short? && |old(r.Pending())| >= 3 ==>
      ok && request.Upload? && r.Pending() == []
    ensures ok ==> |r.Pending()| < |old(r.Pending())|
    ensures |old(r.Pending())| < 3 ==> !ok
  {
    request := ListFiles;
    var version: nat, kind: nat;
    ok, version := r.ReadUint(2);
    if !ok {
      return;
    }
    ok, kind := r.ReadUint(1);
    if !ok {
      return;
    }
    if version != PROTOCOL_VERSION {
      return false, request;
    }
    if kind == 1 {
      var filename := TakeName(r, held);
      request := Download(filename);
    } else if kind == 2 {
      var filename := TakeName(r, held);
      var _, content := r.ReadByteArray(0);
      request := Upload(filename, content);
    } else if kind == 3 {
      var filename := TakeName(r, held);
      request := Delete(filename);
    } else if kind == 4 {
      request := ListFiles;
    } else if kind == 5 {
      request := Exit;
    } else if kind == 6 {
      request := Update;
    } else {
      return false, request;
    }
    ok := true;
  }

  method TakeName(r: TcpReader, held: Content) returns (filename: Content)
    requires r.Valid()
    modifies r, r.aBuffer, r.bBuffer
    ensures r.Valid() && (filename, r.Pending()) == Taken(held, old(r.Pending()))
  {
    var _, name := r.ReadString(held);
    filename := name;
  }

  lemma NextFile(count: nat, s: Bytes, done: seq<FileDescription>)
    requires count > 0
    ensures !ParseFile(s).Got? ==> !ParseFiles(count, s).Got?
    ensures ParseFile(s).Got? ==>
      var left, all := ParseFiles(count - 1, ParseFile(s).rest), ParseFiles(count, s);
      && (left.Got? <==> all.Got?)
      && (all.Got? ==> left.rest == all.rest && done + all.value == (done + [ParseFile(s).value]) + left.value)
  {
  }

  /** The loop of `request_list_files`; `out_files` is assigned only after its last turn. */
  method ReceiveFiles(r: TcpReader, count: nat) returns (ok: bool, files: seq<FileDescription>)
    requires r.Valid()
    modifies r, r.aBuffer, r.bBuffer
    ensures r.Valid()
    ensures ok <==> ParseFiles(count, old(r.Pending())).Got?
    ensures ok ==> |files| == count && ParseFiles(count, old(r.Pending())) == Got(files, r.Pending())
  {
    hide ParseFile;
    ghost var all := ParseFiles(count, old(r.Pending()));
    files := [];
    assert all.Got? ==> files + all.value == all.value;
    for i := 0 to count
      invariant r.Valid() && |files| == i
      invariant all.Got? <==> ParseFiles(count - i, r.Pending()).Got?
      invariant all.Got? ==> (
        var left := ParseFiles(count - i, r.Pending());
        all == Got(files + left.value, left.rest))
    {
      var f: FileDescription;
      NextFile(count - i, r.Pending(), files);
      ok, f := ReceiveFile(r);
      if !ok {
        return;
      }
      files := files + [f];
    }
    assert all.Got? ==> files + ParseFiles(0, r.Pending()).value == files;
    ok := true;
  }

  method ReceiveFile(r: TcpReader) returns (ok: bool, f: FileDescription)
    requires r.Valid()
    modifies r, r.aBuffer, r.bBuffer
    ensures r.Valid()
    ensures ok <==> ParseFile(old(r.Pending())).Got?
    ensures ok ==> ParseFile(old(r.Pending())) == Got(f, r.Pending())
  {
    f := FileDescription([], 0, 0, 0);
    var mtime: nat, atime: nat, ctime: nat, filename: Content;
    ok, mtime := r.ReadUint(8);
    if !ok {
      return;
    }
    ok, atime := r.ReadUint(8);
    if !ok {
      return;
    }
    ok, ctime := r.ReadUint(8);
    if !ok {
      return;
    }
    ok, filename := r.ReadString([]);
    if !ok {
      return;
    }
    PowersOf256();
    f := FileDescription(filename, mtime, atime, ctime);
  }

  method ReceiveEvent(r: TcpReader, ghost held: u64) returns (ok: bool, reply: Reply)
    requires r.Valid()
    modifies r, r.aBuffer, r.bBuffer
    ensures r.Valid()
    ensures ok <==> ParseReplyBody(Update, held, old(r.Pending())).Got?
    ensures ok ==> ParseReplyBody(Update, held, old(r.Pending())) == Got(reply, r.Pending())
  {
    reply := Status(STATUS_SUCCESS);
    var code: nat, filename: Content;
    ok, code := r.ReadUint(4);
    if !ok {
      return;
    }
    ok, filename := r.ReadString([]);
    if !ok {
      return;
    }
    if code == 1 {
      reply := Event(FileEvent(Modified, filename));
    } else if code == 2 {
      reply := Event(FileEvent(Deleted, filename));
    } else {
      ok := false;
    }
  }

  /** What follows a success status, read by each `request_*` function in its own way. */
  method ReceiveReplyBody(r: TcpReader, request: Request, held: u64) returns (ok: bool, reply: Reply)
    requires r.Valid()
    modifies r, r.aBuffer, r.bBuffer
    ensures r.Valid()
    ensures ok <==> ParseReplyBody(request, held, old(r.Pending())).Got?
    ensures ok ==> ParseReplyBody(request, held, old(r.Pending())) == Got(reply, r.Pending())
  {
    ok, reply := true, Status(STATUS_SUCCESS);
    match request {
      case Download(_) =>
        var content: Content;
        ok, content := r.ReadByteArray(held);
        reply := File(content);
      case ListFiles =>
        var count: nat, files: seq<FileDescription>;
        ok, count := r.ReadUint(8);
        if !ok {
          return;
        }
        PowersOf256();
        ok, files := ReceiveFiles(r, count);
        if ok {
          reply := Listing(files);
        }
      case Update =>
        ok, reply := ReceiveEvent(r, held);
      case Handshake(_, _) =>
      case Upload(_, _) =>
      case Delete(_) =>
      case Exit =>
    }
  }

  /** The receiving half of every `request_*` function. It succeeds exactly when the parser does, on any
      stream. */
  method ReceiveReply(r: TcpReader, request: Request, held: u64) returns (ok: bool, reply: Reply)
    requires r.Valid()
    modifies r, r.aBuffer, r.bBuffer
    ensures r.Valid()
    ensures ok <==> ParseReply(request, held, old(r.Pending())).Got?
    ensures ok ==> ParseReply(request, held, old(r.Pending())) == Got(reply, r.Pending())
  {
    reply := Status(STATUS_FAIL);
    var version: nat, status: nat;
    ok, version := r.ReadUint(2);
    if !ok {
      return;
    }
    if version != PROTOCOL_VERSION {
      return false, reply;
    }
    ok, status := r.ReadUint(1);
    if !ok {
      return;
    }
    PowersOf256();
    if status != STATUS_SUCCESS {
      return true, Status(status);
    }
    ok, reply := ReceiveReplyBody(r, request, held);
  }
}
