/** The thread that serves one client: reads a packet, acts on it, replies, until told to stop. */
module Handler {
  import opened Basics
  import opened Wire
  import opened Streams
  import opened Packets
  import opened Protocol
  import opened Session
  import Registry

  /** `connect_to_client`: nothing happens on a handshake that is not one, or is cut short; on a proper one the
      client is registered exactly when the registry admits it, and told so. */
  method ConnectToClient(reader: TcpReader, writer: TcpWriter, registry: Registry.ClientRegistry, id: nat,
                         ghost ordinal: nat, ghost joinedAt: nat)
    returns (crashed: bool, client: Registry.Client?)
    requires reader.Valid() && writer.Valid() && writer.buffer != reader.aBuffer && writer.buffer != reader.bBuffer
    requires |registry.clients| < U64_LIMIT
    modifies registry, reader, reader.aBuffer, reader.bBuffer, writer, writer.buffer
    ensures reader.Valid() && writer.Valid()
    ensures !ParseHandshake(old(reader.Pending())).Got? ==>
      && !crashed && client == null && registry.clients == old(registry.clients)
      && writer.Written() == old(writer.Written())
    ensures ParseHandshake(old(reader.Pending())).Got? ==>
      var hello, was := ParseHandshake(old(reader.Pending())), old(registry.Views());
      var username, fromPrimary := hello.value.username, hello.value.fromPrimary;
      && reader.Pending() == hello.rest
      && (crashed <==> !fromPrimary && Registry.AnyInvalid(was))
      && (client != null <==> !crashed && Registry.Admits(was, username, fromPrimary))
      && registry.Views() == (if crashed then Registry.Sound(was) else if client == null then was else
           was + [Registry.Entry(username, id, fromPrimary, false, [], ordinal, [], joinedAt)])
      && (!writer.broken && !crashed ==>
        var told := if client == null then FAILED else SUCCEEDED;
        writer.sent == writer.Written() == old(writer.Written()) + EncodeReply(told))
  {
    hide Extends, EncodeReply, ParseHandshake, Registry.Admits, Registry.Sound, Registry.AnyInvalid;
    crashed, client := false, null;
    var ok, hello := ReceiveHandshake(reader);
    if !ok {
      return;
    }
    crashed, client := registry.ClientNew(hello.username, id, hello.fromPrimary, ordinal, joinedAt);
    if crashed {
      return;
    }
    if client == null {
      var _ := SendReply(writer, FAILED);
    } else {
      var _ := SendReply(writer, SUCCEEDED);
    }
  }

  lemma NothingExtra(r: Request, e: Env)
    ensures !r.Upload? && !r.Delete? ==> Extra(r, e) == [] && forall reply: Reply :: [] + [reply] == [reply]
  {
  }

  class ClientHandler {
    const reader: TcpReader
    const writer: TcpWriter
    var disk: Disk
    var pending: seq<FileEvent>

    ghost predicate Valid()
      reads this, reader, writer
    {
      && reader.Valid() && writer.Valid()
      && writer.buffer != reader.aBuffer && writer.buffer != reader.bBuffer
    }

    ghost function Now(): State
      reads this
    {
      State(disk, pending)
    }

    /** Unless a `send` failed, exactly `replies` went out after `start`, and nothing waits. */
    ghost predicate Replied(start: Bytes, replies: seq<Reply>)
      requires writer.Valid()
      reads this, writer, writer.buffer
    {
      !writer.broken ==>
        writer.Written() == start + EncodeReplies(replies) && writer.sent == writer.Written()
    }

    constructor (reader: TcpReader, writer: TcpWriter, disk: Disk)
      requires reader.Valid() && writer.Valid()
      requires writer.buffer != reader.aBuffer && writer.buffer != reader.bBuffer
      ensures Valid() && Now() == State(disk, []) && this.reader == reader && this.writer == writer
    {
      this.reader := reader;
      this.writer := writer;
      this.disk := disk;
      this.pending := [];
    }

    method Respond(reply: Reply, ghost start: Bytes, ghost before: seq<Reply>) returns (ok: bool)
      requires Valid() && Replied(start, before)
      modifies writer, writer.buffer
      ensures Valid() && Replied(start, before + [reply])
      ensures (old(writer.broken) ==> writer.broken) && (!writer.broken ==> ok)
    {
      hide Extends, EncodeReply, EncodeReplies;
      OneReply(reply);
      RepliesAfter(start, before, [reply]);
      ok := SendReply(writer, reply);
    }

    /** The loop over the backups when the primary is asked to change a file. */
    method FollowBackups(backups: seq<u8>, ghost start: Bytes)
      requires Valid() && Replied(start, [])
      modifies writer, writer.buffer
      ensures Valid() && Replied(start, Rollbacks(backups))
      ensures old(writer.broken) ==> writer.broken
    {
      ghost var done: seq<Reply> := [];
      for i := 0 to |backups|
        invariant Valid() && Replied(start, done)
        invariant done + Rollbacks(backups[i..]) == Rollbacks(backups)
        invariant old(writer.broken) ==> writer.broken
      {
        assert backups[i..][1..] == backups[i + 1..];
        if backups[i] != STATUS_SUCCESS {
          assert (done + [FAILED]) + Rollbacks(backups[i + 1..]) == done + ([FAILED] + Rollbacks(backups[i + 1..]));
          var _ := Respond(FAILED, start, done);
          done := done + [FAILED];
        }
      }
      assert done + Rollbacks([]) == done;
    }

    method HandleDownload(filename: Content, works: bool, ghost start: Bytes) returns (running: bool)
      requires Valid() && Replied(start, [])
      modifies writer, writer.buffer
      ensures Valid()
      ensures Replied(start, [if works && filename in disk then File(disk[filename]) else FAILED])
      ensures (old(writer.broken) ==> writer.broken) && (!writer.broken ==> running)
    {
      running := true;
      assert forall r: Reply :: [] + [r] == [r];
      if works && filename in disk {
        var _ := Respond(File(disk[filename]), start, []);
      } else {
        running := Respond(FAILED, start, []);
      }
    }

    /** What the user's other connections do meanwhile to the directory they share and to the events. */
    method OthersStep(steps: seq<Step>)
      modifies this
      ensures Now() == Meet(old(Now()), steps)
    {
      for i := 0 to |steps|
        invariant Touched(disk, steps[i..]) == Touched(old(disk), steps)
        invariant pending + Told(steps[i..]) == old(pending) + Told(steps)
      {
        assert steps[i..][1..] == steps[i + 1..];
        match steps[i] {
          case Touch(change) => disk := Performed(disk, change);
          case Tell(event) =>
            assert (pending + [event]) + Told(steps[i + 1..]) == pending + ([event] + Told(steps[i + 1..]));
            pending := pending + [event];
        }
      }
    }

    method HandleUpload(filename: Content, content: Content, env: Env, ghost start: Bytes)
      returns (running: bool)
      requires Valid() && Replied(start, [])
      modifies this, writer, writer.buffer
      ensures Valid() && Now() == if env.works
          then var met := Meet(State(old(disk)[filename := content], old(pending)), env.after);
               State(met.disk, met.pending + [FileEvent(Modified, filename)])
          else Meet(old(Now()), env.after)
      ensures Replied(start, Extra(Upload(filename, content), env) + [if env.works then SUCCEEDED else FAILED])
      ensures (old(writer.broken) ==> writer.broken) && (!writer.broken ==> running)
    {
      hide Meet;
      if env.primary {
        FollowBackups(env.backups, start);
      }
      if env.works {
        disk := disk[filename := content];
        running := Respond(SUCCEEDED, start, Extra(Upload(filename, content), env));
        OthersStep(env.after);
        pending := pending + [FileEvent(Modified, filename)];
      } else {
        running := Respond(FAILED, start, Extra(Upload(filename, content), env));
        OthersStep(env.after);
      }
    }

    method HandleDelete(filename: Content, env: Env, ghost start: Bytes) returns (running: bool)
      requires Valid() && Replied(start, [])
      modifies this, writer, writer.buffer
      ensures Valid() && Now() == if env.works && filename in old(disk)
          then var met := Meet(State(old(disk) - {filename}, old(pending)), env.after);
               State(met.disk, met.pending + [FileEvent(Deleted, filename)])
          else Meet(old(Now()), env.after)
      ensures Replied(start, Extra(Delete(filename), env)
          + [if env.works && filename in old(disk) then SUCCEEDED else FAILED])
      ensures (old(writer.broken) ==> writer.broken) && (!writer.broken ==> running)
    {
      hide Meet;
      if env.primary {
        FollowBackups(env.backups, start);
      }
      if env.works && filename in disk {
        disk := disk - {filename};
        running := Respond(SUCCEEDED, start, Extra(Delete(filename), env));
        OthersStep(env.after);
        pending := pending + [FileEvent(Deleted, filename)];
      } else {
        running := Respond(FAILED, start, Extra(Delete(filename), env));
        OthersStep(env.after);
      }
    }

    method HandleUpdate(ghost start: Bytes) returns (running: bool)
      requires Valid() && Replied(start, [])
      modifies this, writer, writer.buffer
      ensures Valid() && disk == old(disk)
      ensures pending == if old(pending) == [] then [] else old(pending)[1..]
      ensures Replied(start, [if old(pending) == [] then Status(STATUS_EMPTY) else Event(old(pending)[0])])
      ensures (old(writer.broken) ==> writer.broken) && (!writer.broken ==> running)
    {
      assert forall r: Reply :: [] + [r] == [r];
      if pending != [] {
        var event := pending[0];
        pending := pending[1..];
        running := Respond(Event(event), start, []);
      } else {
        running := Respond(Status(STATUS_EMPTY), start, []);
      }
    }

    /** The body of the server loop, after a packet was received. The files and events change as
        `Handle` says even when a reply cannot be sent. */
    method HandleRequest(r: Request, env: Env, ghost start: Bytes) returns (running: bool)
      requires Valid() && Replied(start, [])
      modifies this, writer, writer.buffer
      ensures Valid() && Now() == Handle(old(Now()), r, env).state
      ensures Replied(start, Handle(old(Now()), r, env).replies)
      ensures old(writer.broken) ==> writer.broken
      ensures running ==> Handle(old(Now()), r, env).running
      ensures !writer.broken ==> running == Handle(old(Now()), r, env).running
    {
      hide Meet, Extra, EncodeReplies, CString;
      OthersStep(env.before);
      NothingExtra(r, env);
      match r {
        case Upload(filename, content) => running := HandleUpload(filename, content, env, start);
        case Delete(filename) => running := HandleDelete(filename, env, start);
        case Download(filename) =>
          running := HandleDownload(filename, env.works, start);
          OthersStep(env.after);
        case ListFiles =>
          running := Respond(if env.listing.Some? then Listing(env.listing.value) else FAILED, start, []);
          OthersStep(env.after);
        case Update =>
          running := HandleUpdate(start);
          OthersStep(env.after);
        case Handshake(_, _) =>
          running := false;
          OthersStep(env.after);
        case Exit =>
          running := false;
          OthersStep(env.after);
      }
      assert pending + [] == pending;
    }

    /** The server loop. `envs(k)` is what the k-th packet meets. Unless a `send` fails, it does what
        `ServeStream` says, however the network splits the bytes and wherever the stream ends, but for
        the contents of an upload that is cut. When a `send` fails, it has still served the first packets
        of the stream, each completely, and no others. */
    method Serve(envs: nat -> Env)
      requires Valid() && writer.sent == writer.Written()
      modifies this, reader, reader.aBuffer, reader.bBuffer, writer, writer.buffer
      ensures Valid()
      ensures Determined([], old(reader.Pending())) && !writer.broken ==>
        var t := ServeStream(old(Now()), [], old(reader.Pending()), envs, 0);
        && Now() == t.state
        && writer.sent == old(writer.sent) + EncodeReplies(t.replies)
      ensures Determined([], old(reader.Pending())) ==>
        exists n: nat :: Now() == PositionAfter(Position(old(Now()), [], old(reader.Pending()), true), envs, n).state
    {
      hide ReceivedPacket, EncodeReplies, Handle, ServeStream, Determined, HeldAfter, Turn, PositionAfter;
      ghost var up := reader.Pending();
      ghost var first := ServeStream(Now(), [], up, envs, 0);
      ghost var start := writer.Written();
      ghost var sent: seq<Reply> := [];
      NoReplies(start);
      ghost var begin := Position(Now(), [], up, true);
      NoTurns(begin, envs);
      var turn := 0;
      var filename: Content := [];
      var running := true;
      while running
        invariant Valid() && Replied(start, sent)
        invariant Determined([], up) && !writer.broken && running ==>
          first.state == ServeStream(Now(), filename, reader.Pending(), envs, turn).state
          && first.replies == sent + ServeStream(Now(), filename, reader.Pending(), envs, turn).replies
        invariant Determined([], up) && !writer.broken && !running ==>
          first.state == Now() && first.replies == sent
        invariant Determined([], up) && running ==> Determined(filename, reader.Pending())
        invariant Determined([], up) ==> Now() == PositionAfter(begin, envs, turn).state
        invariant Determined([], up) && running ==>
          PositionAfter(begin, envs, turn) == Position(Now(), filename, reader.Pending(), true)
        decreases running, |reader.Pending()|
      {
        ghost var before, stream, written := Now(), reader.Pending(), writer.Written();
        StreamEnds(before, filename, stream, envs, turn, sent);
        NoReplies(written);
        var ok, request := ReceivePacket(reader, filename);
        if !ok {
          running := false;
          break;
        }
        running := HandleRequest(request, envs(turn), written);
        ghost var replies := Handle(before, request, envs(turn)).replies;
        RepliesAfter(start, sent, replies);
        if Determined([], up) {
          NextTurn(before, filename, stream, envs, turn, sent);
          NextPosition(begin, before, filename, stream, envs, turn);
        }
        sent := sent + replies;
        filename := HeldAfter(filename, request);
        turn := turn + 1;
      }
    }
  }
}
