/** What a session says about the user's files, which all of the user's connections change. A change comes
    first and the event that tells of it later, so that two connections can be heard in the other order. */
module Storage {
  import opened Basics
  import opened Wire
  import opened Packets
  import opened Session

  lemma {:induction false} StepsConcat(disk: Disk, a: seq<Step>, b: seq<Step>)
    ensures Touched(disk, a + b) == Touched(Touched(disk, a), b)
    ensures Told(a + b) == Told(a) + Told(b)
    decreases |a|
  {
    if a == [] {
      assert a + b == b;
    } else {
      assert (a + b)[1..] == a[1..] + b;
      StepsConcat(if a[0].Touch? then Performed(disk, a[0].change) else disk, a[1..], b);
    }
  }

  lemma NoSteps(disk: Disk)
    ensures Touched(disk, []) == disk && Told([]) == []
  {
  }

  lemma OneStep(disk: Disk, step: Step)
    ensures Touched(disk, [step]) == (if step.Touch? then Performed(disk, step.change) else disk)
    ensures Told([step]) == if step.Tell? then [step.event] else []
  {
    assert [step][1..] == [];
  }

  // ------------------------------------------------------------------ the timeline of a session

  /** The change a request makes, if it was reported as done. */
  function Made(r: Request, told: Reply): Option<Change> {
    if told != SUCCEEDED then None
    else match Canonical(r)
      case Upload(name, content) => Some(Stored(name, content))
      case Delete(name) => Some(Removed(name))
      case _ => None
  }

  function EventOf(c: Change): FileEvent { FileEvent(if c.Stored? then Modified else Deleted, c.name) }

  function OwnTouch(made: Option<Change>): seq<Step> { if made.Some? then [Touch(made.value)] else [] }

  function OwnTell(made: Option<Change>): seq<Step> { if made.Some? then [Tell(EventOf(made.value))] else [] }

  /** What happens in the course of a call, by whichever connection. */
  function StepsOf(call: Call, told: Reply): seq<Step> {
    var made := Made(call.request, told);
    (call.env.before + OwnTouch(made)) + (call.env.after + OwnTell(made))
  }

  /** What happens in the course of a session. */
  function Timeline(calls: seq<Call>, told: seq<Reply>): seq<Step>
    requires |calls| == |told|
    decreases |calls|
  {
    if calls == [] then [] else StepsOf(calls[0], told[0]) + Timeline(calls[1..], told[1..])
  }

  function HeardIn(told: Reply): seq<FileEvent> { if told.Event? then [told.event] else [] }

  /** The events a client was told of. */
  function Heard(told: seq<Reply>): seq<FileEvent> {
    if told == [] then [] else HeardIn(told[0]) + Heard(told[1..])
  }

  lemma OwnSteps(disk: Disk, made: Option<Change>)
    ensures Touched(disk, OwnTouch(made)) == if made.Some? then Performed(disk, made.value) else disk
    ensures Told(OwnTell(made)) == if made.Some? then [EventOf(made.value)] else []
    ensures Told(OwnTouch(made)) == [] && Touched(disk, OwnTell(made)) == disk
  {
    hide Touched, Told;
    NoSteps(disk);
    if made.Some? {
      OneStep(disk, Touch(made.value));
      OneStep(disk, Tell(EventOf(made.value)));
    }
  }

  lemma ActIsMade(s: State, call: Call)
    requires Ordinary(call.request)
    ensures var (acted, reply, events) := Act(s, Canonical(call.request), call.env);
      var made := Made(call.request, reply);
      && acted.disk == Touched(s.disk, OwnTouch(made)) && events == Told(OwnTell(made))
      && HeardIn(reply) + acted.pending == s.pending
  {
    hide CString, Touched, Told, OwnTouch, OwnTell;
    var (acted, reply, events) := Act(s, Canonical(call.request), call.env);
    OwnSteps(s.disk, Made(call.request, reply));
    assert [] + s.pending == s.pending;
    assert s.pending != [] ==> [s.pending[0]] + s.pending[1..] == s.pending;
  }

  lemma ServedSteps(s: State, call: Call)
    requires Ordinary(call.request)
    ensures var (next, reply) := Serve(s, call);
      && next.disk == Touched(s.disk, StepsOf(call, reply))
      && HeardIn(reply) + next.pending == s.pending + Told(StepsOf(call, reply))
  {
    hide Act, Made, Touched, Told, OwnTouch, OwnTell;
    var met := Meet(s, call.env.before);
    var (acted, reply, events) := Act(met, Canonical(call.request), call.env);
    ActIsMade(met, call);
    var touch, tell := OwnTouch(Made(call.request, reply)), OwnTell(Made(call.request, reply));
    StepsConcat(s.disk, call.env.before, touch);
    StepsConcat(acted.disk, call.env.after, tell);
    StepsConcat(s.disk, call.env.before + touch, call.env.after + tell);
    OwnSteps(Touched(acted.disk, call.env.after), Made(call.request, reply));
    var heard, b, a := HeardIn(reply), Told(call.env.before), Told(call.env.after);
    assert heard + ((acted.pending + a) + events) == (heard + acted.pending) + (a + events);
    assert (s.pending + b) + (a + events) == s.pending + ((b + []) + (a + events));
  }

  /** At every moment the files are those that the changes by all connections, in their order, make of the
      files at first. */
  lemma {:induction false} FilesFollowChanges(s: State, calls: seq<Call>)
    requires OrdinaryCalls(calls)
    ensures var (last, told) := Answered(s, calls); last.disk == Touched(s.disk, Timeline(calls, told))
    decreases |calls|
  {
    hide Serve, StepsOf, Touched, Told;
    if calls == [] {
      NoSteps(s.disk);
    } else {
      var (next, reply) := Serve(s, calls[0]);
      var (last, told) := Answered(s, calls);
      ServedSteps(s, calls[0]);
      FilesFollowChanges(next, calls[1..]);
      StepsConcat(s.disk, StepsOf(calls[0], reply), Timeline(calls[1..], told[1..]));
    }
  }

  /** No event is lost, repeated or reordered: those told and those still waiting are those that were
      waiting at first and those broadcast by all connections, in order. */
  lemma {:induction false} EventsAreConserved(s: State, calls: seq<Call>)
    requires OrdinaryCalls(calls)
    ensures var (last, told) := Answered(s, calls);
      Heard(told) + last.pending == s.pending + Told(Timeline(calls, told))
    decreases |calls|
  {
    hide Serve, StepsOf, Touched, Told, HeardIn;
    var (last, told) := Answered(s, calls);
    if calls == [] {
      NoSteps(s.disk);
      assert [] + s.pending == s.pending + [];
    } else {
      var (next, reply) := Serve(s, calls[0]);
      var rest := Timeline(calls[1..], told[1..]);
      ServedSteps(s, calls[0]);
      EventsAreConserved(next, calls[1..]);
      StepsConcat(s.disk, StepsOf(calls[0], reply), rest);
      assert (HeardIn(reply) + Heard(told[1..])) + last.pending == HeardIn(reply) + (Heard(told[1..]) + last.pending);
      assert HeardIn(reply) + (next.pending + Told(rest)) == (HeardIn(reply) + next.pending) + Told(rest);
      assert (s.pending + Told(StepsOf(calls[0], reply))) + Told(rest)
          == s.pending + (Told(StepsOf(calls[0], reply)) + Told(rest));
    }
  }

  // ------------------------------------------------------------------ one file

  /** Is a file there after some steps, going by the changes? By the events? */
  predicate Present(start: bool, steps: seq<Step>, name: Content)
    decreases |steps|
  {
    if steps == [] then start
    else Present(if steps[0].Touch? && steps[0].change.name == name then steps[0].change.Stored? else start,
                 steps[1..], name)
  }

  predicate Reported(start: bool, events: seq<FileEvent>, name: Content)
    decreases |events|
  {
    if events == [] then start
    else Reported(if events[0].filename == name then events[0].kind == Modified else start, events[1..], name)
  }

  lemma {:induction false} PresentIff(disk: Disk, steps: seq<Step>, name: Content)
    ensures name in Touched(disk, steps) <==> Present(name in disk, steps, name)
    decreases |steps|
  {
    if steps != [] {
      PresentIff(if steps[0].Touch? then Performed(disk, steps[0].change) else disk, steps[1..], name);
    }
  }

  /** What a client that hears the events takes to be there: the names it started with, as the events change
      them. */
  function NamesAfter(names: set<Content>, events: seq<FileEvent>): set<Content>
    decreases |events|
  {
    if events == [] then names
    else NamesAfter(if events[0].kind == Modified then names + {events[0].filename} else names - {events[0].filename},
                    events[1..])
  }

  lemma {:induction false} ReportedIff(names: set<Content>, events: seq<FileEvent>, name: Content)
    ensures name in NamesAfter(names, events) <==> Reported(name in names, events, name)
    decreases |events|
  {
    if events != [] {
      var e := events[0];
      ReportedIff(if e.kind == Modified then names + {e.filename} else names - {e.filename}, events[1..], name);
    }
  }

  /** Exactly when the events, heard and still waiting, tell of a file truly: when the last change of the file
      and the last event about it agree. */
  lemma NamesAreReportedIff(s: State, calls: seq<Call>, name: Content)
    requires OrdinaryCalls(calls) && s.pending == []
    ensures var (last, told) := Answered(s, calls);
      var steps := Timeline(calls, told);
      (name in last.disk <==> name in NamesAfter(s.disk.Keys, Heard(told) + last.pending))
      <==> (Present(name in s.disk, steps, name) <==> Reported(name in s.disk, Told(steps), name))
  {
    hide Answered, Timeline, Touched, Told;
    var (last, told) := Answered(s, calls);
    var steps := Timeline(calls, told);
    FilesFollowChanges(s, calls);
    EventsAreConserved(s, calls);
    assert [] + Told(steps) == Told(steps);
    PresentIff(s.disk, steps, name);
    ReportedIff(s.disk.Keys, Told(steps), name);
  }

  /** Every change of the file is told of before it is changed again; `due` is the event to be told. */
  predicate InTurn(due: Option<FileEvent>, steps: seq<Step>, name: Content)
    decreases |steps|
  {
    if steps == [] then due == None
    else match steps[0]
      case Touch(c) =>
        if c.name != name then InTurn(due, steps[1..], name)
        else due == None && InTurn(Some(EventOf(c)), steps[1..], name)
      case Tell(e) =>
        if e.filename != name then InTurn(due, steps[1..], name)
        else due == Some(e) && InTurn(None, steps[1..], name)
  }

  lemma {:induction false} InTurnAgrees(present: bool, reported: bool, due: Option<FileEvent>, steps: seq<Step>,
          name: Content)
    requires InTurn(due, steps, name)
    requires if due == None then present == reported else present == (due.value.kind == Modified)
    ensures Present(present, steps, name) == Reported(reported, Told(steps), name)
    decreases |steps|
  {
    if steps != [] {
      match steps[0]
      case Touch(c) =>
        assert Told(steps) == Told(steps[1..]);
        if c.name == name {
          InTurnAgrees(c.Stored?, reported, Some(EventOf(c)), steps[1..], name);
        } else {
          InTurnAgrees(present, reported, due, steps[1..], name);
        }
      case Tell(e) =>
        assert Told(steps) == [e] + Told(steps[1..]);
        if e.filename == name {
          InTurnAgrees(present, e.kind == Modified, None, steps[1..], name);
        } else {
          InTurnAgrees(present, reported, due, steps[1..], name);
        }
    }
  }

  /** Whatever the user's connections do, as long as each change of a file is told of before the next one, the
      events, heard and still waiting, say exactly whether the server has it. */
  lemma NamesAreReported(s: State, calls: seq<Call>, name: Content)
    requires OrdinaryCalls(calls) && s.pending == []
    requires InTurn(None, Timeline(calls, Answered(s, calls).1), name)
    ensures var (last, told) := Answered(s, calls);
      name in last.disk <==> name in NamesAfter(s.disk.Keys, Heard(told) + last.pending)
  {
    hide Answered, Timeline, InTurn;
    NamesAreReportedIff(s, calls, name);
    InTurnAgrees(name in s.disk, name in s.disk, None, Timeline(calls, Answered(s, calls).1), name);
  }

  function Race(f: Content): seq<Step> { [Touch(Removed(f)), Tell(FileEvent(Deleted, f))] }

  lemma RaceSteps(disk: Disk, f: Content)
    ensures Touched(disk, Race(f)) == disk - {f} && Told(Race(f)) == [FileEvent(Deleted, f)]
  {
    hide Touched, Told;
    var first, second := Touch(Removed(f)), Tell(FileEvent(Deleted, f));
    assert Race(f) == [first] + [second];
    OneStep(disk, first);
    OneStep(disk - {f}, second);
    StepsConcat(disk, [first], [second]);
  }

  lemma OneCall(s: State, call: Call)
    requires Ordinary(call.request)
    ensures var (next, reply) := Serve(s, call);
      Answered(s, [call]) == (next, [reply]) && Heard([reply]) == HeardIn(reply)
  {
    hide Serve, HeardIn;
    var (next, reply) := Serve(s, call);
    assert [call][1..] == [] && [reply][1..] == [];
    assert Answered(next, []) == (next, []) && [reply] + [] == [reply];
    assert Heard([]) == [] && HeardIn(reply) + [] == HeardIn(reply);
  }

  /** Otherwise they may not: a file uploaded here, and deleted by another connection before the upload is
      told of, is gone, while the last event says it was modified. */
  lemma OvertakenEventMisleads(s: State, name: Content, content: Content)
    requires s.pending == []
    ensures var f := CString(name);
      var calls := [Call(Upload(name, content), Env([], Race(f), false, [], true, None))];
      var (last, told) := Answered(s, calls);
      && told == [SUCCEEDED] && f !in last.disk
      && f in NamesAfter(s.disk.Keys, Heard(told) + last.pending)
  {
    hide CString, Answered, Heard, Race;
    var f := CString(name);
    var call := Call(Upload(name, content), Env([], Race(f), false, [], true, None));
    RaceSteps(s.disk[f := content], f);
    NoSteps(s.disk);
    OneCall(s, call);
    var events := [FileEvent(Deleted, f), FileEvent(Modified, f)];
    assert Serve(s, call).0.pending == events == [] + events;
    assert events[1..] == [FileEvent(Modified, f)] && events[1..][1..] == [];
    assert NamesAfter(s.disk.Keys - {f} + {f}, []) == NamesAfter(s.disk.Keys - {f}, events[1..]);
  }

  // ------------------------------------------------------------------ every answer

  lemma TimelineAnd(s: State, calls: seq<Call>, more: seq<Step>)
    requires OrdinaryCalls(calls)
    ensures var (last, told) := Answered(s, calls);
      && Touched(last.disk, more) == Touched(s.disk, Timeline(calls, told) + more)
      && Heard(told) + (last.pending + Told(more)) == s.pending + Told(Timeline(calls, told) + more)
  {
    hide Answered, Timeline, Touched, Told, Heard;
    var (last, told) := Answered(s, calls);
    FilesFollowChanges(s, calls);
    EventsAreConserved(s, calls);
    StepsConcat(s.disk, Timeline(calls, told), more);
    Regroup(Heard(told), last.pending, s.pending, Told(Timeline(calls, told)), Told(more));
  }

  lemma Regroup<T>(a: seq<T>, b: seq<T>, c: seq<T>, d: seq<T>, e: seq<T>)
    requires a + b == c + d
    ensures a + (b + e) == c + (d + e)
  {
    assert a + (b + e) == (a + b) + e;
    assert c + (d + e) == (c + d) + e;
  }

  /** What a client is answered after any script, request by request: an upload succeeds exactly when the file
      call does, a deletion exactly when also the file is there, a download brings the file exactly then, a
      listing what the directory shows, and an update the first event it has not heard of. */
  lemma AnswersAreExact(s: State, calls: seq<Call>, call: Call)
    requires OrdinaryCalls(calls) && Ordinary(call.request)
    ensures var (last, told) := Answered(s, calls);
      var r, e, reply := call.request, call.env, Serve(last, call).1;
      var steps := Timeline(calls, told) + e.before;
      var disk, heard, events := Touched(s.disk, steps), |Heard(told)|, s.pending + Told(steps);
      match r
      case Upload(_, _) => reply == if e.works then Status(STATUS_SUCCESS) else Status(STATUS_FAIL)
      case Delete(name) =>
        reply == if e.works && CString(name) in disk then Status(STATUS_SUCCESS) else Status(STATUS_FAIL)
      case Download(name) =>
        reply == if e.works && CString(name) in disk then File(disk[CString(name)]) else Status(STATUS_FAIL)
      case ListFiles => reply == if e.listing.Some? then Listing(e.listing.value) else Status(STATUS_FAIL)
      case Update =>
        heard <= |events| && reply == if heard < |events| then Event(events[heard]) else Status(STATUS_EMPTY)
      case _ => true
  {
    hide Answered, Timeline, Touched, Told, Heard, CString;
    TimelineAnd(s, calls, call.env.before);
  }

  /** A listing shows the directory: every file once, under a name without NULs. */
  ghost predicate ListsDirectory(files: seq<FileDescription>, disk: Disk) {
    && (forall k :: 0 <= k < |files| ==> files[k].filename in disk && 0 !in files[k].filename)
    && (forall name :: name in disk ==> Named(files, name))
    && (forall i, j :: 0 <= i < j < |files| ==> files[i].filename != files[j].filename)
  }

  ghost predicate Named(files: seq<FileDescription>, name: Content) {
    exists k :: 0 <= k < |files| && files[k].filename == name
  }

  /** A client in step that asks for a listing decodes one exactly when the directory can be read, with every
      entry as sent; the names in it are exactly those of the files present after all that happened before. */
  lemma ListingIsThePresentFiles(s: State, calls: seq<Call>, call: Call, name: Content)
    requires OrdinaryCalls(calls) && (forall c :: c in calls ==> Clean(c)) && call.request.ListFiles?
    requires call.env.listing.Some? ==>
      ListsDirectory(call.env.listing.value, Touched(Answered(s, calls).0.disk, call.env.before))
    ensures var link := Run(Link([], [], s), calls).0;
      var told := Exchange(link, call).1;
      && told.Got?
      && (call.env.listing.None? ==> told.value == Status(STATUS_FAIL))
      && (call.env.listing.Some? ==>
        && told.value == Listing(CanonicalFiles(call.env.listing.value))
        && told.value.files == call.env.listing.value
        && (Named(told.value.files, name)
            <==> Present(name in s.disk, Timeline(calls, Answered(s, calls).1) + call.env.before, name)))
  {
    hide Answered, Run, Exchange, Timeline, Touched, CString, Told, Heard;
    SessionIsCalls(s, calls);
    InStepIff(Link([], [], Answered(s, calls).0), call);
    TimelineAnd(s, calls, call.env.before);
    PresentIff(s.disk, Timeline(calls, Answered(s, calls).1) + call.env.before, name);
    if call.env.listing.Some? {
      var files := call.env.listing.value;
      forall k | 0 <= k < |files| ensures CanonicalFile(files[k]) == files[k] {
        NulFreeStays(files[k].filename);
      }
      assert CanonicalFiles(files) == files;
    }
  }

  lemma NulFreeStays(name: Content)
    requires 0 !in name
    ensures CString(name) == name
  {
  }

  // ------------------------------------------------------------------ contents

  predicate Touches(call: Call, name: Content) {
    || TouchesName(call.env.before, name) || TouchesName(call.env.after, name)
    || ((call.request.Upload? || call.request.Delete?) && CString(call.request.filename) == name)
  }

  lemma {:induction false} UntouchedNameStays(disk: Disk, steps: seq<Step>, name: Content)
    requires !TouchesName(steps, name)
    ensures name in Touched(disk, steps) <==> name in disk
    ensures name in disk ==> Touched(disk, steps)[name] == disk[name]
    decreases |steps|
  {
    if steps != [] {
      assert forall k :: 0 <= k < |steps[1..]| ==> steps[1..][k] == steps[k + 1];
      assert steps[0].Touch? ==> steps[0].change.name != name;
      UntouchedNameStays(if steps[0].Touch? then Performed(disk, steps[0].change) else disk, steps[1..], name);
    }
  }

  lemma UntouchedStep(s: State, name: Content, call: Call)
    requires Ordinary(call.request) && name in s.disk && !Touches(call, name)
    ensures var disk := Serve(s, call).0.disk; name in disk && disk[name] == s.disk[name]
  {
    hide Touched, TouchesName, CString;
    var met := Meet(s, call.env.before);
    UntouchedNameStays(s.disk, call.env.before, name);
    UntouchedNameStays(Act(met, Canonical(call.request), call.env).0.disk, call.env.after, name);
  }

  lemma {:induction false} UntouchedFileStays(s: State, name: Content, calls: seq<Call>)
    requires OrdinaryCalls(calls) && name in s.disk
    requires forall c :: c in calls ==> !Touches(c, name)
    ensures var disk := Answered(s, calls).0.disk; name in disk && disk[name] == s.disk[name]
    decreases |calls|
  {
    hide Serve, Touches;
    if calls != [] {
      UntouchedStep(s, name, calls[0]);
      UntouchedFileStays(Serve(s, calls[0]).0, name, calls[1..]);
    }
  }

  /** What an upload stored is what a later download of the name returns, whatever is done in between
      to other files, by any connection, listed or fetched. */
  lemma DownloadReturnsUpload(s: State, upload: Call, between: seq<Call>, download: Call)
    requires upload.request.Upload? && upload.env.works && OrdinaryCalls(between)
    requires download.request.Download? && download.env.works
    requires var name := CString(upload.request.filename);
      && CString(download.request.filename) == name
      && !TouchesName(upload.env.after, name) && (forall c :: c in between ==> !Touches(c, name))
      && !TouchesName(download.env.before, name)
    ensures Serve(Answered(Serve(s, upload).0, between).0, download).1 == File(upload.request.content)
  {
    hide Answered, Touched, TouchesName, Touches, CString;
    var name := CString(upload.request.filename);
    var stored := Touched(s.disk, upload.env.before)[name := upload.request.content];
    UntouchedNameStays(stored, upload.env.after, name);
    UntouchedFileStays(Serve(s, upload).0, name, between);
    UntouchedNameStays(Answered(Serve(s, upload).0, between).0.disk, download.env.before, name);
  }

  // ------------------------------------------------------------------ the only connection that changes files

  /** What a client concludes about the files from one reply. */
  function Concluded(disk: Disk, r: Request, told: Reply): Disk { Touched(disk, OwnTouch(Made(r, told))) }

  /** The files as a client can work them out, from what it asked for and what it was told. */
  function Replay(disk: Disk, calls: seq<Call>, told: seq<Reply>): Disk
    requires |calls| == |told|
    decreases |calls|
  {
    if calls == [] then disk else Replay(Concluded(disk, calls[0].request, told[0]), calls[1..], told[1..])
  }

  /** A downloaded file is the one to be expected. */
  predicate AsExpected(disk: Disk, r: Request, told: Reply) {
    told.File? ==> r.Download? && CString(r.filename) in disk && told.content == disk[CString(r.filename)]
  }

  /** No other connection changes a file. */
  predicate Alone(calls: seq<Call>) {
    forall c :: c in calls ==> !ChangesAny(c.env.before) && !ChangesAny(c.env.after)
  }

  predicate ChangesAny(steps: seq<Step>) { exists k :: 0 <= k < |steps| && steps[k].Touch? }

  lemma {:induction false} UnchangedStays(disk: Disk, steps: seq<Step>)
    requires !ChangesAny(steps)
    ensures Touched(disk, steps) == disk
    decreases |steps|
  {
    if steps != [] {
      assert forall k :: 0 <= k < |steps[1..]| ==> steps[1..][k] == steps[k + 1];
      UnchangedStays(disk, steps[1..]);
    }
  }

  /** As long as no other connection changes a file, what the client was told tells it exactly which files
      the server has, and every file it downloaded is the one it would expect. */
  lemma {:induction false} ToldIsTrue(s: State, calls: seq<Call>)
    requires OrdinaryCalls(calls) && Alone(calls)
    ensures var (last, told) := Answered(s, calls);
      && last.disk == Replay(s.disk, calls, told)
      && forall i :: 0 <= i < |calls| ==> AsExpected(Replay(s.disk, calls[..i], told[..i]), calls[i].request, told[i])
    decreases |calls|
  {
    hide AsExpected, Concluded, Serve, ChangesAny;
    if calls != [] {
      var (next, reply) := Serve(s, calls[0]);
      var (last, told) := Answered(s, calls);
      ServedAsTold(s, calls[0]);
      ToldIsTrue(next, calls[1..]);
      forall i | 0 <= i < |calls|
        ensures AsExpected(Replay(s.disk, calls[..i], told[..i]), calls[i].request, told[i])
      {
        if i > 0 {
          assert calls[..i][1..] == calls[1..][..i - 1] && told[..i][1..] == told[1..][..i - 1];
          assert calls[..i][0] == calls[0] && told[..i][0] == told[0];
          assert calls[i] == calls[1..][i - 1] && told[i] == told[1..][i - 1];
        }
      }
    }
  }

  lemma ServedAsTold(s: State, call: Call)
    requires Ordinary(call.request) && !ChangesAny(call.env.before) && !ChangesAny(call.env.after)
    ensures var (next, reply) := Serve(s, call);
      next.disk == Concluded(s.disk, call.request, reply) && AsExpected(s.disk, call.request, reply)
  {
    hide Touched, OwnTouch, Made, CString, ChangesAny;
    var met := Meet(s, call.env.before);
    var acted := Act(met, Canonical(call.request), call.env).0;
    UnchangedStays(s.disk, call.env.before);
    UnchangedStays(acted.disk, call.env.after);
    ActIsMade(met, call);
  }
}
