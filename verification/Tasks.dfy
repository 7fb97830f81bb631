/** The client's tasks: numbered and queued by any thread, carried out one at a time by the network
    thread across reconnections, and handed back to whoever asks for them by number. */
module Tasks {
  import opened Basics
  import opened Wire
  import Packets
  import opened AsyncQueue

  const TASK_LIST_FILES: int := 1
  const TASK_UPLOAD: int := 2
  const TASK_DOWNLOAD: int := 3
  const TASK_DELETE: int := 4
  const TASK_EXIT: int := 5

  datatype Task = Task(kind: int, id: int, username: Content, filename: Content, path: Content,
                       files: seq<Packets.FileDescription>, success: bool)

  // ------------------------------------------------------------------ task numbers

  const INT_VALUES: int := 0x1_0000_0000

  /** The next value of a 32-bit counter: after the greatest comes the least. */
  function Increment(id: int): int { if id == 0x7FFF_FFFF then -0x8000_0000 else id + 1 }

  /** The number the k-th submission gets; the counter starts at zero. */
  function IdOf(k: nat): (id: int)
    ensures -0x8000_0000 <= id <= 0x7FFF_FFFF
  {
    if k == 0 then 0 else Increment(IdOf(k - 1))
  }

  lemma {:induction false} IdsWrap(k: nat) returns (turns: int)
    ensures IdOf(k) == k - turns * 0x1_0000_0000
  {
    if k == 0 {
      turns := 0;
    } else {
      turns := IdsWrap(k - 1);
      turns := if IdOf(k - 1) == 0x7FFF_FFFF then turns + 1 else turns;
    }
  }

  /** Two submissions share a number exactly when they are a multiple of 2^32 apart. */
  lemma SameIdIff(j: nat, k: nat)
    ensures IdOf(j) == IdOf(k) <==> (j - k) % 0x1_0000_0000 == 0
  {
    hide IdOf;
    var tj := IdsWrap(j);
    var tk := IdsWrap(k);
    var d := IdOf(j) - IdOf(k);
    assert j - k == d + (tj - tk) * 0x1_0000_0000;
  }

  /** The first n submissions have different numbers exactly when there are at most 2^32 of them. */
  lemma IdsDistinctIff(n: nat)
    ensures (forall j, k :: 0 <= j < k < n ==> IdOf(j) != IdOf(k)) <==> n <= INT_VALUES
  {
    if n <= INT_VALUES {
      forall j, k | 0 <= j < k < n ensures IdOf(j) != IdOf(k) {
        SameIdIff(j, k);
      }
    } else {
      SameIdIff(0, INT_VALUES);
      assert IdOf(0) == IdOf(INT_VALUES);
    }
  }

  // ------------------------------------------------------------------ carrying out a task

  /** What a task meets: whether the exchange with the server went through and with which status, and
      whether the local file could be read or written. */
  datatype Env = Env(exchanged: bool, status: u8, files: seq<Packets.FileDescription>, readable: bool, writable: bool)

  predicate Known(kind: int) { TASK_LIST_FILES <= kind <= TASK_EXIT }

  /** Did the task succeed? */
  predicate Succeeds(kind: int, e: Env) {
    if kind == TASK_LIST_FILES || kind == TASK_EXIT then e.exchanged
    else if kind == TASK_UPLOAD then e.readable && e.exchanged && e.status == Packets.STATUS_SUCCESS
    else if kind == TASK_DOWNLOAD then e.exchanged && e.status == Packets.STATUS_SUCCESS && e.writable
    else kind == TASK_DELETE && e.exchanged && e.status == Packets.STATUS_SUCCESS
  }

  /** Does the network thread keep its connection? */
  predicate Stays(kind: int, e: Env) {
    Known(kind) && e.exchanged && (kind == TASK_UPLOAD ==> e.readable)
  }

  /** The record for the done queue; a task of unknown kind leaves none. */
  function Finish(t: Task, e: Env): Option<Task> {
    if !Known(t.kind) then None
    else
      var listed := t.kind == TASK_LIST_FILES && e.exchanged && e.status == Packets.STATUS_SUCCESS;
      Some(t.(success := Succeeds(t.kind, e), files := if listed then e.files else t.files))
  }

  /** Should the task have been reported as done? Only if the server confirmed it. An exit is not answered. */
  predicate Confirmed(kind: int, e: Env) {
    e.exchanged && (kind == TASK_EXIT || e.status == Packets.STATUS_SUCCESS)
  }

  /** A list task the server answers, but not with success: the branch that ignores the status. */
  predicate RefusedList(kind: int, e: Env) {
    kind == TASK_LIST_FILES && e.exchanged && e.status != Packets.STATUS_SUCCESS
  }

  /** Exactly when a report can be trusted: success implies that the server confirmed the task, except in
      the one branch of refused lists, where success is reported all the same. */
  lemma ReportIsTrueIff(t: Task, e: Env)
    requires Known(t.kind)
    ensures (Finish(t, e).value.success ==> Confirmed(t.kind, e)) <==> !RefusedList(t.kind, e)
    ensures RefusedList(t.kind, e) ==> Finish(t, e) == Some(t.(success := true)) && Stays(t.kind, e)
    ensures !Stays(t.kind, e) ==> !Finish(t, e).value.success
  {
  }

  /** Could the local file that the task needs be read or written? */
  predicate LocalFileOk(kind: int, e: Env) {
    (kind == TASK_UPLOAD ==> e.readable) && (kind == TASK_DOWNLOAD ==> e.writable)
  }

  /** Exactly what a report says: success is reported if and only if the server confirmed the task, or refused a
      listing, and the local file was no obstacle. A listing that was confirmed hands over the files the server
      sent, and nothing else changes the files of a record. The connection is kept exactly when the exchange with
      the server went through, which for an upload takes a file that can be read. */
  lemma ReportIsExact(t: Task, e: Env)
    requires Known(t.kind)
    ensures var done := Finish(t, e).value;
      && (done.success <==> LocalFileOk(t.kind, e) && (Confirmed(t.kind, e) || RefusedList(t.kind, e)))
      && done.files == (if t.kind == TASK_LIST_FILES && Confirmed(t.kind, e) then e.files else t.files)
      && done == t.(success := done.success, files := done.files)
    ensures Stays(t.kind, e) <==> e.exchanged && (t.kind == TASK_UPLOAD ==> e.readable)
  {
  }

  // ------------------------------------------------------------------ every interleaving

  /** A task on its way; the ticket is its rank among all submissions. */
  datatype Ticketed = Ticketed(ticket: nat, task: Task)

  datatype State = State(
    nextId: int,
    log: seq<Task>,                   // every submission, in order of its number
    submitting: seq<Ticketed>,        // numbered, not yet in the queue
    queue: seq<Ticketed>,
    executing: Option<Ticketed>,
    done: seq<Ticketed>,
    handed: seq<Ticketed>,            // returned to a caller
    connected: bool,
    queued: seq<Ticketed>,            // everything ever queued
    started: seq<Ticketed>,           // everything ever taken up by the network thread
    met: map<nat, Env>)               // what each task carried out met, by ticket

  datatype Action =
    | Number(task: Task)              // a caller takes a number
    | Enqueue(i: nat)                 // one of those callers puts its task in the queue
    | Connect
    | Pop
    | Execute(env: Env)
    | Poll(answered: bool)            // the request for updates after each turn
    | TryGet
    | GetById(id: int)

  /** Position of the first record under the number at or after `from`, or the length. */
  function IndexOf(ts: seq<Ticketed>, id: int, from: nat): (k: nat)
    requires from <= |ts|
    ensures from <= k <= |ts| && (k < |ts| ==> ts[k].task.id == id)
  {
    FirstIndex(ts, (t: Ticketed) => t.task.id == id, from)
  }

  predicate Enabled(s: State, a: Action) {
    match a
    case Number(task) => Known(task.kind)
    case Enqueue(i) => i < |s.submitting|
    case Connect => !s.connected && s.executing == None
    case Pop => s.connected && s.executing == None && s.queue != []
    case Execute(_) => s.connected && s.executing.Some?
    case Poll(_) => s.connected && s.executing == None
    case TryGet => s.done != []
    case GetById(id) => IndexOf(s.done, id, 0) < |s.done|
  }

  function HandOver(s: State, k: nat): State
    requires k < |s.done|
  {
    s.(done := RemoveAt(s.done, k), handed := s.handed + [s.done[k]])
  }

  function Next(s: State, a: Action): State
    requires Enabled(s, a)
  {
    match a
    case Number(task) =>
      var numbered := task.(id := s.nextId);
      s.(nextId := Increment(s.nextId), log := s.log + [numbered],
         submitting := s.submitting + [Ticketed(|s.log|, numbered)])
    case Enqueue(i) => s.(submitting := RemoveAt(s.submitting, i), queue := s.queue + [s.submitting[i]],
                         queued := s.queued + [s.submitting[i]])
    case Connect => s.(connected := true)
    case Pop => s.(executing := Some(s.queue[0]), queue := s.queue[1..], started := s.started + [s.queue[0]])
    case Execute(e) =>
      var t := s.executing.value;
      var finished := Finish(t.task, e);
      s.(executing := None, connected := Stays(t.task.kind, e), met := s.met[t.ticket := e],
         done := if finished.Some? then s.done + [Ticketed(t.ticket, finished.value)] else s.done)
    case Poll(answered) => s.(connected := answered)
    case TryGet => HandOver(s, 0)
    case GetById(id) => HandOver(s, IndexOf(s.done, id, 0))
  }

  predicate Run(s: State, actions: seq<Action>)
    decreases |actions|
  {
    actions == [] || (Enabled(s, actions[0]) && Run(Next(s, actions[0]), actions[1..]))
  }

  function After(s: State, actions: seq<Action>): State
    requires Run(s, actions)
    decreases |actions|
  {
    if actions == [] then s else After(Next(s, actions[0]), actions[1..])
  }

  const INIT := State(0, [], [], [], None, [], [], false, [], [], map[])

  // ------------------------------------------------------------------ where every task is

  /** The same submission, whatever its result. */
  predicate Same(a: Task, b: Task) { a == b.(files := a.files, success := a.success) }

  /** How often a ticket occurs. */
  function Count(ts: seq<Ticketed>, k: nat): nat {
    if ts == [] then 0 else (if ts[0].ticket == k then 1 else 0) + Count(ts[1..], k)
  }

  lemma {:induction false} CountConcat(a: seq<Ticketed>, b: seq<Ticketed>, k: nat)
    ensures Count(a + b, k) == Count(a, k) + Count(b, k)
  {
    if a == [] {
      assert a + b == b;
    } else {
      assert (a + b)[1..] == a[1..] + b;
      CountConcat(a[1..], b, k);
    }
  }

  lemma CountAppend(ts: seq<Ticketed>, t: Ticketed, k: nat)
    ensures Count(ts + [t], k) == Count(ts, k) + Count([t], k)
  {
    CountConcat(ts, [t], k);
  }

  lemma CountDrop(ts: seq<Ticketed>, i: nat, k: nat)
    requires i < |ts|
    ensures Count(ts, k) == Count(RemoveAt(ts, i), k) + Count([ts[i]], k)
  {
    assert ts == ts[..i] + ([ts[i]] + ts[i + 1..]);
    CountConcat(ts[..i], [ts[i]] + ts[i + 1..], k);
    CountConcat([ts[i]], ts[i + 1..], k);
    CountConcat(ts[..i], ts[i + 1..], k);
  }

  lemma CountOfNone(k: nat)
    ensures Count([], k) == 0
  {
  }

  lemma CountOfOne(t: Ticketed, k: nat)
    ensures Count([t], k) == if t.ticket == k then 1 else 0
  {
  }

  function Executing(s: State): seq<Ticketed> { if s.executing.Some? then [s.executing.value] else [] }

  function Places(s: State, k: nat): nat {
    Count(s.submitting, k) + Count(s.queue, k) + Count(Executing(s), k) + Count(s.done, k) + Count(s.handed, k)
  }

  /** Every submission is in exactly one place: on its way to the queue, in it, being carried out,
      done, or handed back. */
  ghost predicate InOnePlace(s: State) {
    forall k: nat :: Places(s, k) == if k < |s.log| then 1 else 0
  }

  ghost predicate MatchesLog(log: seq<Task>, ts: seq<Ticketed>) {
    forall t :: t in ts ==> t.ticket < |log| && Same(t.task, log[t.ticket])
  }

  /** What circulates is what was submitted; only results are filled in. */
  ghost predicate Faithful(s: State) {
    && MatchesLog(s.log, s.submitting) && MatchesLog(s.log, s.queue) && MatchesLog(s.log, Executing(s))
    && MatchesLog(s.log, s.done) && MatchesLog(s.log, s.handed)
  }

  ghost predicate Numbered(s: State) {
    s.nextId == IdOf(|s.log|) && forall k :: 0 <= k < |s.log| ==> s.log[k].id == IdOf(k) && Known(s.log[k].kind)
  }

  /** Tasks are taken up one at a time, in the order in which they were queued, and the one being
      carried out is the last one taken up. */
  ghost predicate InOrder(s: State) {
    && s.started + s.queue == s.queued
    && (s.executing.Some? ==> s.started != [] && s.started[|s.started| - 1] == s.executing.value)
  }

  /** A done record is what its submission becomes in its own encounter with the server. */
  ghost predicate Reported(log: seq<Task>, ts: seq<Ticketed>, met: map<nat, Env>) {
    forall t :: t in ts ==> RecordOk(log, t, met)
  }

  ghost predicate RecordOk(log: seq<Task>, t: Ticketed, met: map<nat, Env>) {
    t.ticket in met && t.ticket < |log| && Known(t.task.kind)
    && Finish(log[t.ticket], met[t.ticket]) == Some(t.task)
  }

  /** What has not been carried out yet is exactly what was submitted. */
  ghost predicate Unaltered(log: seq<Task>, ts: seq<Ticketed>) {
    forall t :: t in ts ==> t.ticket < |log| && t.task == log[t.ticket]
  }

  ghost predicate Waiting(s: State) {
    Unaltered(s.log, s.submitting) && Unaltered(s.log, s.queue) && Unaltered(s.log, Executing(s))
  }

  ghost predicate Good(s: State) {
    && InOnePlace(s) && Faithful(s) && Numbered(s) && InOrder(s) && Waiting(s)
    && Reported(s.log, s.done + s.handed, s.met)
  }

  lemma StepKeepsPlace(s: State, a: Action, k: nat)
    requires Enabled(s, a) && Places(s, k) == (if k < |s.log| then 1 else 0)
    requires a.Execute? ==> Known(s.executing.value.task.kind)
    ensures Places(Next(s, a), k) == if k < |Next(s, a).log| then 1 else 0
  {
    hide Count, RemoveAt;
    CountOfNone(k);
    match a
    case Number(task) =>
      var t := Next(s, a).submitting[|s.submitting|];
      CountAppend(s.submitting, t, k);
      CountOfOne(t, k);
    case Enqueue(i) =>
      CountDrop(s.submitting, i, k);
      CountAppend(s.queue, s.submitting[i], k);
    case Pop =>
      DropFirst(s.queue);
      CountDrop(s.queue, 0, k);
    case Execute(e) =>
      CountAppend(s.done, Next(s, a).done[|s.done|], k);
      CountOfOne(s.executing.value, k);
      CountOfOne(Next(s, a).done[|s.done|], k);
    case TryGet =>
      CountDrop(s.done, 0, k);
      CountAppend(s.handed, s.done[0], k);
    case GetById(id) =>
      CountDrop(s.done, IndexOf(s.done, id, 0), k);
      CountAppend(s.handed, s.done[IndexOf(s.done, id, 0)], k);
    case Connect =>
    case Poll(_) =>
  }

  lemma StepKeepsPlaces(s: State, a: Action)
    requires InOnePlace(s) && Enabled(s, a)
    requires a.Execute? ==> Known(s.executing.value.task.kind)
    ensures InOnePlace(Next(s, a))
  {
    hide Places, Next;
    forall k: nat ensures Places(Next(s, a), k) == if k < |Next(s, a).log| then 1 else 0 {
      StepKeepsPlace(s, a, k);
    }
  }

  lemma MatchesAppend(log: seq<Task>, ts: seq<Ticketed>, t: Ticketed)
    requires MatchesLog(log, ts) && t.ticket < |log| && Same(t.task, log[t.ticket])
    ensures MatchesLog(log, ts + [t])
  {
  }

  lemma MatchesDrop(log: seq<Task>, ts: seq<Ticketed>, i: nat)
    requires MatchesLog(log, ts) && i < |ts|
    ensures MatchesLog(log, RemoveAt(ts, i))
    ensures ts[i].ticket < |log| && Same(ts[i].task, log[ts[i].ticket])
  {
    assert ts[i] in ts;
  }

  lemma MatchesLonger(log: seq<Task>, t: Task, ts: seq<Ticketed>)
    requires MatchesLog(log, ts)
    ensures MatchesLog(log + [t], ts)
  {
  }

  lemma StepIsFaithful(s: State, a: Action)
    requires Faithful(s) && Enabled(s, a)
    ensures Faithful(Next(s, a))
  {
    hide MatchesLog, RemoveAt;
    assert MatchesLog(s.log, []) by {
      NoTickets(s.log);
    }
    match a
    case Number(task) =>
      var last := Next(s, a).log[|s.log|];
      MatchesLonger(s.log, last, s.submitting);
      MatchesLonger(s.log, last, s.queue);
      MatchesLonger(s.log, last, Executing(s));
      MatchesLonger(s.log, last, s.done);
      MatchesLonger(s.log, last, s.handed);
      MatchesAppend(s.log + [last], s.submitting, Ticketed(|s.log|, last));
    case Enqueue(i) =>
      MatchesDrop(s.log, s.submitting, i);
      MatchesAppend(s.log, s.queue, s.submitting[i]);
    case Pop =>
      assert [] + [s.queue[0]] == [s.queue[0]];
      assert RemoveAt(s.queue, 0) == s.queue[1..] by {
        DropFirst(s.queue);
      }
      MatchesDrop(s.log, s.queue, 0);
      MatchesAppend(s.log, [], s.queue[0]);
    case Execute(e) =>
      MatchesDrop(s.log, Executing(s), 0);
      if Known(s.executing.value.task.kind) {
        MatchesAppend(s.log, s.done, Next(s, a).done[|s.done|]);
      }
    case TryGet =>
      MatchesDrop(s.log, s.done, 0);
      MatchesAppend(s.log, s.handed, s.done[0]);
    case GetById(id) =>
      MatchesDrop(s.log, s.done, IndexOf(s.done, id, 0));
      MatchesAppend(s.log, s.handed, s.done[IndexOf(s.done, id, 0)]);
    case Connect =>
    case Poll(_) =>
  }

  lemma NoTickets(log: seq<Task>)
    ensures MatchesLog(log, [])
  {
  }

  lemma DropFirst<T>(q: seq<T>)
    requires q != []
    ensures RemoveAt(q, 0) == q[1..]
  {
  }

  lemma StepKeepsOrder(s: State, a: Action)
    requires InOrder(s) && Enabled(s, a)
    ensures InOrder(Next(s, a))
  {
    hide RemoveAt, IndexOf;
    match a
    case Pop => assert (s.started + [s.queue[0]]) + s.queue[1..] == s.started + s.queue;
    case Enqueue(i) =>
      assert s.started + (s.queue + [s.submitting[i]]) == (s.started + s.queue) + [s.submitting[i]];
    case Number(_) =>
    case Execute(_) =>
    case TryGet =>
    case GetById(_) =>
    case Connect =>
    case Poll(_) =>
  }

  lemma DropsUnaltered(log: seq<Task>, ts: seq<Ticketed>, i: nat)
    requires Unaltered(log, ts) && i < |ts|
    ensures Unaltered(log, RemoveAt(ts, i)) && ts[i].ticket < |log| && ts[i].task == log[ts[i].ticket]
  {
    assert ts[i] in ts;
  }

  lemma GrowsUnaltered(log: seq<Task>, ts: seq<Ticketed>, t: Ticketed)
    requires Unaltered(log, ts) && t.ticket < |log| && t.task == log[t.ticket]
    ensures Unaltered(log, ts + [t]) && Unaltered(log, [t])
  {
  }

  lemma LongerLog(log: seq<Task>, t: Task, ts: seq<Ticketed>)
    requires Unaltered(log, ts)
    ensures Unaltered(log + [t], ts) && Unaltered(log, [])
  {
  }

  lemma StepKeepsWaiting(s: State, a: Action)
    requires Waiting(s) && Enabled(s, a)
    ensures Waiting(Next(s, a))
  {
    hide Unaltered, RemoveAt, Finish, Known, Stays, Increment;
    match a
    case Number(_) =>
      var last := Next(s, a).log[|s.log|];
      LongerLog(s.log, last, s.submitting);
      LongerLog(s.log, last, s.queue);
      LongerLog(s.log, last, Executing(s));
      GrowsUnaltered(s.log + [last], s.submitting, Ticketed(|s.log|, last));
    case Enqueue(i) =>
      DropsUnaltered(s.log, s.submitting, i);
      GrowsUnaltered(s.log, s.queue, s.submitting[i]);
    case Pop =>
      DropFirst(s.queue);
      DropsUnaltered(s.log, s.queue, 0);
      GrowsUnaltered(s.log, s.queue[1..], s.queue[0]);
    case Execute(_) =>
      NothingUnaltered(s.log);
    case Connect =>
    case Poll(_) =>
    case TryGet =>
    case GetById(_) =>
  }

  lemma NothingUnaltered(log: seq<Task>)
    ensures Unaltered(log, [])
  {
  }

  lemma StepKeepsReports(s: State, a: Action)
    requires InOnePlace(s) && Waiting(s) && Reported(s.log, s.done + s.handed, s.met) && Enabled(s, a)
    requires a.Execute? ==> Known(s.executing.value.task.kind)
    ensures Reported(Next(s, a).log, Next(s, a).done + Next(s, a).handed, Next(s, a).met)
  {
    hide Count, InOnePlace, Finish;
    var records := s.done + s.handed;
    if a.Execute? {
      ExecutedReport(s, a.env);
    } else if a.TryGet? || a.GetById? {
      var k := if a.TryGet? then 0 else IndexOf(s.done, a.id, 0);
      assert s.done[k] in records;
      assert forall t :: t in RemoveAt(s.done, k) ==> t in records;
    }
  }

  lemma ExecutedReport(s: State, e: Env)
    requires InOnePlace(s) && Waiting(s) && Reported(s.log, s.done + s.handed, s.met) && Enabled(s, Execute(e))
    requires Known(s.executing.value.task.kind)
    ensures var d := Next(s, Execute(e)); Reported(d.log, d.done + d.handed, d.met)
  {
    hide Count, InOnePlace;
    var records, d := s.done + s.handed, Next(s, Execute(e));
    assert s.executing.value in Executing(s);
    forall t | t in d.done + d.handed ensures RecordOk(d.log, t, d.met) {
      if t in records {
        OnlyExecuting(s, t);
        assert RecordOk(s.log, t, s.met);
      } else {
        assert t == d.done[|s.done|];
      }
    }
  }

  lemma OnlyExecuting(s: State, t: Ticketed)
    requires InOnePlace(s) && s.executing.Some? && t in s.done + s.handed
    ensures t.ticket != s.executing.value.ticket
  {
    var k := s.executing.value.ticket;
    CountOfOne(s.executing.value, k);
    assert Places(s, k) <= 1;
    if t in s.done {
      TicketOfMember(s.done, t);
    } else {
      TicketOfMember(s.handed, t);
    }
  }

  /** What every step keeps; and the network thread never meets a task of unknown kind. */
  lemma StepIsGood(s: State, a: Action)
    requires Good(s) && Enabled(s, a)
    ensures Good(Next(s, a))
    ensures a.Execute? ==> Finish(s.executing.value.task, a.env).Some?
  {
    hide InOnePlace, Faithful, InOrder, Waiting, Reported, RemoveAt;
    StepKeepsOrder(s, a);
    StepKeepsWaiting(s, a);
    if a.Execute? {
      ExecutingIsKnown(s);
    }
    StepKeepsReports(s, a);
    StepKeepsPlaces(s, a);
    StepIsFaithful(s, a);
  }

  lemma ExecutingIsKnown(s: State)
    requires Good(s) && s.executing.Some?
    ensures Known(s.executing.value.task.kind)
  {
    assert s.executing.value in Executing(s);
  }

  lemma {:induction false} RunIsGood(s: State, actions: seq<Action>)
    requires Good(s) && Run(s, actions)
    ensures Good(After(s, actions))
    decreases |actions|
  {
    if actions != [] {
      StepIsGood(s, actions[0]);
      RunIsGood(Next(s, actions[0]), actions[1..]);
    }
  }

  lemma InitIsGood()
    ensures Good(INIT)
  {
  }

  /** The tasks submitted in the course of a run, in order. */
  function Submitted(actions: seq<Action>): seq<Task> {
    if actions == [] then []
    else (if actions[0].Number? then [actions[0].task] else []) + Submitted(actions[1..])
  }

  /** A submission under the number it gets. */
  function Logged(task: Task, k: nat): Task { task.(id := IdOf(k)) }

  /** The log is the list of submissions, each under the next number. */
  lemma {:induction false} LogIsSubmitted(s: State, actions: seq<Action>)
    requires Run(s, actions) && s.nextId == IdOf(|s.log|)
    ensures var log := After(s, actions).log;
      && s.log <= log && |log| == |s.log| + |Submitted(actions)|
      && forall k :: |s.log| <= k < |log| ==> log[k] == Logged(Submitted(actions)[k - |s.log|], k)
    decreases |actions|
  {
    if actions != [] {
      var a, next := actions[0], Next(s, actions[0]);
      StepLogs(s, a);
      hide Next, IdOf, Logged, Enabled;
      LogIsSubmitted(next, actions[1..]);
      var log, more := After(next, actions[1..]).log, Submitted(actions[1..]);
      assert Submitted(actions) == (if a.Number? then [a.task] else []) + more;
      assert s.log <= next.log;
      forall k | |s.log| <= k < |log| ensures log[k] == Logged(Submitted(actions)[k - |s.log|], k) {
        if k < |next.log| {
          assert log[k] == next.log[k];
        }
      }
    }
  }

  lemma StepLogs(s: State, a: Action)
    requires Enabled(s, a) && s.nextId == IdOf(|s.log|)
    ensures var d := Next(s, a);
      && d.nextId == IdOf(|d.log|)
      && d.log == s.log + if a.Number? then [Logged(a.task, |s.log|)] else []
  {
  }

  /** Task conservation: in every run, reconnections included, every submission is in exactly one
      place and unaltered but for its number and result, none has two done records, and tasks are taken up in
      the order in which they were queued. */
  lemma TasksAreConserved(actions: seq<Action>, k: nat)
    requires Run(INIT, actions)
    ensures var s := After(INIT, actions);
      && InOnePlace(s) && Faithful(s) && InOrder(s)
      && Count(s.done, k) + Count(s.handed, k) <= 1
      && |s.log| == |Submitted(actions)|
      && (k < |s.log| ==> s.log[k] == Submitted(actions)[k].(id := IdOf(k)))
  {
    hide Run, After, Count, Submitted, IdOf, InOnePlace, Faithful, InOrder, Waiting, Reported;
    InitIsGood();
    RunIsGood(INIT, actions);
    LogIsSubmitted(INIT, actions);
    AtMostOneRecord(After(INIT, actions), k);
  }

  lemma AtMostOneRecord(s: State, k: nat)
    requires InOnePlace(s)
    ensures Count(s.done, k) + Count(s.handed, k) <= 1
  {
    hide Count;
    assert Places(s, k) <= 1;
  }

  lemma {:induction false} TicketOfMember(ts: seq<Ticketed>, t: Ticketed)
    requires t in ts
    ensures Count(ts, t.ticket) >= 1
  {
    if t != ts[0] {
      TicketOfMember(ts[1..], t);
    }
  }

  /** In every run, exactly the refused lists among the tasks carried out are reported as successes
      without the server's word. */
  lemma ReportsAreTrueIff(actions: seq<Action>, t: Ticketed)
    requires Run(INIT, actions) && t in After(INIT, actions).done + After(INIT, actions).handed
    ensures var s := After(INIT, actions);
      && t.ticket in s.met
      && ((t.task.success ==> Confirmed(t.task.kind, s.met[t.ticket])) <==> !RefusedList(t.task.kind, s.met[t.ticket]))
  {
    InitIsGood();
    RunIsGood(INIT, actions);
    ReportIsTrueIff(After(INIT, actions).log[t.ticket], After(INIT, actions).met[t.ticket]);
  }

  /** In every run, every done record says exactly what the task's own encounter with the server calls for, and
      hands over the files of a confirmed listing. */
  lemma ReportsAreExact(actions: seq<Action>, t: Ticketed)
    requires Run(INIT, actions) && t in After(INIT, actions).done + After(INIT, actions).handed
    ensures var s := After(INIT, actions);
      && t.ticket in s.met && t.ticket < |s.log|
      && var (kind, met) := (t.task.kind, s.met[t.ticket]);
      && (t.task.success <==> LocalFileOk(kind, met) && (Confirmed(kind, met) || RefusedList(kind, met)))
      && t.task.files == (if kind == TASK_LIST_FILES && Confirmed(kind, met) then met.files else s.log[t.ticket].files)
  {
    hide Run, After;
    InitIsGood();
    RunIsGood(INIT, actions);
    var s := After(INIT, actions);
    assert RecordOk(s.log, t, s.met);
    ReportIsExact(s.log[t.ticket], s.met[t.ticket]);
  }

  /** What a caller gets back under a number is a submission with that number, which no call got before;
      that is, the caller's own or one a multiple of 2^32 submissions away from it, and so its own
      as long as no more than 2^32 were made. */
  lemma CallerGetsItsTask(actions: seq<Action>, id: int, k: nat)
    requires Run(INIT, actions) && Enabled(After(INIT, actions), GetById(id))
    requires k < |After(INIT, actions).log| && After(INIT, actions).log[k].id == id
    ensures var s := After(INIT, actions);
      var got := Next(s, GetById(id)).handed[|s.handed|];
      && got.ticket < |s.log| && Same(got.task, s.log[got.ticket])
      && (got.ticket - k) % 0x1_0000_0000 == 0 && (|s.log| <= INT_VALUES ==> got.ticket == k)
      && forall t :: t in s.handed ==> t.ticket != got.ticket
  {
    hide Run, After, Count, InOnePlace, InOrder, IdOf;
    InitIsGood();
    RunIsGood(INIT, actions);
    var s := After(INIT, actions);
    var got := s.done[IndexOf(s.done, id, 0)];
    assert got in s.done;
    SameIdIff(got.ticket, k);
    assert IdOf(got.ticket) == IdOf(k);
    TicketOfMember(s.done, got);
    TasksAreConserved(actions, got.ticket);
    assert Count(s.handed, got.ticket) == 0;
    forall t | t in s.handed ensures t.ticket != got.ticket {
      TicketOfMember(s.handed, t);
    }
  }

  /** The network thread works only while it is connected; it keeps its connection as long as its exchanges and its
      polls go through, and gets a new one only by connecting. */
  lemma ConnectionIs(s: State, a: Action)
    requires Enabled(s, a)
    ensures a.Pop? || a.Execute? || a.Poll? ==> s.connected
    ensures Next(s, a).connected <==>
      a.Connect?
      || (s.connected && (a.Poll? ==> a.answered) && (a.Execute? ==> Stays(s.executing.value.task.kind, a.env)))
  {
  }

  // ------------------------------------------------------------------ every task can be done

  function AddOne(b: bool): nat { if b then 1 else 0 }

  /** How many steps are left until every task is done, if the connection is lost after each. */
  function ToDo(s: State): nat {
    4 * |s.submitting| + 3 * |s.queue| + 2 * |Executing(s)| + AddOne(!s.connected)
  }

  /** The next of those steps. */
  function GoOn(s: State, met: nat -> Env): Action {
    if s.executing.Some? then Execute(met(s.executing.value.ticket))
    else if s.submitting != [] then Enqueue(0)
    else if s.connected then Pop
    else Connect
  }

  predicate AllTakenUp(s: State) { s.submitting == [] && s.queue == [] && s.executing == None }

  lemma GoingOn(s: State, met: nat -> Env)
    requires !AllTakenUp(s) && (s.executing.Some? ==> s.connected)
    ensures var a := GoOn(s, met);
      && Enabled(s, a) && ToDo(Next(s, a)) < ToDo(s) && Next(s, a).log == s.log && Next(s, a).handed == s.handed
      && (Next(s, a).executing.Some? ==> Next(s, a).connected)
  {
  }

  lemma {:induction false} CanTakeUpAll(s: State, met: nat -> Env) returns (more: seq<Action>)
    requires s.executing.Some? ==> s.connected
    ensures Run(s, more) && AllTakenUp(After(s, more))
    ensures After(s, more).log == s.log && After(s, more).handed == s.handed
    decreases ToDo(s)
  {
    if AllTakenUp(s) {
      more := [];
    } else {
      hide AllTakenUp, ToDo, Enabled, Next, GoOn;
      GoingOn(s, met);
      var rest := CanTakeUpAll(Next(s, GoOn(s, met)), met);
      more := [GoOn(s, met)] + rest;
      assert more[1..] == rest;
    }
  }

  lemma {:induction false} ExecutesConnected(s: State, actions: seq<Action>)
    requires Run(s, actions) && (s.executing.Some? ==> s.connected)
    ensures After(s, actions).executing.Some? ==> After(s, actions).connected
    decreases |actions|
  {
    if actions != [] {
      ExecutesConnected(Next(s, actions[0]), actions[1..]);
    }
  }

  /** No run gets stuck: wherever one stands, and whatever the tasks are yet to meet, broken connections included, it
      can go on until each submission has a done record, unless it has been handed back already. */
  lemma EveryTaskCanBeDone(actions: seq<Action>, met: nat -> Env) returns (more: seq<Action>)
    requires Run(INIT, actions)
    ensures var s := After(INIT, actions);
      && Run(s, more) && After(s, more).log == s.log && After(s, more).handed == s.handed
      && forall k: nat :: k < |s.log| ==> Count(After(s, more).done, k) == 1 - Count(s.handed, k)
  {
    InitIsGood();
    RunIsGood(INIT, actions);
    ExecutesConnected(INIT, actions);
    var s := After(INIT, actions);
    hide Run, After, Count;
    more := CanTakeUpAll(s, met);
    RunIsGood(s, more);
    var d := After(s, more);
    forall k: nat | k < |s.log| ensures Count(d.done, k) == 1 - Count(d.handed, k) {
      CountOfNone(k);
      assert Places(d, k) == 1;
    }
  }

  // ------------------------------------------------------------------ the order of the done records

  /** Is `a` what is left of `b` when some of its elements are dropped? */
  predicate IsPart<T(==)>(a: seq<T>, b: seq<T>)
    decreases |b|
  {
    a == [] ||
    (b != [] &&
     if a[|a| - 1] == b[|b| - 1] then IsPart(a[..|a| - 1], b[..|b| - 1]) else IsPart(a, b[..|b| - 1]))
  }

  lemma {:induction false} PartOfLonger<T>(a: seq<T>, b: seq<T>, x: T)
    requires IsPart(a, b)
    ensures IsPart(a, b + [x]) && IsPart(a + [x], b + [x])
    ensures a != [] ==> IsPart(a[..|a| - 1], b)
    decreases |b|
  {
    assert (b + [x])[..|b|] == b && (a + [x])[..|a|] == a;
    if a != [] {
      var shorter, last := b[..|b| - 1], b[|b| - 1];
      assert shorter + [last] == b;
      if a[|a| - 1] == last {
        PartOfLonger(a[..|a| - 1], shorter, last);
      } else {
        PartOfLonger(a, shorter, last);
        PartOfLonger(a[..|a| - 1], shorter, last);
      }
    }
  }

  lemma {:induction false} PartWithout<T>(a: seq<T>, i: nat, b: seq<T>)
    requires IsPart(a, b) && i < |a|
    ensures IsPart(RemoveAt(a, i), b)
    decreases |b|
  {
    var shorter, last := b[..|b| - 1], b[|b| - 1];
    assert shorter + [last] == b;
    if i == |a| - 1 {
      assert RemoveAt(a, i) == a[..|a| - 1];
      PartOfLonger(a, b, last);
    } else if a[|a| - 1] == last {
      assert RemoveAt(a, i) == RemoveAt(a[..|a| - 1], i) + [last];
      PartWithout(a[..|a| - 1], i, shorter);
      PartOfLonger(RemoveAt(a[..|a| - 1], i), shorter, last);
    } else {
      PartWithout(a, i, shorter);
      PartOfLonger(RemoveAt(a, i), shorter, last);
    }
  }

  lemma {:induction false} PartPositions<T>(a: seq<T>, b: seq<T>, i: nat, j: nat) returns (p: nat, q: nat)
    requires IsPart(a, b) && i < j < |a|
    ensures p < q < |b| && b[p] == a[i] && b[q] == a[j]
    decreases |b|
  {
    var shorter := b[..|b| - 1];
    if a[|a| - 1] != b[|b| - 1] {
      p, q := PartPositions(a, shorter, i, j);
    } else if j < |a| - 1 {
      p, q := PartPositions(a[..|a| - 1], shorter, i, j);
    } else {
      p := PartPosition(a[..|a| - 1], shorter, i);
      q := |b| - 1;
    }
  }

  lemma {:induction false} PartPosition<T>(a: seq<T>, b: seq<T>, i: nat) returns (p: nat)
    requires IsPart(a, b) && i < |a|
    ensures p < |b| && b[p] == a[i]
    decreases |b|
  {
    if a[|a| - 1] != b[|b| - 1] {
      p := PartPosition(a, b[..|b| - 1], i);
    } else if i == |a| - 1 {
      p := |b| - 1;
    } else {
      p := PartPosition(a[..|a| - 1], b[..|b| - 1], i);
    }
  }

  function Tickets(ts: seq<Ticketed>): (ks: seq<nat>)
    ensures |ks| == |ts| && forall i :: 0 <= i < |ts| ==> ks[i] == ts[i].ticket
  {
    seq(|ts|, i requires 0 <= i < |ts| => ts[i].ticket)
  }

  /** The tasks taken up before the one being carried out. */
  function Finished(s: State): seq<Ticketed> {
    if s.executing.Some? && s.started != [] then s.started[..|s.started| - 1] else s.started
  }

  /** The done records are in the order in which their tasks were taken up. */
  ghost predicate DoneInOrder(s: State) { InOrder(s) && IsPart(Tickets(s.done), Tickets(Finished(s))) }

  lemma StepKeepsDoneOrder(s: State, a: Action)
    requires DoneInOrder(s) && Enabled(s, a)
    ensures DoneInOrder(Next(s, a))
  {
    hide IsPart, RemoveAt, IndexOf, Finish, Known, Stays;
    StepKeepsOrder(s, a);
    var d := Next(s, a);
    match a
    case Pop => assert d.started[..|d.started| - 1] == s.started;
    case Execute(e) =>
      var t := s.executing.value;
      assert Tickets(s.started) == Tickets(Finished(s)) + [t.ticket];
      PartOfLonger(Tickets(s.done), Tickets(Finished(s)), t.ticket);
      assert d.done == s.done || Tickets(d.done) == Tickets(s.done) + [t.ticket];
    case TryGet => DropsTicket(s, 0);
    case GetById(id) => DropsTicket(s, IndexOf(s.done, id, 0));
    case Number(_) =>
    case Enqueue(_) =>
    case Connect =>
    case Poll(_) =>
  }

  lemma DropsTicket(s: State, i: nat)
    requires IsPart(Tickets(s.done), Tickets(Finished(s))) && i < |s.done|
    ensures IsPart(Tickets(RemoveAt(s.done, i)), Tickets(Finished(s)))
  {
    hide IsPart;
    PartWithout(Tickets(s.done), i, Tickets(Finished(s)));
    assert Tickets(RemoveAt(s.done, i)) == RemoveAt(Tickets(s.done), i);
  }

  lemma {:induction false} RunKeepsDoneOrder(s: State, actions: seq<Action>)
    requires DoneInOrder(s) && Run(s, actions)
    ensures DoneInOrder(After(s, actions))
    decreases |actions|
  {
    hide DoneInOrder;
    if actions != [] {
      StepKeepsDoneOrder(s, actions[0]);
      RunKeepsDoneOrder(Next(s, actions[0]), actions[1..]);
    }
  }

  /** In every run, what a call without a number gets is the record of the task that was taken up first: every other
      done record's task was taken up after it. */
  lemma TryGetIsOldest(actions: seq<Action>, j: nat) returns (p: nat, q: nat)
    requires Run(INIT, actions) && Enabled(After(INIT, actions), TryGet) && 0 < j < |After(INIT, actions).done|
    ensures var s := After(INIT, actions);
      && p < q < |s.started| && s.started[q].ticket == s.done[j].ticket
      && s.started[p].ticket == Next(s, TryGet).handed[|s.handed|].ticket
      && s.done[j] == Next(s, TryGet).done[j - 1]
  {
    hide Run, After, IsPart;
    assert DoneInOrder(INIT) by { NothingInOrder(); }
    RunKeepsDoneOrder(INIT, actions);
    var s := After(INIT, actions);
    p, q := PartPositions(Tickets(s.done), Tickets(Finished(s)), 0, j);
  }

  lemma NothingInOrder()
    ensures DoneInOrder(INIT)
  {
  }

  // ------------------------------------------------------------------ the code of one thread at a time

  /** What the poll for updates brings: a broken connection, no event, or an event. The file that was modified
      is downloaded; if that goes through, what the buffer then holds is the file, or, when the server sent
      none, whatever it held before. */
  datatype Poll = Lost | Nothing | Modified(filename: Content, download: Option<Content>) | Deleted(filename: Content)

  /** What is passed on to the application. */
  datatype Change = Arrived(filename: Content, content: Content) | Vanished(filename: Content)

  class Network {
    var lastTaskId: int
    const taskQueue: AsyncQueue<Task>
    const doneQueue: AsyncQueue<Task>

    ghost predicate Valid()
      reads this, taskQueue, doneQueue
    {
      taskQueue != doneQueue && taskQueue.Valid() && doneQueue.Valid()
    }

    constructor ()
      ensures Valid() && fresh(taskQueue) && fresh(doneQueue)
      ensures lastTaskId == IdOf(0) && taskQueue.queue == [] && doneQueue.queue == []
    {
      lastTaskId := 0;
      taskQueue := new AsyncQueue();
      doneQueue := new AsyncQueue();
    }

    /** The five submitters, which differ in the kind and in the names they pass on. */
    method Submit(kind: int, username: Content, filename: Content, path: Content) returns (id: int)
      requires Valid()
      modifies this, taskQueue
      ensures Valid() && id == old(lastTaskId) && lastTaskId == Increment(old(lastTaskId))
      ensures taskQueue.queue == old(taskQueue.queue) + [(id, Task(kind, id, username, filename, path, [], false))]
    {
      id := lastTaskId;
      lastTaskId := if lastTaskId == 0x7FFF_FFFF then -0x8000_0000 else lastTaskId + 1;
      taskQueue.Push(id, Task(kind, id, username, filename, path, [], false));
    }

    /** One task, carried out. Whatever happens, a task of a known kind gets exactly one record. */
    method CarryOut(task: Task, env: Env) returns (running: bool)
      requires Valid()
      modifies doneQueue
      ensures Valid() && running == Stays(task.kind, env)
      ensures doneQueue.queue == old(doneQueue.queue)
        + (if Finish(task, env).Some? then [(task.id, Finish(task, env).value)] else [])
    {
      running := true;
      if task.kind == TASK_LIST_FILES {
        if env.exchanged {
          var files := if env.status == Packets.STATUS_SUCCESS then env.files else task.files;
          doneQueue.Push(task.id, task.(success := true, files := files));
        } else {
          running := false;
          doneQueue.Push(task.id, task.(success := false));
        }
      } else if task.kind == TASK_UPLOAD {
        if env.readable && env.exchanged {
          doneQueue.Push(task.id, task.(success := env.status == Packets.STATUS_SUCCESS));
        } else {
          running := false;
          doneQueue.Push(task.id, task.(success := false));
        }
      } else if task.kind == TASK_DOWNLOAD {
        if env.exchanged {
          doneQueue.Push(task.id, task.(success := env.status == Packets.STATUS_SUCCESS && env.writable));
        } else {
          running := false;
          doneQueue.Push(task.id, task.(success := false));
        }
      } else if task.kind == TASK_DELETE {
        if env.exchanged {
          doneQueue.Push(task.id, task.(success := env.status == Packets.STATUS_SUCCESS));
        } else {
          running := false;
          doneQueue.Push(task.id, task.(success := false));
        }
      } else if task.kind == TASK_EXIT {
        running := env.exchanged;
        doneQueue.Push(task.id, task.(success := env.exchanged));
      } else {
        running := false;
      }
    }

    /** One turn of the network thread's inner loop: at most one task, then the poll for updates. A polled
        change is passed on whatever the status of its download; a download that breaks off is not, and
        does not end the connection. */
    method Turn(env: Env, poll: Poll) returns (running: bool, passedOn: Option<Change>)
      requires Valid()
      modifies taskQueue, doneQueue
      ensures Valid()
      ensures old(taskQueue.queue) == [] ==>
        taskQueue.queue == [] && doneQueue.queue == old(doneQueue.queue) && running == !poll.Lost?
      ensures old(taskQueue.queue) != [] ==>
        var task := old(taskQueue.queue)[0].1;
        && taskQueue.queue == old(taskQueue.queue)[1..]
        && running == (Stays(task.kind, env) && !poll.Lost?)
        && doneQueue.queue == old(doneQueue.queue)
           + (if Finish(task, env).Some? then [(task.id, Finish(task, env).value)] else [])
      ensures forall name, data :: passedOn == Some(Arrived(name, data)) <==> poll == Modified(name, Some(data))
      ensures forall filename :: passedOn == Some(Vanished(filename)) <==> poll == Deleted(filename)
    {
      running := true;
      passedOn := None;
      var task := taskQueue.TryPop();
      if task.Some? {
        running := CarryOut(task.value, env);
      }
      match poll {
        case Lost => running := false;
        case Nothing =>
        case Modified(filename, download) =>
          if download.Some? {
            passedOn := Some(Arrived(filename, download.value));
          }
        case Deleted(filename) => passedOn := Some(Vanished(filename));
      }
    }

    /** The first record under the number is taken out; until there is one, the caller waits. */
    method GetTaskById(id: int) returns (answer: Answer<Task>)
      requires Valid()
      modifies doneQueue
      ensures Valid()
      ensures var was, k := old(doneQueue.queue), FirstWith(old(doneQueue.queue), id, 0);
        if k < |was| then answer == Found(was[k].1) && doneQueue.queue == RemoveAt(was, k)
        else answer == Waits && doneQueue.queue == was
    {
      answer := doneQueue.PopById(id);
    }
  }
}
