/** One user's files on the server and on all of the user's clients: edits are noticed, uploaded, broadcast,
    polled and downloaded, in any interleaving. When does a client that is at rest hold what the server has? */
module Replicas {
  import opened Basics
  import opened Wire
  import opened SyncState

  /** The client's network thread: between two requests, told that a file was modified, holding its contents,
      or inside the application's mutex with them. */
  datatype Net = Idle | Noticed(f: FileName) | Fetched(f: FileName, content: Content) | Storing

  /** A client, and its registration at the server. */
  datatype Client = Client(
    app: State,
    queue: seq<FileName>,             // uploads to be sent
    events: seq<FileName>,            // broadcasts it has yet to poll
    net: Net,
    base: map<FileName, Content>,     // the files it started with
    heard: set<FileName>,             // files of which a download was handed to the application
    lost: set<FileName>)              // files of which an upload or a download failed

  /** `due`: the file whose new contents were stored for a client, but not told of yet. The thread that serves
      the client takes no other request before. */
  datatype System = System(disk: map<FileName, Content>, due: map<nat, FileName>, clients: map<nat, Client>)

  datatype Step =
    | Join(k: nat)
    | Local(k: nat, a: Action)        // the user writes, or a notification is handled
    | Upload(k: nat)                  // the file is read, sent and stored
    | LoseUpload(k: nat)
    | Tell(k: nat)                    // what was stored for this client is broadcast to all
    | Poll(k: nat)
    | Download(k: nat)
    | LoseDownload(k: nat)
    | HandOver(k: nat)                // the contents are handed to the application
    | Store(k: nat, ok: bool, events: nat)

  predicate Free(s: System, k: nat) { k in s.clients && k !in s.due }

  predicate CanStep(s: System, a: Step) {
    match a
    case Join(k) => k !in s.clients && k !in s.due
    case Local(k, a) => k in s.clients && !a.Receive? && !a.Write? && Enabled(s.clients[k].app, a)
    case Upload(k) => Free(s, k) && s.clients[k].net == Idle && s.clients[k].queue != []
                      && s.clients[k].queue[0] in s.clients[k].app.disk
    case LoseUpload(k) => k in s.clients && s.clients[k].net == Idle && s.clients[k].queue != []
    case Tell(k) => k in s.due
    case Poll(k) => Free(s, k) && s.clients[k].net == Idle && s.clients[k].events != []
    case Download(k) => Free(s, k) && s.clients[k].net.Noticed? && s.clients[k].net.f in s.disk
    case LoseDownload(k) => k in s.clients && s.clients[k].net.Noticed?
    case HandOver(k) => k in s.clients && s.clients[k].net.Fetched? && s.clients[k].app.inside.Nobody?
    case Store(k, _, events) => k in s.clients && s.clients[k].net == Storing && s.clients[k].app.inside.Receiving?
                                && events > 0
  }

  function WithClient(s: System, k: nat, c: Client): System { s.(clients := s.clients[k := c]) }

  function Heard(c: Client, f: FileName): Client { c.(events := c.events + [f]) }

  function AfterStep(hash: Hash, pads: Watcher, s: System, a: Step): System
    requires CanStep(s, a)
  {
    match a
    case Join(k) => WithClient(s, k, Client(Start(s.disk), [], [], Idle, s.disk, {}, {}))
    case Local(k, a) =>
      var c := s.clients[k];
      WithClient(s, k, c.(app := Next(hash, pads, c.app, a),
                        queue := if a.Commit? then c.queue + [c.app.inside.f] else c.queue))
    case Upload(k) =>
      var c := s.clients[k];
      var f := c.queue[0];
      System(s.disk[f := c.app.disk[f]], s.due[k := f], s.clients[k := c.(queue := c.queue[1..])])
    case LoseUpload(k) =>
      var c := s.clients[k];
      WithClient(s, k, c.(queue := c.queue[1..], lost := c.lost + {c.queue[0]}))
    case Tell(k) =>
      System(s.disk, s.due - {k}, map j | j in s.clients :: Heard(s.clients[j], s.due[k]))
    case Poll(k) =>
      var c := s.clients[k];
      WithClient(s, k, c.(net := Noticed(c.events[0]), events := c.events[1..]))
    case Download(k) =>
      var c := s.clients[k];
      WithClient(s, k, c.(net := Fetched(c.net.f, s.disk[c.net.f])))
    case LoseDownload(k) =>
      var c := s.clients[k];
      WithClient(s, k, c.(net := Idle, lost := c.lost + {c.net.f}))
    case HandOver(k) =>
      var c := s.clients[k];
      var app := Next(hash, pads, c.app, Receive(c.net.f, c.net.content));
      var net := if app.inside.Receiving? then Storing else Idle;
      WithClient(s, k, c.(app := app, heard := c.heard + {c.net.f}, net := net))
    case Store(k, ok, events) =>
      var c := s.clients[k];
      WithClient(s, k, c.(app := Next(hash, pads, c.app, Write(ok, events)), net := Idle))
  }

  predicate Steps(hash: Hash, pads: Watcher, s: System, steps: seq<Step>)
    decreases |steps|
  {
    steps == [] || (CanStep(s, steps[0]) && Steps(hash, pads, AfterStep(hash, pads, s, steps[0]), steps[1..]))
  }

  function Reached(hash: Hash, pads: Watcher, s: System, steps: seq<Step>): System
    requires Steps(hash, pads, s, steps)
    decreases |steps|
  {
    if steps == [] then s else Reached(hash, pads, AfterStep(hash, pads, s, steps[0]), steps[1..])
  }

  /** The files the server has when the first client comes. */
  function Begin(disk: map<FileName, Content>): System { System(disk, map[], map[]) }

  // ------------------------------------------------------------------ what every step keeps

  /** The client is yet to download the file after what was last stored. */
  predicate Coming(s: System, c: Client, f: FileName) {
    f in s.due.Values || f in c.events || c.net == Noticed(f)
  }

  predicate Landing(c: Client, f: FileName) { c.app.inside.Receiving? && c.app.inside.f == f }

  predicate Holding(c: Client, f: FileName) { c.net.Fetched? && c.net.f == f }

  /** The cache under the network's name, once nothing is under way. */
  predicate NetworkEntryOk(hash: Hash, s: System, c: Client, f: FileName) {
    f !in c.lost && !Coming(s, c, f) ==>
      if Holding(c, f) then f in s.disk && c.net.content == s.disk[f]
      else if f !in c.heard then Lookup(s.disk, f) == Lookup(c.base, f)
      else f !in c.queue ==> f in s.disk && Lookup(c.app.dirHash, f) == Some(hash(s.disk[f]))
  }

  /** A file of which nothing was handed over is as it was at first, or changed by the user and uploaded. */
  predicate UnheardOk(pads: Watcher, s: System, c: Client, f: FileName) {
    && (f !in c.heard ==>
      && f !in c.app.failed && !Landing(c, f)
      && (pads(f) > 0 ==> Lookup(c.app.dirHash, f) == None)
      && (Lookup(c.app.dirHash, Key(pads, f)).Some? ==>
        f in c.queue || Coming(s, c, f) || Holding(c, f) || f in c.lost))
    && (f in c.app.unseen ==> Lookup(c.app.disk, f).Some? && Lookup(c.app.disk, f) == Lookup(c.base, f))
    && (f in c.base ==> f in c.app.disk)
  }

  /** A download handed over was written, or is about to be, or could not be. */
  predicate HeardOk(c: Client, f: FileName) {
    f in c.heard ==>
      && f in c.app.dirHash
      && (f !in c.app.disk || f in c.app.unseen ==> Landing(c, f) || f in c.app.failed)
  }

  predicate ClientOk(hash: Hash, pads: Watcher, s: System, c: Client, f: FileName) {
    && GoodAt(hash, pads, c.app, f) && (c.net == Storing <==> c.app.inside.Receiving?)
    && NetworkEntryOk(hash, s, c, f) && UnheardOk(pads, s, c, f) && HeardOk(c, f)
  }

  // ------------------------------------------------------------------ one step

  lemma ValuesAdd<K, V>(m: map<K, V>, k: K, v: V, f: V)
    requires k !in m
    ensures f in m[k := v].Values <==> f in m.Values || f == v
  {
    var n := m[k := v];
    assert n[k] == v && k in n.Keys;
    if f in m.Values {
      var j :| j in m && m[j] == f;
      assert n[j] == f;
    }
    if f in n.Values {
      var j :| j in n && n[j] == f;
      assert j != k ==> m[j] == f;
    }
  }

  lemma ValuesDrop<K, V>(m: map<K, V>, k: K, f: V)
    requires k in m
    ensures f in m.Values <==> f in (m - {k}).Values || f == m[k]
  {
    assert m == (m - {k})[k := m[k]];
    ValuesAdd(m - {k}, k, m[k], f);
  }

  /** Nothing that concerns the file has changed for the client. */
  predicate SameFor(pads: Watcher, s: System, c: Client, s': System, c': Client, f: FileName) {
    && Lookup(s'.disk, f) == Lookup(s.disk, f) && (Coming(s', c', f) <==> Coming(s, c, f))
    && SameAt(pads, c.app, c'.app, f) && (f in c'.queue <==> f in c.queue)
    && (Holding(c', f) <==> Holding(c, f)) && (Holding(c, f) ==> c'.net == c.net)
    && Lookup(c'.base, f) == Lookup(c.base, f)
    && (f in c'.heard <==> f in c.heard) && (f in c'.lost <==> f in c.lost)
    && (c'.net == Storing <==> c'.app.inside.Receiving?)
  }

  lemma SameForIsOk(hash: Hash, pads: Watcher, s: System, c: Client, s': System, c': Client, f: FileName)
    requires ClientOk(hash, pads, s, c, f) && SameFor(pads, s, c, s', c', f)
    ensures ClientOk(hash, pads, s', c', f)
  {
    hide Key, Opened, NulFree, GoodAt, Coming;
    SameIsAsGood(hash, pads, c.app, c'.app, f);
  }

  /** What was stored and is not told of yet is coming to everybody. */
  lemma StoredIsOk(hash: Hash, pads: Watcher, s: System, c: Client, s': System, c': Client, f: FileName)
    requires ClientOk(hash, pads, s, c, f) && Coming(s', c', f)
    requires c'.app == c.app && c'.net == c.net && c'.base == c.base && c'.heard == c.heard
    ensures ClientOk(hash, pads, s', c', f)
  {
    hide Key, Opened, NulFree, GoodAt, Coming;
  }

  lemma SamePlace(s: System, c: Client, s': System, c': Client, f: FileName)
    requires s'.due == s.due && c'.events == c.events && (c'.net == Noticed(f) <==> c.net == Noticed(f))
    ensures Coming(s', c', f) <==> Coming(s, c, f)
  {
  }

  lemma LocalIsOk(hash: Hash, pads: Watcher, s: System, k: nat, a: Action, f: FileName)
    requires CanStep(s, Local(k, a)) && ClientOk(hash, pads, s, s.clients[k], f)
    ensures var s' := AfterStep(hash, pads, s, Local(k, a)); ClientOk(hash, pads, s', s'.clients[k], f)
  {
    hide AfterStep, SameFor, ClientOk;
    if Subject(s.clients[k].app, a) != f {
      LocalElsewhere(hash, pads, s, k, a, f);
      var s' := AfterStep(hash, pads, s, Local(k, a));
      SameForIsOk(hash, pads, s, s.clients[k], s', s'.clients[k], f);
    } else {
      LocalHere(hash, pads, s, k, a, f);
    }
  }

  lemma EditHere(hash: Hash, pads: Watcher, s: System, k: nat, a: Action, f: FileName)
    requires CanStep(s, Local(k, a)) && ClientOk(hash, pads, s, s.clients[k], f) && a.Edit? && a.f == f
    requires GoodAt(hash, pads, Next(hash, pads, s.clients[k].app, a), f)
    ensures var s' := AfterStep(hash, pads, s, Local(k, a)); ClientOk(hash, pads, s', s'.clients[k], f)
  {
    hide Key, Opened, NulFree, Coming, Count, GoodAt, HashFile, Get;
    var s' := AfterStep(hash, pads, s, Local(k, a));
    SamePlace(s, s.clients[k], s', s'.clients[k], f);
  }

  lemma CheckKeeps(hash: Hash, pads: Watcher, app: State, f: FileName)
    requires Enabled(app, Check(f))
    ensures var app' := Next(hash, pads, app, Check(f));
      && app'.disk == app.disk && app'.dirHash == app.dirHash && app'.unseen == app.unseen && app'.failed == app.failed
      && !app'.inside.Receiving? && app.inside.Nobody?
  {
    hide Key, Opened, NulFree, Differs, HashFile, Written, Count;
  }

  lemma CheckHere(hash: Hash, pads: Watcher, s: System, k: nat, f: FileName)
    requires CanStep(s, Local(k, Check(f))) && ClientOk(hash, pads, s, s.clients[k], f)
    requires GoodAt(hash, pads, Next(hash, pads, s.clients[k].app, Check(f)), f)
    ensures var s' := AfterStep(hash, pads, s, Local(k, Check(f))); ClientOk(hash, pads, s', s'.clients[k], f)
  {
    hide Key, Opened, NulFree, Coming, GoodAt, HashFile, Get, Differs, Lookup, Next, Enabled;
    var s' := AfterStep(hash, pads, s, Local(k, Check(f)));
    SamePlace(s, s.clients[k], s', s'.clients[k], f);
    CheckKeeps(hash, pads, s.clients[k].app, f);
  }

  lemma CommitHere(hash: Hash, pads: Watcher, s: System, k: nat, f: FileName)
    requires CanStep(s, Local(k, Commit)) && ClientOk(hash, pads, s, s.clients[k], f)
    requires s.clients[k].app.inside.f == f && GoodAt(hash, pads, Next(hash, pads, s.clients[k].app, Commit), f)
    ensures var s' := AfterStep(hash, pads, s, Local(k, Commit)); ClientOk(hash, pads, s', s'.clients[k], f)
  {
    hide Key, Opened, NulFree, Coming, Count, GoodAt, HashFile, Get;
    var s' := AfterStep(hash, pads, s, Local(k, Commit));
    SamePlace(s, s.clients[k], s', s'.clients[k], f);
  }

  lemma LocalHere(hash: Hash, pads: Watcher, s: System, k: nat, a: Action, f: FileName)
    requires CanStep(s, Local(k, a)) && ClientOk(hash, pads, s, s.clients[k], f)
    requires Subject(s.clients[k].app, a) == f
    ensures var s' := AfterStep(hash, pads, s, Local(k, a)); ClientOk(hash, pads, s', s'.clients[k], f)
  {
    hide Key, GoodAt, AfterStep, Next, NetworkEntryOk, UnheardOk, HeardOk;
    StepIsGoodAt(hash, pads, s.clients[k].app, a, f);
    match a
    case Edit(_, _, _) => EditHere(hash, pads, s, k, a, f);
    case Check(_) => CheckHere(hash, pads, s, k, f);
    case Commit => CommitHere(hash, pads, s, k, f);
  }

  lemma LocalElsewhere(hash: Hash, pads: Watcher, s: System, k: nat, a: Action, f: FileName)
    requires CanStep(s, Local(k, a)) && ClientOk(hash, pads, s, s.clients[k], f)
    requires Subject(s.clients[k].app, a) != f
    ensures k in AfterStep(hash, pads, s, Local(k, a)).clients
    ensures var s' := AfterStep(hash, pads, s, Local(k, a)); SameFor(pads, s, s.clients[k], s', s'.clients[k], f)
  {
    hide Key, Opened, NulFree, Coming, Count, SameAt;
    var c := s.clients[k];
    var s' := AfterStep(hash, pads, s, Local(k, a));
    var c' := s'.clients[k];
    SamePlace(s, c, s', c', f);
    ElsewhereIsSame(hash, pads, c.app, a, f);
  }

  /** The steps of the network thread of client `k` and of the thread that serves it, for that client. */
  lemma UploadIsOk(hash: Hash, pads: Watcher, s: System, k: nat, f: FileName)
    requires CanStep(s, Upload(k)) && ClientOk(hash, pads, s, s.clients[k], f)
    ensures var s' := AfterStep(hash, pads, s, Upload(k)); ClientOk(hash, pads, s', s'.clients[k], f)
  {
    hide Key, Opened, NulFree, ClientOk;
    var c, g := s.clients[k], s.clients[k].queue[0];
    var s' := AfterStep(hash, pads, s, Upload(k));
    var c' := s'.clients[k];
    ValuesAdd(s.due, k, g, f);
    assert c.queue == [g] + c.queue[1..];
    if g == f {
      StoredIsOk(hash, pads, s, c, s', c', f);
    } else {
      StorageOf(hash, pads, s, c, f);
      assert SameFor(pads, s, c, s', c', f);
      SameForIsOk(hash, pads, s, c, s', c', f);
    }
  }

  lemma StorageOf(hash: Hash, pads: Watcher, s: System, c: Client, f: FileName)
    requires ClientOk(hash, pads, s, c, f)
    ensures c.net == Storing <==> c.app.inside.Receiving?
  {
  }

  lemma LoseUploadIsOk(hash: Hash, pads: Watcher, s: System, k: nat, f: FileName)
    requires CanStep(s, LoseUpload(k)) && ClientOk(hash, pads, s, s.clients[k], f)
    ensures var s' := AfterStep(hash, pads, s, LoseUpload(k)); ClientOk(hash, pads, s', s'.clients[k], f)
  {
    hide Key, Opened, NulFree, GoodAt, Coming;
    var c := s.clients[k];
    var s' := AfterStep(hash, pads, s, LoseUpload(k));
    SamePlace(s, c, s', s'.clients[k], f);
    assert c.queue == [c.queue[0]] + c.queue[1..];
  }

  lemma PollIsOk(hash: Hash, pads: Watcher, s: System, k: nat, f: FileName)
    requires CanStep(s, Poll(k)) && ClientOk(hash, pads, s, s.clients[k], f)
    ensures var s' := AfterStep(hash, pads, s, Poll(k)); ClientOk(hash, pads, s', s'.clients[k], f)
  {
    hide Key, Opened, NulFree, ClientOk, GoodAt;
    var c := s.clients[k];
    var s' := AfterStep(hash, pads, s, Poll(k));
    assert c.events == [c.events[0]] + c.events[1..];
    StorageOf(hash, pads, s, c, f);
    assert SameFor(pads, s, c, s', s'.clients[k], f);
    SameForIsOk(hash, pads, s, c, s', s'.clients[k], f);
  }

  lemma DownloadIsOk(hash: Hash, pads: Watcher, s: System, k: nat, f: FileName)
    requires CanStep(s, Download(k)) && ClientOk(hash, pads, s, s.clients[k], f)
    ensures var s' := AfterStep(hash, pads, s, Download(k)); ClientOk(hash, pads, s', s'.clients[k], f)
  {
    hide Key, Opened, NulFree, GoodAt;
  }

  lemma LoseDownloadIsOk(hash: Hash, pads: Watcher, s: System, k: nat, f: FileName)
    requires CanStep(s, LoseDownload(k)) && ClientOk(hash, pads, s, s.clients[k], f)
    ensures var s' := AfterStep(hash, pads, s, LoseDownload(k)); ClientOk(hash, pads, s', s'.clients[k], f)
  {
    hide Key, Opened, NulFree, GoodAt;
  }

  lemma HandOverIsOk(hash: Hash, pads: Watcher, s: System, k: nat, f: FileName)
    requires CanStep(s, HandOver(k)) && ClientOk(hash, pads, s, s.clients[k], f)
    ensures var s' := AfterStep(hash, pads, s, HandOver(k)); ClientOk(hash, pads, s', s'.clients[k], f)
  {
    hide Key, Opened, NulFree, Coming;
    var c := s.clients[k];
    var s' := AfterStep(hash, pads, s, HandOver(k));
    var a := Receive(c.net.f, c.net.content);
    SamePlace(s, c, s', s'.clients[k], f);
    if c.net.f != f {
      hide Next, SameAt, ClientOk;
      ElsewhereIsSame(hash, pads, c.app, a, f);
      SameForIsOk(hash, pads, s, c, s', s'.clients[k], f);
    } else {
      HandOverHere(hash, pads, s, k, f);
    }
  }

  lemma HandOverHere(hash: Hash, pads: Watcher, s: System, k: nat, f: FileName)
    requires CanStep(s, HandOver(k)) && ClientOk(hash, pads, s, s.clients[k], f) && s.clients[k].net.f == f
    ensures var s' := AfterStep(hash, pads, s, HandOver(k)); ClientOk(hash, pads, s', s'.clients[k], f)
  {
    hide Key, Opened, NulFree, Coming;
    var c := s.clients[k];
    var s' := AfterStep(hash, pads, s, HandOver(k));
    SamePlace(s, c, s', s'.clients[k], f);
    StepIsGoodAt(hash, pads, c.app, Receive(f, c.net.content), f);
  }

  lemma StoreIsOk(hash: Hash, pads: Watcher, s: System, k: nat, ok: bool, events: nat, f: FileName)
    requires CanStep(s, Store(k, ok, events)) && ClientOk(hash, pads, s, s.clients[k], f)
    ensures var s' := AfterStep(hash, pads, s, Store(k, ok, events)); ClientOk(hash, pads, s', s'.clients[k], f)
  {
    hide Key, Opened, NulFree, Count, Coming;
    var c := s.clients[k];
    var s' := AfterStep(hash, pads, s, Store(k, ok, events));
    SamePlace(s, c, s', s'.clients[k], f);
    if c.app.inside.f != f {
      hide Next, SameAt, ClientOk;
      ElsewhereIsSame(hash, pads, c.app, Write(ok, events), f);
      StorageAfterWrite(hash, pads, c.app, ok, events);
      SameForIsOk(hash, pads, s, c, s', s'.clients[k], f);
    } else {
      StepIsGoodAt(hash, pads, c.app, Write(ok, events), f);
      hide GoodAt;
    }
  }

  lemma StorageAfterWrite(hash: Hash, pads: Watcher, s: State, ok: bool, events: nat)
    requires Enabled(s, Write(ok, events))
    ensures Next(hash, pads, s, Write(ok, events)).inside == Nobody
  {
  }

  lemma JoinIsOk(hash: Hash, pads: Watcher, s: System, k: nat, f: FileName)
    requires CanStep(s, Join(k))
    ensures var s' := AfterStep(hash, pads, s, Join(k)); ClientOk(hash, pads, s', s'.clients[k], f)
  {
    hide Key, Opened, NulFree;
  }

  lemma TellIsOk(hash: Hash, pads: Watcher, s: System, j: nat, k: nat, f: FileName)
    requires CanStep(s, Tell(j)) && k in s.clients && ClientOk(hash, pads, s, s.clients[k], f)
    ensures var s' := AfterStep(hash, pads, s, Tell(j)); k in s'.clients && ClientOk(hash, pads, s', s'.clients[k], f)
  {
    hide Key, Opened, NulFree, ClientOk, GoodAt;
    var c := s.clients[k];
    var s' := AfterStep(hash, pads, s, Tell(j));
    ValuesDrop(s.due, j, f);
    StorageOf(hash, pads, s, c, f);
    assert SameFor(pads, s, c, s', s'.clients[k], f);
    SameForIsOk(hash, pads, s, c, s', s'.clients[k], f);
  }

  /** What other clients do on their own does not concern this one. */
  lemma UnconcernedIsOk(hash: Hash, pads: Watcher, s: System, s': System, c: Client, f: FileName)
    requires ClientOk(hash, pads, s, c, f) && s'.disk == s.disk && s'.due == s.due
    ensures ClientOk(hash, pads, s', c, f)
  {
    hide GoodAt, Key;
  }

  lemma UploadElsewhereIsOk(hash: Hash, pads: Watcher, s: System, j: nat, k: nat, f: FileName)
    requires CanStep(s, Upload(j)) && k in s.clients && k != j && ClientOk(hash, pads, s, s.clients[k], f)
    ensures var s' := AfterStep(hash, pads, s, Upload(j)); k in s'.clients && ClientOk(hash, pads, s', s'.clients[k], f)
  {
    hide Key, Opened, NulFree, ClientOk, GoodAt;
    var c, g := s.clients[k], s.clients[j].queue[0];
    var s' := AfterStep(hash, pads, s, Upload(j));
    ValuesAdd(s.due, j, g, f);
    if g == f {
      StoredIsOk(hash, pads, s, c, s', c, f);
    } else {
      StorageOf(hash, pads, s, c, f);
      assert SameFor(pads, s, c, s', c, f);
      SameForIsOk(hash, pads, s, c, s', c, f);
    }
  }

  ghost predicate AllOk(hash: Hash, pads: Watcher, s: System, f: FileName) {
    forall k :: k in s.clients ==> ClientOk(hash, pads, s, s.clients[k], f)
  }

  lemma OwnStepIsOk(hash: Hash, pads: Watcher, s: System, a: Step, f: FileName)
    requires CanStep(s, a) && !a.Tell? && (a.k in s.clients ==> ClientOk(hash, pads, s, s.clients[a.k], f))
    ensures var s' := AfterStep(hash, pads, s, a); a.k in s'.clients && ClientOk(hash, pads, s', s'.clients[a.k], f)
  {
    hide ClientOk, Next, Enabled;
    match a
    case Join(k) => JoinIsOk(hash, pads, s, k, f);
    case Local(k, local) => LocalIsOk(hash, pads, s, k, local, f);
    case Upload(k) => UploadIsOk(hash, pads, s, k, f);
    case LoseUpload(k) => LoseUploadIsOk(hash, pads, s, k, f);
    case Poll(k) => PollIsOk(hash, pads, s, k, f);
    case Download(k) => DownloadIsOk(hash, pads, s, k, f);
    case LoseDownload(k) => LoseDownloadIsOk(hash, pads, s, k, f);
    case HandOver(k) => HandOverIsOk(hash, pads, s, k, f);
    case Store(k, ok, events) => StoreIsOk(hash, pads, s, k, ok, events, f);
  }

  lemma OnlyOwn(hash: Hash, pads: Watcher, s: System, a: Step)
    requires CanStep(s, a) && !a.Tell? && !a.Upload?
    ensures var s' := AfterStep(hash, pads, s, a);
      && s'.disk == s.disk && s'.due == s.due && s'.clients.Keys == s.clients.Keys + {a.k}
      && forall k :: k in s.clients && k != a.k ==> s'.clients[k] == s.clients[k]
  {
    hide Next, Enabled;
  }

  lemma StepIsOk(hash: Hash, pads: Watcher, s: System, a: Step, f: FileName)
    requires CanStep(s, a) && AllOk(hash, pads, s, f)
    ensures AllOk(hash, pads, AfterStep(hash, pads, s, a), f)
  {
    hide ClientOk, Next, Enabled;
    var s' := AfterStep(hash, pads, s, a);
    if a.Tell? {
      forall k | k in s'.clients ensures ClientOk(hash, pads, s', s'.clients[k], f) {
        TellIsOk(hash, pads, s, a.k, k, f);
      }
    } else {
      OwnStepIsOk(hash, pads, s, a, f);
      forall k | k in s'.clients && k != a.k ensures ClientOk(hash, pads, s', s'.clients[k], f) {
        if a.Upload? {
          UploadElsewhereIsOk(hash, pads, s, a.k, k, f);
        } else {
          OnlyOwn(hash, pads, s, a);
          UnconcernedIsOk(hash, pads, s, s', s.clients[k], f);
        }
      }
    }
  }

  lemma {:induction false} RunIsOk(hash: Hash, pads: Watcher, s: System, steps: seq<Step>, f: FileName)
    requires AllOk(hash, pads, s, f) && Steps(hash, pads, s, steps)
    ensures AllOk(hash, pads, Reached(hash, pads, s, steps), f)
    decreases |steps|
  {
    hide AllOk, CanStep, AfterStep;
    if steps != [] {
      StepIsOk(hash, pads, s, steps[0], f);
      RunIsOk(hash, pads, AfterStep(hash, pads, s, steps[0]), steps[1..], f);
    }
  }

  // ------------------------------------------------------------------ at rest

  /** Nothing of the file's is pending, queued, coming or held. */
  predicate Quiet(s: System, c: Client, f: FileName) {
    AtRest(c.app, f) && f !in c.queue && !Coming(s, c, f) && !Holding(c, f)
  }

  /** And no transfer of it has failed. */
  predicate Resting(s: System, c: Client, f: FileName) { Quiet(s, c, f) && f !in c.lost }

  /** The hash of a file, if it is there. */
  function HashAt(hash: Hash, disk: map<FileName, Content>, f: FileName): Option<u64> {
    if f in disk then Some(hash(disk[f])) else None
  }

  predicate HoldsServers(hash: Hash, s: System, c: Client, f: FileName) {
    HashAt(hash, c.app.disk, f) == HashAt(hash, s.disk, f)
  }

  lemma RestingIff(hash: Hash, pads: Watcher, s: System, c: Client, f: FileName)
    requires ClientOk(hash, pads, s, c, f) && Resting(s, c, f)
    ensures HoldsServers(hash, s, c, f) <==> Lookup(c.app.dirHash, f) == Lookup(c.app.dirHash, Key(pads, f))
  {
    hide Key, Opened, NulFree;
  }

  /** In every run, for every file and any number of clients: one that is at rest for the file holds the server's
      version, up to the hash, exactly when its two cache entries for the file agree. */
  lemma RestingClientsIff(hash: Hash, pads: Watcher, disk: map<FileName, Content>, steps: seq<Step>, k: nat,
          f: FileName)
    requires Steps(hash, pads, Begin(disk), steps)
    requires var s := Reached(hash, pads, Begin(disk), steps); k in s.clients && Resting(s, s.clients[k], f)
    ensures var s := Reached(hash, pads, Begin(disk), steps);
      var c := s.clients[k];
      && (HoldsServers(hash, s, c, f) <==> Lookup(c.app.dirHash, f) == Lookup(c.app.dirHash, Key(pads, f)))
      && (pads(f) == 0 ==> HoldsServers(hash, s, c, f))
  {
    hide Steps, Reached, ClientOk, Resting, HoldsServers;
    RunIsOk(hash, pads, Begin(disk), steps, f);
    var s := Reached(hash, pads, Begin(disk), steps);
    RestingIff(hash, pads, s, s.clients[k], f);
  }

  // ------------------------------------------------------------------ a padded name

  lemma {:induction false} StepsConcat(hash: Hash, pads: Watcher, s: System, first: seq<Step>, more: seq<Step>)
    requires Steps(hash, pads, s, first) && Steps(hash, pads, Reached(hash, pads, s, first), more)
    ensures Steps(hash, pads, s, first + more)
    ensures Reached(hash, pads, s, first + more) == Reached(hash, pads, Reached(hash, pads, s, first), more)
    decreases |first|
  {
    hide CanStep, AfterStep;
    if first == [] {
      assert first + more == more;
    } else {
      assert (first + more)[1..] == first[1..] + more;
      StepsConcat(hash, pads, AfterStep(hash, pads, s, first[0]), first[1..], more);
    }
  }

  lemma OneStep(hash: Hash, pads: Watcher, s: System, a: Step)
    requires CanStep(s, a)
    ensures Steps(hash, pads, s, [a]) && Reached(hash, pads, s, [a]) == AfterStep(hash, pads, s, a)
  {
    hide CanStep, AfterStep;
    assert [a][1..] == [];
    var s' := AfterStep(hash, pads, s, a);
    assert Steps(hash, pads, s', []) && Reached(hash, pads, s', []) == s';
  }

  lemma TwoSteps(hash: Hash, pads: Watcher, s: System, a: Step, b: Step)
    requires CanStep(s, a) && CanStep(AfterStep(hash, pads, s, a), b)
    ensures Steps(hash, pads, s, [a, b])
    ensures Reached(hash, pads, s, [a, b]) == AfterStep(hash, pads, AfterStep(hash, pads, s, a), b)
  {
    hide CanStep, AfterStep;
    OneStep(hash, pads, s, a);
    OneStep(hash, pads, AfterStep(hash, pads, s, a), b);
    StepsConcat(hash, pads, s, [a], [b]);
    assert [a] + [b] == [a, b];
  }

  /** How a file stands when there is one client, nobody is inside its mutex and its network thread is idle: its
      contents here and there, the hashes noted under the watcher's and the network's name, and what is
      pending, queued and broadcast. */
  datatype Stand = Stand(mine: Content, theirs: Option<Content>, watched: Option<u64>, got: Option<u64>,
                         pending: nat, queue: seq<FileName>, events: seq<FileName>)

  ghost predicate Stands(pads: Watcher, s: System, f: FileName, t: Stand) {
    && s.due == map[] && s.clients.Keys == {0}
    && var c := s.clients[0];
    && c.net == Idle && c.lost == {} && c.queue == t.queue && c.events == t.events
    && c.app.inside.Nobody? && f !in c.app.failed && Get(c.app.pending, f) == t.pending
    && Lookup(c.app.disk, f) == Some(t.mine) && Lookup(s.disk, f) == t.theirs
    && Lookup(c.app.dirHash, Key(pads, f)) == t.watched && Lookup(c.app.dirHash, f) == t.got
  }

  lemma JoinAndEdit(hash: Hash, pads: Watcher, f: FileName, x: Content) returns (steps: seq<Step>, s: System)
    ensures Steps(hash, pads, Begin(map[]), steps) && Reached(hash, pads, Begin(map[]), steps) == s
    ensures Stands(pads, s, f, Stand(x, None, None, None, 1, [], []))
  {
    hide Key, Opened, NulFree, Count;
    steps := [Join(0), Local(0, Edit(f, x, 1))];
    TwoSteps(hash, pads, Begin(map[]), steps[0], steps[1]);
    s := Reached(hash, pads, Begin(map[]), steps);
  }

  lemma EditAgain(hash: Hash, pads: Watcher, s: System, f: FileName, t: Stand, x: Content)
    returns (steps: seq<Step>, s': System)
    requires Stands(pads, s, f, t)
    ensures Steps(hash, pads, s, steps) && Reached(hash, pads, s, steps) == s'
    ensures Stands(pads, s', f, t.(mine := x, pending := 1))
  {
    hide Key, Opened, NulFree, Count;
    steps := [Local(0, Edit(f, x, 1))];
    OneStep(hash, pads, s, steps[0]);
    s' := Reached(hash, pads, s, steps);
  }

  /** The notification finds the file changed, and its upload is queued. */
  lemma NoticeEdit(hash: Hash, pads: Watcher, s: System, f: FileName, t: Stand)
    returns (steps: seq<Step>, s': System)
    requires Stands(pads, s, f, t) && t.pending == 1 && t.watched != Some(hash(t.mine))
    ensures Steps(hash, pads, s, steps) && Reached(hash, pads, s, steps) == s'
    ensures var noted := Some(hash(t.mine));
      Stands(pads, s', f, t.(watched := noted, got := if pads(f) > 0 then t.got else noted, pending := 0,
                             queue := t.queue + [f]))
  {
    hide Key, Opened, NulFree, Count;
    steps := [Local(0, Check(f)), Local(0, Commit)];
    TwoSteps(hash, pads, s, steps[0], steps[1]);
    s' := Reached(hash, pads, s, steps);
  }

  /** The notification finds the hash noted. */
  lemma IgnoreEdit(hash: Hash, pads: Watcher, s: System, f: FileName, t: Stand)
    returns (steps: seq<Step>, s': System)
    requires Stands(pads, s, f, t) && t.pending == 1 && t.watched == Some(hash(t.mine))
    ensures Steps(hash, pads, s, steps) && Reached(hash, pads, s, steps) == s'
    ensures Stands(pads, s', f, t.(pending := 0))
  {
    hide Key, Opened, NulFree;
    steps := [Local(0, Check(f))];
    OneStep(hash, pads, s, steps[0]);
    s' := Reached(hash, pads, s, steps);
  }

  lemma UploadAndTell(hash: Hash, pads: Watcher, s: System, f: FileName, t: Stand)
    returns (steps: seq<Step>, s': System)
    requires Stands(pads, s, f, t) && t.queue == [f]
    ensures Steps(hash, pads, s, steps) && Reached(hash, pads, s, steps) == s'
    ensures Stands(pads, s', f, t.(theirs := Some(t.mine), queue := [], events := t.events + [f]))
  {
    hide Key, Opened, NulFree;
    steps := [Upload(0), Tell(0)];
    assert [f][1..] == [];
    var s1 := AfterStep(hash, pads, s, Upload(0));
    assert s1.due == map[0 := f] && s1.due - {0} == map[];
    TwoSteps(hash, pads, s, steps[0], steps[1]);
    s' := Reached(hash, pads, s, steps);
  }

  lemma PollAndDownload(hash: Hash, pads: Watcher, s: System, f: FileName, t: Stand)
    returns (steps: seq<Step>, s': System)
    requires Stands(pads, s, f, t) && t.events == [f] && t.theirs.Some?
    ensures Steps(hash, pads, s, steps) && Reached(hash, pads, s, steps) == s'
    ensures 0 in s.clients
    ensures s' == s.(clients := s.clients[0 := s.clients[0].(net := Fetched(f, t.theirs.value), events := [])])
  {
    hide Key, Opened, NulFree;
    steps := [Poll(0), Download(0)];
    assert [f][1..] == [];
    TwoSteps(hash, pads, s, steps[0], steps[1]);
    s' := Reached(hash, pads, s, steps);
  }

  /** The download is news, and is written. */
  lemma DownloadWritten(hash: Hash, pads: Watcher, s: System, f: FileName, t: Stand)
    returns (steps: seq<Step>, s': System)
    requires Stands(pads, s, f, t) && t.events == [f] && t.theirs.Some? && t.got != Some(hash(t.theirs.value))
    requires pads(f) > 0
    ensures Steps(hash, pads, s, steps) && Reached(hash, pads, s, steps) == s'
    ensures var content := t.theirs.value;
      Stands(pads, s', f, t.(mine := content, got := Some(hash(content)), pending := 1, events := []))
  {
    hide Key, Opened, NulFree, Count, Stands;
    var first, s1 := PollAndDownload(hash, pads, s, f, t);
    var second := [HandOver(0), Store(0, true, 1)];
    s' := NewsIsStored(hash, pads, s, f, t, s1);
    TwoSteps(hash, pads, s1, second[0], second[1]);
    StepsConcat(hash, pads, s, first, second);
    steps := first + second;
  }

  lemma NewsIsStored(hash: Hash, pads: Watcher, s: System, f: FileName, t: Stand, s1: System) returns (s': System)
    requires Stands(pads, s, f, t) && t.events == [f] && t.theirs.Some? && t.got != Some(hash(t.theirs.value))
    requires pads(f) > 0
    requires s1 == s.(clients := s.clients[0 := s.clients[0].(net := Fetched(f, t.theirs.value), events := [])])
    ensures CanStep(s1, HandOver(0)) && CanStep(AfterStep(hash, pads, s1, HandOver(0)), Store(0, true, 1))
    ensures s' == AfterStep(hash, pads, AfterStep(hash, pads, s1, HandOver(0)), Store(0, true, 1))
    ensures var content := t.theirs.value;
      Stands(pads, s', f, t.(mine := content, got := Some(hash(content)), pending := 1, events := []))
  {
    hide Key, Opened, NulFree, Count;
    s' := AfterStep(hash, pads, AfterStep(hash, pads, s1, HandOver(0)), Store(0, true, 1));
  }

  /** The download is taken for known, and dropped. */
  lemma DownloadDropped(hash: Hash, pads: Watcher, s: System, f: FileName, t: Stand)
    returns (steps: seq<Step>, s': System)
    requires Stands(pads, s, f, t) && t.events == [f] && t.theirs.Some? && t.got == Some(hash(t.theirs.value))
    ensures Steps(hash, pads, s, steps) && Reached(hash, pads, s, steps) == s'
    ensures Stands(pads, s', f, t.(events := []))
  {
    hide Key, Opened, NulFree;
    var first, s1 := PollAndDownload(hash, pads, s, f, t);
    OneStep(hash, pads, s1, HandOver(0));
    s' := AfterStep(hash, pads, s1, HandOver(0));
    StepsConcat(hash, pads, s, first, [HandOver(0)]);
    steps := first + [HandOver(0)];
  }

  /** The first version is uploaded and comes back. */
  lemma FirstVersion(hash: Hash, pads: Watcher, f: FileName, x: Content) returns (steps: seq<Step>, s: System)
    requires pads(f) > 0
    ensures Steps(hash, pads, Begin(map[]), steps) && Reached(hash, pads, Begin(map[]), steps) == s
    ensures Stands(pads, s, f, Stand(x, Some(x), Some(hash(x)), Some(hash(x)), 1, [], []))
  {
    hide Stands, Steps, Reached, Key;
    var more: seq<Step>;
    steps, s := JoinAndEdit(hash, pads, f, x);
    var t := Stand(x, None, None, None, 1, [], []);
    more, s := NoticeEdit(hash, pads, s, f, t);
    StepsConcat(hash, pads, Begin(map[]), steps, more);
    steps := steps + more;
    assert [] + [f] == [f];
    t := t.(watched := Some(hash(x)), pending := 0, queue := [f]);
    more, s := UploadAndTell(hash, pads, s, f, t);
    StepsConcat(hash, pads, Begin(map[]), steps, more);
    steps := steps + more;
    t := t.(theirs := Some(x), queue := [], events := [f]);
    more, s := DownloadWritten(hash, pads, s, f, t);
    StepsConcat(hash, pads, Begin(map[]), steps, more);
    steps := steps + more;
  }

  /** The user writes another version, whose upload is queued; writes the first again, which is what the upload
      then sends; and writes the other again, whose hash is noted already. The download of the first version
      is dropped, as the network's entry still holds its hash. */
  lemma PaddedNameDiverges(hash: Hash, pads: Watcher, f: FileName, x: Content, y: Content)
    returns (steps: seq<Step>, s: System)
    requires hash(x) != hash(y) && pads(f) > 0
    ensures Steps(hash, pads, Begin(map[]), steps) && Reached(hash, pads, Begin(map[]), steps) == s
    ensures 0 in s.clients && Resting(s, s.clients[0], f)
    ensures Lookup(s.disk, f) == Some(x) && Lookup(s.clients[0].app.disk, f) == Some(y)
  {
    hide Stands, Steps, Reached, Key, Opened, NulFree;
    var more: seq<Step>;
    steps, s := FirstVersion(hash, pads, f, x);
    var t := Stand(x, Some(x), Some(hash(x)), Some(hash(x)), 1, [], []);
    more, s := EditAgain(hash, pads, s, f, t, y);
    StepsConcat(hash, pads, Begin(map[]), steps, more);
    steps, t := steps + more, t.(mine := y);
    more, s := NoticeEdit(hash, pads, s, f, t);
    StepsConcat(hash, pads, Begin(map[]), steps, more);
    assert [] + [f] == [f];
    steps, t := steps + more, t.(watched := Some(hash(y)), pending := 0, queue := [f]);
    more, s := EditAgain(hash, pads, s, f, t, x);
    StepsConcat(hash, pads, Begin(map[]), steps, more);
    steps, t := steps + more, t.(mine := x, pending := 1);
    more, s := UploadAndTell(hash, pads, s, f, t);
    StepsConcat(hash, pads, Begin(map[]), steps, more);
    steps, t := steps + more, t.(queue := [], events := [f]);
    more, s := EditAgain(hash, pads, s, f, t, y);
    StepsConcat(hash, pads, Begin(map[]), steps, more);
    steps, t := steps + more, t.(mine := y);
    more, s := IgnoreEdit(hash, pads, s, f, t);
    StepsConcat(hash, pads, Begin(map[]), steps, more);
    steps, t := steps + more, t.(pending := 0);
    more, s := DownloadDropped(hash, pads, s, f, t);
    StepsConcat(hash, pads, Begin(map[]), steps, more);
    steps, t := steps + more, t.(events := []);
    StandsAtRest(pads, s, f, t);
  }

  lemma StandsAtRest(pads: Watcher, s: System, f: FileName, t: Stand)
    requires Stands(pads, s, f, t) && t.pending == 0 && t.queue == [] && t.events == []
    ensures 0 in s.clients && Resting(s, s.clients[0], f)
    ensures Lookup(s.disk, f) == t.theirs && Lookup(s.clients[0].app.disk, f) == Some(t.mine)
  {
    hide Key, Opened, NulFree;
  }

  // ------------------------------------------------------------------ a transfer that failed

  /** A file written by the user is noticed, and its upload queued. */
  lemma FirstNotice(hash: Hash, pads: Watcher, f: FileName, x: Content) returns (steps: seq<Step>, s: System, t: Stand)
    ensures Steps(hash, pads, Begin(map[]), steps) && Reached(hash, pads, Begin(map[]), steps) == s
    ensures Stands(pads, s, f, t) && t == Stand(x, None, Some(hash(x)), t.got, 0, [f], [])
  {
    hide Stands, Steps, Reached, Key;
    var more: seq<Step>;
    steps, s := JoinAndEdit(hash, pads, f, x);
    t := Stand(x, None, None, None, 1, [], []);
    more, s := NoticeEdit(hash, pads, s, f, t);
    StepsConcat(hash, pads, Begin(map[]), steps, more);
    assert [] + [f] == [f];
    var noted := Some(hash(x));
    steps, t := steps + more, Stand(x, None, noted, if pads(f) > 0 then None else noted, 0, [f], []);
  }

  /** An upload that fails is not tried again: for every file and any contents, a run after which nothing is under way
      and the server does not have the user's file. */
  lemma LostUploadDiverges(hash: Hash, pads: Watcher, f: FileName, x: Content)
    returns (steps: seq<Step>, s: System)
    ensures Steps(hash, pads, Begin(map[]), steps) && Reached(hash, pads, Begin(map[]), steps) == s
    ensures 0 in s.clients && Quiet(s, s.clients[0], f) && f in s.clients[0].lost
    ensures Lookup(s.disk, f) == None && Lookup(s.clients[0].app.disk, f) == Some(x)
  {
    hide Steps, Reached, Key, Opened, NulFree;
    var first, s1, t := FirstNotice(hash, pads, f, x);
    OneStep(hash, pads, s1, LoseUpload(0));
    StepsConcat(hash, pads, Begin(map[]), first, [LoseUpload(0)]);
    steps, s := first + [LoseUpload(0)], AfterStep(hash, pads, s1, LoseUpload(0));
  }

  /** Nor is a download: for every file and any two contents, a run after which nothing is under way, the user has one
      and the server the other. */
  lemma LostDownloadDiverges(hash: Hash, pads: Watcher, f: FileName, x: Content, y: Content)
    returns (steps: seq<Step>, s: System)
    ensures Steps(hash, pads, Begin(map[]), steps) && Reached(hash, pads, Begin(map[]), steps) == s
    ensures 0 in s.clients && Quiet(s, s.clients[0], f) && f in s.clients[0].lost
    ensures Lookup(s.disk, f) == Some(y) && Lookup(s.clients[0].app.disk, f) == Some(x)
  {
    hide Stands, Steps, Reached, Key, Opened, NulFree;
    var more: seq<Step>;
    var t: Stand;
    steps, s, t := FirstNotice(hash, pads, f, x);
    more, s := EditAgain(hash, pads, s, f, t, y);
    StepsConcat(hash, pads, Begin(map[]), steps, more);
    steps, t := steps + more, t.(mine := y, pending := 1);
    more, s := UploadAndTell(hash, pads, s, f, t);
    StepsConcat(hash, pads, Begin(map[]), steps, more);
    assert [] + [f] == [f];
    steps, t := steps + more, t.(theirs := Some(y), queue := [], events := [f]);
    more, s := EditAgain(hash, pads, s, f, t, x);
    StepsConcat(hash, pads, Begin(map[]), steps, more);
    steps, t := steps + more, t.(mine := x);
    more, s := IgnoreEdit(hash, pads, s, f, t);
    StepsConcat(hash, pads, Begin(map[]), steps, more);
    steps, t := steps + more, t.(pending := 0);
    more, s := DownloadFails(hash, pads, s, f, t);
    StepsConcat(hash, pads, Begin(map[]), steps, more);
    steps := steps + more;
  }

  lemma DownloadFails(hash: Hash, pads: Watcher, s: System, f: FileName, t: Stand)
    returns (steps: seq<Step>, s': System)
    requires Stands(pads, s, f, t) && t.pending == 0 && t.queue == [] && t.events == [f]
    ensures Steps(hash, pads, s, steps) && Reached(hash, pads, s, steps) == s'
    ensures 0 in s'.clients && Quiet(s', s'.clients[0], f) && f in s'.clients[0].lost
    ensures Lookup(s'.disk, f) == t.theirs && Lookup(s'.clients[0].app.disk, f) == Some(t.mine)
  {
    hide Key, Opened, NulFree;
    steps := [Poll(0), LoseDownload(0)];
    assert [f][1..] == [];
    TwoSteps(hash, pads, s, steps[0], steps[1]);
    s' := Reached(hash, pads, s, steps);
  }

  /** Whoever is at rest for the file holds the server's version. */
  ghost predicate RestMeansSynced(hash: Hash, pads: Watcher, f: FileName) {
    forall disk, steps, k :: Steps(hash, pads, Begin(disk), steps) ==>
      var s := Reached(hash, pads, Begin(disk), steps);
      k in s.clients && Resting(s, s.clients[k], f) ==> HoldsServers(hash, s, s.clients[k], f)
  }

  /** The files that are in step with the server whenever a client is at rest are exactly those whose names the
      watcher does not pad. */
  lemma RestMeansSyncedIff(hash: Hash, pads: Watcher, f: FileName, x: Content, y: Content)
    requires hash(x) != hash(y)
    ensures RestMeansSynced(hash, pads, f) <==> pads(f) == 0
  {
    hide Steps, Reached, Resting, Key, Opened, NulFree;
    if pads(f) == 0 {
      forall disk, steps, k | Steps(hash, pads, Begin(disk), steps)
        ensures var s := Reached(hash, pads, Begin(disk), steps);
          k in s.clients && Resting(s, s.clients[k], f) ==> HoldsServers(hash, s, s.clients[k], f)
      {
        var s := Reached(hash, pads, Begin(disk), steps);
        if k in s.clients && Resting(s, s.clients[k], f) {
          RestingClientsIff(hash, pads, disk, steps, k, f);
        }
      }
    } else {
      var steps, s := PaddedNameDiverges(hash, pads, f, x, y);
      assert !HoldsServers(hash, s, s.clients[0], f);
      assert Steps(hash, pads, Begin(map[]), steps);
    }
  }
}
