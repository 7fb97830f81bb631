/** The client's cache of file hashes, which keeps what arrives from the network from being uploaded
    again. The user writes files at any moment, between any two steps of the client; each write, also
    the client's own, is followed by one or more notifications. The file watcher appends NULs to the
    names it passes on, as many as the kernel padded them with, while the network does not: both names
    open the same file, but the cache keeps them apart. */
module SyncState {
  import opened Basics
  import opened Wire

  predicate NulFree(s: Bytes) { 0 !in s }

  /** The name of a file on disk and on the network. */
  type FileName = s: Bytes | NulFree(s) witness []

  type Hash = Content -> u64

  /** How many NULs the watcher appends to a name. */
  type Watcher = FileName -> nat

  /** The file that is opened under a name: the name ends at its first NUL. */
  function Opened(name: Bytes): FileName { name[..NulFrom(name, 0)] }

  /** The name under which the watcher reports a file. */
  function Key(pads: Watcher, f: FileName): (k: Bytes)
    ensures Opened(k) == f && (k == f <==> pads(f) == 0)
  {
    var k := f + seq(pads(f), _ => 0 as u8);
    assert NulFrom(k, 0) == |f| by {
      assert forall j :: 0 <= j < |f| ==> k[j] == f[j] && f[j] in f;
      assert pads(f) > 0 ==> k[|f|] == 0;
    }
    k
  }

  /** No other file shares a cache entry with the watcher's one for `f`. */
  lemma KeysApart(pads: Watcher, f: FileName, g: FileName)
    requires f != g
    ensures Key(pads, f) != Key(pads, g) && Key(pads, f) != g
  {
    assert NulFrom(g, 0) == |g| by {
      assert forall j :: 0 <= j < |g| ==> g[j] in g;
    }
    assert Opened(g) == g;
  }

  /** Who is inside the client's mutex: nobody, the handler of a notification that found the file
      changed, or the handler of a download that has noted the hash but not yet written the file. */
  datatype Inside = Nobody | Notifying(f: FileName) | Receiving(f: FileName, content: Content)

  datatype State = State(
    disk: map<FileName, Content>,
    dirHash: map<Bytes, u64>,
    pending: map<FileName, nat>,     // notifications not handled yet
    inside: Inside,
    unseen: set<FileName>,           // there before notifications started, not written since
    failed: set<FileName>,           // the last write of a download failed
    edits: map<FileName, nat>,       // writes by the user
    uploads: map<FileName, nat>,     // uploads queued by notifications
    downloads: map<FileName, nat>,   // downloads that were written
    failures: map<FileName, nat>)    // downloads that could not be written

  datatype Action =
    | Edit(f: FileName, content: Content, events: nat)
    | Check(f: FileName)                      // a notification is handled, up to the comparison
    | Commit                                  // the hash is noted and the upload queued
    | Receive(f: FileName, content: Content)  // a download arrives, up to noting its hash
    | Write(ok: bool, events: nat)            // its file is written

  function Get(m: map<FileName, nat>, f: FileName): nat { if f in m then m[f] else 0 }

  function Count(m: map<FileName, nat>, f: FileName): (r: map<FileName, nat>)
    ensures forall g :: Get(r, g) == Get(m, g) + if g == f then 1 else 0
  {
    m[f := Get(m, f) + 1]
  }

  /** The hash of a file that cannot be opened is zero. */
  function HashFile(hash: Hash, disk: map<FileName, Content>, f: FileName): u64 {
    if f in disk then hash(disk[f]) else 0
  }

  predicate Differs(dirHash: map<Bytes, u64>, name: Bytes, h: u64) { name !in dirHash || dirHash[name] != h }

  predicate Enabled(s: State, a: Action) {
    match a
    case Edit(_, _, events) => events > 0
    case Check(f) => Get(s.pending, f) > 0 && s.inside.Nobody?
    case Commit => s.inside.Notifying?
    case Receive(_, _) => s.inside.Nobody?
    case Write(_, events) => s.inside.Receiving? && events > 0
  }

  /** A write leaves the file with `events` notifications pending: the kernel may merge new ones with
      those already waiting, but at least one follows the write. */
  function Written(s: State, f: FileName, content: Content, events: nat): State {
    s.(disk := s.disk[f := content], pending := s.pending[f := events],
       unseen := s.unseen - {f}, failed := s.failed - {f})
  }

  function Next(hash: Hash, pads: Watcher, s: State, a: Action): State
    requires Enabled(s, a)
  {
    match a
    case Edit(f, content, events) => Written(s, f, content, events).(edits := Count(s.edits, f))
    case Check(f) =>
      var changed := Differs(s.dirHash, Key(pads, f), HashFile(hash, s.disk, f));
      s.(pending := s.pending[f := Get(s.pending, f) - 1], inside := if changed then Notifying(f) else Nobody)
    case Commit =>
      var f := s.inside.f;
      s.(dirHash := s.dirHash[Key(pads, f) := HashFile(hash, s.disk, f)],
         uploads := Count(s.uploads, f), inside := Nobody)
    case Receive(f, content) =>
      if Differs(s.dirHash, f, hash(content)) then
        s.(dirHash := s.dirHash[f := hash(content)], inside := Receiving(f, content))
      else s
    case Write(ok, events) =>
      var f := s.inside.f;
      if ok then Written(s, f, s.inside.content, events).(inside := Nobody, downloads := Count(s.downloads, f))
      else s.(inside := Nobody, failed := s.failed + {f}, failures := Count(s.failures, f))
  }

  predicate Run(hash: Hash, pads: Watcher, s: State, actions: seq<Action>)
    decreases |actions|
  {
    actions == [] || (Enabled(s, actions[0]) && Run(hash, pads, Next(hash, pads, s, actions[0]), actions[1..]))
  }

  function After(hash: Hash, pads: Watcher, s: State, actions: seq<Action>): State
    requires Run(hash, pads, s, actions)
    decreases |actions|
  {
    if actions == [] then s else After(hash, pads, Next(hash, pads, s, actions[0]), actions[1..])
  }

  /** The files fetched at startup are on disk, but no hash of them was noted. */
  function Start(disk: map<FileName, Content>): State {
    State(disk, map[], map[], Nobody, disk.Keys, {}, map[], map[], map[], map[])
  }

  // ------------------------------------------------------------------ what every step keeps

  /** The hash that the watcher's notifications compare with is not that of the file. */
  predicate Changed(hash: Hash, pads: Watcher, s: State, f: FileName) {
    f in s.disk && Differs(s.dirHash, Key(pads, f), hash(s.disk[f]))
  }

  predicate Busy(s: State, f: FileName) { !s.inside.Nobody? && s.inside.f == f }

  /** The file is about to be given the contents whose hash the watcher will find noted. */
  predicate Arriving(pads: Watcher, s: State, f: FileName) {
    pads(f) == 0 && s.inside.Receiving? && s.inside.f == f
  }

  /** An upload that will be queued if the change is noticed. */
  function Debt(hash: Hash, pads: Watcher, s: State, f: FileName): nat {
    if s.inside == Notifying(f) || (Changed(hash, pads, s, f) && !Arriving(pads, s, f) && f !in s.unseen) then 1 else 0
  }

  /** The downloads that may cause an upload: with one name for both, those that could not be written;
      with a padded one, those that were. */
  function Excess(pads: Watcher, s: State, f: FileName): nat {
    if pads(f) == 0 then Get(s.failures, f) else Get(s.downloads, f)
  }

  /** The hash of the download being written was noted. */
  predicate ReceivingOk(hash: Hash, s: State, f: FileName) {
    s.inside.Receiving? && s.inside.f == f ==> !Differs(s.dirHash, f, hash(s.inside.content))
  }

  predicate GoodAt(hash: Hash, pads: Watcher, s: State, f: FileName) {
    && Get(s.uploads, f) + Debt(hash, pads, s, f) <= Get(s.edits, f) + Excess(pads, s, f)
    && (Changed(hash, pads, s, f) ==>
      Get(s.pending, f) > 0 || s.inside == Notifying(f) || Arriving(pads, s, f) || f in s.unseen
      || (pads(f) == 0 && f in s.failed))
    && (Get(s.pending, f) > 0 || s.inside == Notifying(f) ==> f in s.disk && f !in s.unseen)
    && (f in s.failed ==> Get(s.failures, f) > 0)
    && (pads(f) == 0 && f in s.dirHash && (f !in s.disk || f in s.unseen) ==> Arriving(pads, s, f) || f in s.failed)
    && ReceivingOk(hash, s, f)
  }

  // ------------------------------------------------------------------ one file at a time

  /** The file a step is about. */
  function Subject(s: State, a: Action): FileName
    requires Enabled(s, a)
  {
    if a.Commit? || a.Write? then s.inside.f else a.f
  }

  function Lookup<K, V>(m: map<K, V>, k: K): Option<V> { if k in m then Some(m[k]) else None }

  /** Two states agree on everything that concerns the file. */
  predicate SameAt(pads: Watcher, s: State, d: State, f: FileName) {
    && Lookup(d.disk, f) == Lookup(s.disk, f)
    && Lookup(d.dirHash, Key(pads, f)) == Lookup(s.dirHash, Key(pads, f))
    && Lookup(d.dirHash, f) == Lookup(s.dirHash, f)
    && (f in d.unseen <==> f in s.unseen) && (f in d.failed <==> f in s.failed)
    && Get(d.pending, f) == Get(s.pending, f)
    && Get(d.edits, f) == Get(s.edits, f) && Get(d.uploads, f) == Get(s.uploads, f)
    && Get(d.downloads, f) == Get(s.downloads, f) && Get(d.failures, f) == Get(s.failures, f)
    && (if Busy(s, f) then d.inside == s.inside else !Busy(d, f))
  }

  lemma UpdateElsewhere<K, V>(m: map<K, V>, k: K, v: V, other: K)
    requires other != k
    ensures Lookup(m[k := v], other) == Lookup(m, other)
  {
  }

  lemma GetElsewhere(m: map<FileName, nat>, g: FileName, n: nat, f: FileName)
    requires f != g
    ensures Get(m[g := n], f) == Get(m, f)
  {
  }

  lemma EditElsewhere(hash: Hash, pads: Watcher, s: State, g: FileName, content: Content, events: nat, f: FileName)
    requires Enabled(s, Edit(g, content, events)) && f != g
    ensures SameAt(pads, s, Next(hash, pads, s, Edit(g, content, events)), f)
  {
    hide Key, Opened, NulFree, Count, Lookup, Get;
    UpdateElsewhere(s.disk, g, content, f);
    GetElsewhere(s.pending, g, events, f);
  }

  lemma CheckElsewhere(hash: Hash, pads: Watcher, s: State, g: FileName, f: FileName)
    requires Enabled(s, Check(g)) && f != g
    ensures SameAt(pads, s, Next(hash, pads, s, Check(g)), f)
  {
    hide Key, Opened, NulFree, Lookup, Get, Differs, HashFile;
    GetElsewhere(s.pending, g, Get(s.pending, g) - 1, f);
    assert !Busy(s, f) && !Busy(Next(hash, pads, s, Check(g)), f);
  }

  lemma CommitElsewhere(hash: Hash, pads: Watcher, s: State, f: FileName)
    requires Enabled(s, Commit) && s.inside.f != f
    ensures SameAt(pads, s, Next(hash, pads, s, Commit), f)
  {
    hide Key, Opened, NulFree, Count, Lookup, Get, HashFile;
    var g := s.inside.f;
    KeysApart(pads, g, f);
    KeysApart(pads, f, g);
    UpdateElsewhere(s.dirHash, Key(pads, g), HashFile(hash, s.disk, g), f);
    UpdateElsewhere(s.dirHash, Key(pads, g), HashFile(hash, s.disk, g), Key(pads, f));
  }

  lemma ReceiveElsewhere(hash: Hash, pads: Watcher, s: State, g: FileName, content: Content, f: FileName)
    requires Enabled(s, Receive(g, content)) && f != g
    ensures SameAt(pads, s, Next(hash, pads, s, Receive(g, content)), f)
  {
    hide Key, Opened, NulFree, Lookup, Get, Differs;
    if Differs(s.dirHash, g, hash(content)) {
      KeysApart(pads, f, g);
      UpdateElsewhere(s.dirHash, g, hash(content), f);
      UpdateElsewhere(s.dirHash, g, hash(content), Key(pads, f));
    } else {
      assert Next(hash, pads, s, Receive(g, content)) == s;
    }
  }

  lemma WriteElsewhere(hash: Hash, pads: Watcher, s: State, ok: bool, events: nat, f: FileName)
    requires Enabled(s, Write(ok, events)) && s.inside.f != f
    ensures SameAt(pads, s, Next(hash, pads, s, Write(ok, events)), f)
  {
    hide Key, Opened, NulFree, Count, Lookup, Get;
    UpdateElsewhere(s.disk, s.inside.f, s.inside.content, f);
    GetElsewhere(s.pending, s.inside.f, events, f);
  }

  lemma ElsewhereIsSame(hash: Hash, pads: Watcher, s: State, a: Action, f: FileName)
    requires Enabled(s, a) && Subject(s, a) != f
    ensures SameAt(pads, s, Next(hash, pads, s, a), f)
  {
    hide SameAt, Next;
    match a
    case Edit(g, content, events) => EditElsewhere(hash, pads, s, g, content, events, f);
    case Check(g) => CheckElsewhere(hash, pads, s, g, f);
    case Commit => CommitElsewhere(hash, pads, s, f);
    case Receive(g, content) => ReceiveElsewhere(hash, pads, s, g, content, f);
    case Write(ok, events) => WriteElsewhere(hash, pads, s, ok, events, f);
  }

  lemma SameIsAsGood(hash: Hash, pads: Watcher, s: State, d: State, f: FileName)
    requires SameAt(pads, s, d, f) && GoodAt(hash, pads, s, f)
    ensures GoodAt(hash, pads, d, f)
  {
    hide Key, Opened, NulFree;
  }

  lemma EditIsGoodAt(hash: Hash, pads: Watcher, s: State, f: FileName, content: Content, events: nat)
    requires GoodAt(hash, pads, s, f) && Enabled(s, Edit(f, content, events))
    ensures GoodAt(hash, pads, Next(hash, pads, s, Edit(f, content, events)), f)
  {
    hide Key, Opened, NulFree, Count;
  }

  lemma CheckIsGoodAt(hash: Hash, pads: Watcher, s: State, f: FileName)
    requires GoodAt(hash, pads, s, f) && Enabled(s, Check(f))
    ensures GoodAt(hash, pads, Next(hash, pads, s, Check(f)), f)
  {
    hide Key, Opened, NulFree;
    var d := Next(hash, pads, s, Check(f));
    assert d.disk == s.disk && d.dirHash == s.dirHash && !Arriving(pads, s, f) && !Arriving(pads, d, f);
    assert d.inside == Notifying(f) <==> Changed(hash, pads, s, f);
  }

  lemma CommitIsGoodAt(hash: Hash, pads: Watcher, s: State, f: FileName)
    requires GoodAt(hash, pads, s, f) && Enabled(s, Commit) && s.inside.f == f
    ensures GoodAt(hash, pads, Next(hash, pads, s, Commit), f)
  {
    hide Key, Opened, NulFree, Count;
  }

  lemma ReceiveIsGoodAt(hash: Hash, pads: Watcher, s: State, f: FileName, content: Content)
    requires GoodAt(hash, pads, s, f) && Enabled(s, Receive(f, content))
    ensures GoodAt(hash, pads, Next(hash, pads, s, Receive(f, content)), f)
  {
    hide Key, Opened, NulFree;
  }

  lemma WriteIsGoodAt(hash: Hash, pads: Watcher, s: State, f: FileName, ok: bool, events: nat)
    requires GoodAt(hash, pads, s, f) && Enabled(s, Write(ok, events)) && s.inside.f == f
    ensures GoodAt(hash, pads, Next(hash, pads, s, Write(ok, events)), f)
  {
    hide Key, Opened, NulFree, Count;
  }

  lemma StepIsGoodAt(hash: Hash, pads: Watcher, s: State, a: Action, f: FileName)
    requires GoodAt(hash, pads, s, f) && Enabled(s, a)
    ensures GoodAt(hash, pads, Next(hash, pads, s, a), f)
  {
    hide GoodAt, Next, SameAt;
    if Subject(s, a) != f {
      ElsewhereIsSame(hash, pads, s, a, f);
      SameIsAsGood(hash, pads, s, Next(hash, pads, s, a), f);
    } else {
      match a
      case Edit(_, content, events) => EditIsGoodAt(hash, pads, s, f, content, events);
      case Check(_) => CheckIsGoodAt(hash, pads, s, f);
      case Commit => CommitIsGoodAt(hash, pads, s, f);
      case Receive(_, content) => ReceiveIsGoodAt(hash, pads, s, f, content);
      case Write(ok, events) => WriteIsGoodAt(hash, pads, s, f, ok, events);
    }
  }

  lemma {:induction false} RunIsGoodAt(hash: Hash, pads: Watcher, s: State, actions: seq<Action>, f: FileName)
    requires GoodAt(hash, pads, s, f) && Run(hash, pads, s, actions)
    ensures GoodAt(hash, pads, After(hash, pads, s, actions), f)
    decreases |actions|
  {
    if actions != [] {
      StepIsGoodAt(hash, pads, s, actions[0], f);
      RunIsGoodAt(hash, pads, Next(hash, pads, s, actions[0]), actions[1..], f);
    }
  }

  /** How many uploads notifications can queue: in every run, for every file, no more than the user made
      edits, plus one per download that could not be written; or, for a name the watcher pads, plus one
      per download that was. */
  lemma UploadsAreEdits(hash: Hash, pads: Watcher, disk: map<FileName, Content>, actions: seq<Action>, f: FileName)
    requires Run(hash, pads, Start(disk), actions)
    ensures var s := After(hash, pads, Start(disk), actions);
      Get(s.uploads, f) <= Get(s.edits, f) + Excess(pads, s, f)
  {
    RunIsGoodAt(hash, pads, Start(disk), actions, f);
  }

  /** No lost change: whenever the hash that notifications compare with is not that of the file, a
      notification for the file is pending or being handled; unless the file is untouched since startup,
      or, for a name that is not padded, a download of it is being written or was the last to fail. */
  lemma ChangesArePending(hash: Hash, pads: Watcher, disk: map<FileName, Content>, actions: seq<Action>, f: FileName)
    requires Run(hash, pads, Start(disk), actions) && Changed(hash, pads, After(hash, pads, Start(disk), actions), f)
    ensures var s := After(hash, pads, Start(disk), actions);
      || Get(s.pending, f) > 0 || s.inside == Notifying(f) || f in s.unseen
      || Arriving(pads, s, f) || (pads(f) == 0 && f in s.failed && Get(s.failures, f) > 0)
  {
    RunIsGoodAt(hash, pads, Start(disk), actions, f);
  }

  // ------------------------------------------------------------------ echoes

  lemma RunFirst(hash: Hash, pads: Watcher, s: State, a: Action, rest: seq<Action>)
    requires Enabled(s, a) && Run(hash, pads, Next(hash, pads, s, a), rest)
    ensures Run(hash, pads, s, [a] + rest)
    ensures After(hash, pads, s, [a] + rest) == After(hash, pads, Next(hash, pads, s, a), rest)
  {
    assert ([a] + rest)[1..] == rest;
  }

  /** Nothing of the file's is left to upload. */
  predicate Calm(hash: Hash, pads: Watcher, s: State, f: FileName) {
    && s.inside != Notifying(f) && ReceivingOk(hash, s, f)
    && (Arriving(pads, s, f) || (f in s.disk && !Changed(hash, pads, s, f)))
  }

  /** A download that upsets the watcher's entry: one that could not be written, or, for a padded name,
      one that was. */
  predicate Upsets(pads: Watcher, s: State, a: Action, f: FileName) {
    a.Write? && Busy(s, f) && (if pads(f) == 0 then !a.ok else a.ok)
  }

  predicate Touches(pads: Watcher, s: State, a: Action, f: FileName) {
    (a.Edit? && a.f == f) || Upsets(pads, s, a, f)
  }

  /** The user leaves the file alone, and so does every download that would upset it. */
  predicate Untouched(hash: Hash, pads: Watcher, s: State, actions: seq<Action>, f: FileName)
    requires Run(hash, pads, s, actions)
    decreases |actions|
  {
    actions == [] ||
    (!Touches(pads, s, actions[0], f) && Untouched(hash, pads, Next(hash, pads, s, actions[0]), actions[1..], f))
  }

  lemma SameIsAsCalm(hash: Hash, pads: Watcher, s: State, d: State, f: FileName)
    requires SameAt(pads, s, d, f) && Calm(hash, pads, s, f)
    ensures Calm(hash, pads, d, f) && Get(d.uploads, f) == Get(s.uploads, f)
  {
    hide Key, Opened, NulFree;
  }

  lemma StepKeepsCalm(hash: Hash, pads: Watcher, s: State, a: Action, f: FileName)
    requires Enabled(s, a) && Calm(hash, pads, s, f) && !Touches(pads, s, a, f)
    ensures Calm(hash, pads, Next(hash, pads, s, a), f)
    ensures Get(Next(hash, pads, s, a).uploads, f) == Get(s.uploads, f)
  {
    hide Key, Opened, NulFree;
    if Subject(s, a) != f {
      hide Next, Calm;
      ElsewhereIsSame(hash, pads, s, a, f);
      SameIsAsCalm(hash, pads, s, Next(hash, pads, s, a), f);
    }
  }

  lemma {:induction false} CalmFileIsNotUploaded(hash: Hash, pads: Watcher, s: State, actions: seq<Action>, f: FileName)
    requires Run(hash, pads, s, actions) && Calm(hash, pads, s, f) && Untouched(hash, pads, s, actions, f)
    ensures Calm(hash, pads, After(hash, pads, s, actions), f)
    ensures Get(After(hash, pads, s, actions).uploads, f) == Get(s.uploads, f)
    decreases |actions|
  {
    hide Calm, Next, Enabled, Touches;
    if actions != [] {
      StepKeepsCalm(hash, pads, s, actions[0], f);
      CalmFileIsNotUploaded(hash, pads, Next(hash, pads, s, actions[0]), actions[1..], f);
    }
  }

  /** No upload of the file is queued, whatever is notified, downloaded or done to other files, until the
      user writes it or another download upsets it. */
  ghost predicate StaysQuiet(hash: Hash, pads: Watcher, s: State, f: FileName) {
    forall after :: Run(hash, pads, s, after) && Untouched(hash, pads, s, after, f) ==>
      Get(After(hash, pads, s, after).uploads, f) == Get(s.uploads, f)
  }

  /** A noticed change is uploaded. */
  lemma ChangeIsUploaded(hash: Hash, pads: Watcher, s: State, f: FileName)
    requires s.inside.Nobody? && Get(s.pending, f) > 0 && Changed(hash, pads, s, f)
    ensures Run(hash, pads, s, [Check(f), Commit]) && Untouched(hash, pads, s, [Check(f), Commit], f)
    ensures Get(After(hash, pads, s, [Check(f), Commit]).uploads, f) == Get(s.uploads, f) + 1
  {
    hide Key, Opened, NulFree;
    var s1 := Next(hash, pads, s, Check(f));
    RunFirst(hash, pads, s1, Commit, []);
    RunFirst(hash, pads, s, Check(f), [Commit]);
    assert [Check(f), Commit] == [Check(f)] + [Commit] && [Commit] == [Commit] + [];
    assert [Check(f), Commit][1..] == [Commit] && [Commit][1..] == [];
  }

  /** Exactly when a download that was written is not sent back: when the watcher and the network use the
      same name for the file, or the hash happens to be noted under the watcher's name already. */
  lemma DownloadIsNotEchoedIff(hash: Hash, pads: Watcher, s: State, f: FileName, content: Content, events: nat)
    requires s.inside.Nobody? && events > 0 && Differs(s.dirHash, f, hash(content))
    ensures var written := Next(hash, pads, Next(hash, pads, s, Receive(f, content)), Write(true, events));
      && written.disk == s.disk[f := content]
      && (StaysQuiet(hash, pads, written, f) <==> Key(pads, f) == f || !Differs(s.dirHash, Key(pads, f), hash(content)))
  {
    hide Key, Opened, NulFree;
    var written := Next(hash, pads, Next(hash, pads, s, Receive(f, content)), Write(true, events));
    if Key(pads, f) == f || !Differs(s.dirHash, Key(pads, f), hash(content)) {
      forall after | Run(hash, pads, written, after) && Untouched(hash, pads, written, after, f)
        ensures Get(After(hash, pads, written, after).uploads, f) == Get(written.uploads, f)
      {
        CalmFileIsNotUploaded(hash, pads, written, after, f);
      }
    } else {
      ChangeIsUploaded(hash, pads, written, f);
    }
  }

  /** The watcher pads every name, so a download of any file is uploaded again although the user did
      nothing and nothing failed. */
  lemma PaddedNameEchoes(hash: Hash, pads: Watcher, f: FileName, content: Content)
    requires pads(f) > 0
    ensures var actions := [Receive(f, content), Write(true, 1), Check(f), Commit];
      && Run(hash, pads, Start(map[]), actions)
      && var s := After(hash, pads, Start(map[]), actions);
      && s.disk == map[f := content] && Get(s.edits, f) == 0 && Get(s.failures, f) == 0 && Get(s.uploads, f) == 1
  {
    hide Key, Opened, NulFree;
    var s0 := Start(map[]);
    var s1 := Next(hash, pads, s0, Receive(f, content));
    var s2 := Next(hash, pads, s1, Write(true, 1));
    var s3 := Next(hash, pads, s2, Check(f));
    assert s3.inside == Notifying(f);
    RunFirst(hash, pads, s3, Commit, []);
    RunFirst(hash, pads, s2, Check(f), [Commit]);
    RunFirst(hash, pads, s1, Write(true, 1), [Check(f), Commit]);
    RunFirst(hash, pads, s0, Receive(f, content), [Write(true, 1), Check(f), Commit]);
    assert s2.disk == map[f := content];
  }

  /** As long as every download is written, uploads of the file never exceed the user's edits of it. */
  ghost predicate NeverEchoes(hash: Hash, pads: Watcher, f: FileName) {
    forall disk, actions :: Run(hash, pads, Start(disk), actions) ==>
      var s := After(hash, pads, Start(disk), actions);
      Get(s.failures, f) == 0 ==> Get(s.uploads, f) <= Get(s.edits, f)
  }

  /** The cache prevents echoes of exactly the files whose names the watcher does not pad. */
  lemma NeverEchoesIff(hash: Hash, pads: Watcher, f: FileName)
    ensures NeverEchoes(hash, pads, f) <==> Key(pads, f) == f
  {
    hide Key, Opened, NulFree;
    if Key(pads, f) == f {
      forall disk, actions | Run(hash, pads, Start(disk), actions)
        ensures var s := After(hash, pads, Start(disk), actions);
          Get(s.failures, f) == 0 ==> Get(s.uploads, f) <= Get(s.edits, f)
      {
        UploadsAreEdits(hash, pads, disk, actions, f);
      }
    } else {
      PaddedNameEchoes(hash, pads, f, []);
    }
  }

  // ------------------------------------------------------------------ failed and spurious writes

  /** From here on, no download upsets the file. */
  predicate Reliable(hash: Hash, pads: Watcher, s: State, actions: seq<Action>, f: FileName)
    requires Run(hash, pads, s, actions)
    decreases |actions|
  {
    actions == [] ||
    (!Upsets(pads, s, actions[0], f) && Reliable(hash, pads, Next(hash, pads, s, actions[0]), actions[1..], f))
  }

  /** Uploads stay within edits, whatever happens next. */
  ghost predicate StaysWithin(hash: Hash, pads: Watcher, s: State, f: FileName) {
    forall actions :: Run(hash, pads, s, actions) && Reliable(hash, pads, s, actions, f) ==>
      Get(After(hash, pads, s, actions).uploads, f) <= Get(s.edits, f) + EditsIn(actions, f)
  }

  function EditsIn(actions: seq<Action>, f: FileName): nat {
    if actions == [] then 0
    else (if actions[0].Edit? && actions[0].f == f then 1 else 0) + EditsIn(actions[1..], f)
  }

  /** Nothing is owed to an unnoticed change: it is covered by an edit, or no notification is coming. */
  predicate Covered(hash: Hash, pads: Watcher, s: State, f: FileName) {
    && Get(s.uploads, f) <= Get(s.edits, f)
    && (Get(s.uploads, f) + Debt(hash, pads, s, f) <= Get(s.edits, f)
        || (Get(s.pending, f) == 0 && s.inside != Notifying(f)))
  }

  lemma SameIsAsCovered(hash: Hash, pads: Watcher, s: State, d: State, f: FileName)
    requires SameAt(pads, s, d, f) && Covered(hash, pads, s, f)
    ensures Covered(hash, pads, d, f)
  {
    hide Key, Opened, NulFree;
  }

  lemma EventKeepsCovered(hash: Hash, pads: Watcher, s: State, a: Action, f: FileName)
    requires GoodAt(hash, pads, s, f) && Covered(hash, pads, s, f) && Enabled(s, a) && Subject(s, a) == f
    requires a.Edit? || a.Check? || a.Commit?
    ensures Covered(hash, pads, Next(hash, pads, s, a), f)
  {
    hide Key, Opened, NulFree, Count;
  }

  lemma DownloadKeepsCovered(hash: Hash, pads: Watcher, s: State, a: Action, f: FileName)
    requires GoodAt(hash, pads, s, f) && Covered(hash, pads, s, f) && Enabled(s, a) && Subject(s, a) == f
    requires (a.Receive? || a.Write?) && !Upsets(pads, s, a, f)
    ensures Covered(hash, pads, Next(hash, pads, s, a), f)
  {
    hide Key, Opened, NulFree, Count;
  }

  lemma StepKeepsCovered(hash: Hash, pads: Watcher, s: State, a: Action, f: FileName)
    requires GoodAt(hash, pads, s, f) && Covered(hash, pads, s, f) && Enabled(s, a) && !Upsets(pads, s, a, f)
    ensures Covered(hash, pads, Next(hash, pads, s, a), f)
    ensures Get(Next(hash, pads, s, a).edits, f) == Get(s.edits, f) + if a.Edit? && a.f == f then 1 else 0
  {
    hide GoodAt, Covered, Upsets, Key, Opened, NulFree, Count;
    if Subject(s, a) != f {
      hide Next;
      ElsewhereIsSame(hash, pads, s, a, f);
      SameIsAsCovered(hash, pads, s, Next(hash, pads, s, a), f);
    } else if a.Receive? || a.Write? {
      DownloadKeepsCovered(hash, pads, s, a, f);
    } else {
      EventKeepsCovered(hash, pads, s, a, f);
    }
  }

  lemma {:induction false} CoveredRunStaysWithin(hash: Hash, pads: Watcher, s: State, actions: seq<Action>, f: FileName)
    requires GoodAt(hash, pads, s, f) && Covered(hash, pads, s, f)
    requires Run(hash, pads, s, actions) && Reliable(hash, pads, s, actions, f)
    ensures Get(After(hash, pads, s, actions).uploads, f) <= Get(s.edits, f) + EditsIn(actions, f)
    decreases |actions|
  {
    hide GoodAt, Enabled, Next, Upsets;
    if actions != [] {
      StepIsGoodAt(hash, pads, s, actions[0], f);
      StepKeepsCovered(hash, pads, s, actions[0], f);
      CoveredRunStaysWithin(hash, pads, Next(hash, pads, s, actions[0]), actions[1..], f);
    }
  }

  /** Exactly when uploads stay within edits from a reachable state on, as long as no download upsets the
      file. */
  lemma StaysWithinIff(hash: Hash, pads: Watcher, s: State, f: FileName)
    requires GoodAt(hash, pads, s, f) && s.inside.Nobody?
    ensures StaysWithin(hash, pads, s, f) <==> Covered(hash, pads, s, f)
  {
    hide Key, Opened, NulFree;
    if Covered(hash, pads, s, f) {
      forall actions | Run(hash, pads, s, actions) && Reliable(hash, pads, s, actions, f)
        ensures Get(After(hash, pads, s, actions).uploads, f) <= Get(s.edits, f) + EditsIn(actions, f)
      {
        CoveredRunStaysWithin(hash, pads, s, actions, f);
      }
    } else if Get(s.uploads, f) > Get(s.edits, f) {
      assert Run(hash, pads, s, []) && Reliable(hash, pads, s, [], f);
      assert EditsIn([], f) == 0;
    } else {
      ChangeIsUploaded(hash, pads, s, f);
      UntouchedIsReliable(hash, pads, s, [Check(f), Commit], f);
    }
  }

  lemma {:induction false} UntouchedIsReliable(hash: Hash, pads: Watcher, s: State, actions: seq<Action>, f: FileName)
    requires Run(hash, pads, s, actions) && Untouched(hash, pads, s, actions, f)
    ensures Reliable(hash, pads, s, actions, f) && EditsIn(actions, f) == 0
    decreases |actions|
  {
    if actions != [] {
      UntouchedIsReliable(hash, pads, Next(hash, pads, s, actions[0]), actions[1..], f);
    }
  }

  /** A download that could not be written breaks the rule exactly when a notification for the file is
      still coming, the file on disk is not the one noted, and every edit was uploaded already. */
  lemma FailedWriteBreaksIff(hash: Hash, pads: Watcher, s: State, f: FileName, events: nat)
    requires GoodAt(hash, pads, s, f) && s.inside.Receiving? && s.inside.f == f && events > 0
    requires Get(s.uploads, f) <= Get(s.edits, f)
    ensures var d := Next(hash, pads, s, Write(false, events));
      !StaysWithin(hash, pads, d, f) <==>
        (Get(s.pending, f) > 0 && Changed(hash, pads, s, f) && Get(s.uploads, f) == Get(s.edits, f))
  {
    hide StaysWithin, Key, Opened;
    var d := Next(hash, pads, s, Write(false, events));
    StepIsGoodAt(hash, pads, s, Write(false, events), f);
    StaysWithinIff(hash, pads, d, f);
  }

  /** A download that was written breaks the rule exactly when the watcher pads the name, the contents are
      not noted under the padded one, and every edit was uploaded already. */
  lemma WrittenDownloadBreaksIff(hash: Hash, pads: Watcher, s: State, f: FileName, events: nat)
    requires GoodAt(hash, pads, s, f) && s.inside.Receiving? && s.inside.f == f && events > 0
    requires Get(s.uploads, f) <= Get(s.edits, f)
    ensures var d := Next(hash, pads, s, Write(true, events));
      !StaysWithin(hash, pads, d, f) <==>
        (Key(pads, f) != f && Differs(s.dirHash, Key(pads, f), hash(s.inside.content))
         && Get(s.uploads, f) == Get(s.edits, f))
  {
    hide StaysWithin, Key, Opened;
    var d := Next(hash, pads, s, Write(true, events));
    StepIsGoodAt(hash, pads, s, Write(true, events), f);
    StaysWithinIff(hash, pads, d, f);
  }

  /** Without padding, for every file and any two contents that hash differently: a download is written,
      the next one is not, and the notification still pending from the first queues an upload although
      the user did nothing. */
  lemma FailedWriteCausesUpload(hash: Hash, pads: Watcher, f: FileName, first: Content, second: Content)
    requires hash(first) != hash(second) && pads(f) == 0
    ensures var actions := [Receive(f, first), Write(true, 1), Receive(f, second), Write(false, 1), Check(f), Commit];
      && Run(hash, pads, Start(map[]), actions)
      && var s := After(hash, pads, Start(map[]), actions);
      && Get(s.edits, f) == 0 && Get(s.uploads, f) == 1 && s.disk == map[f := first]
  {
    hide Key, Opened, NulFree;
    var s0 := Start(map[]);
    var s1 := Next(hash, pads, s0, Receive(f, first));
    var s2 := Next(hash, pads, s1, Write(true, 1));
    var s3 := Next(hash, pads, s2, Receive(f, second));
    var s4 := Next(hash, pads, s3, Write(false, 1));
    var s5 := Next(hash, pads, s4, Check(f));
    assert s5.inside == Notifying(f) && s2.disk == map[f := first];
    RunFirst(hash, pads, s5, Commit, []);
    RunFirst(hash, pads, s4, Check(f), [Commit]);
    RunFirst(hash, pads, s3, Write(false, 1), [Check(f), Commit]);
    RunFirst(hash, pads, s2, Receive(f, second), [Write(false, 1), Check(f), Commit]);
    RunFirst(hash, pads, s1, Write(true, 1), [Receive(f, second), Write(false, 1), Check(f), Commit]);
    RunFirst(hash, pads, s0, Receive(f, first),
             [Write(true, 1), Receive(f, second), Write(false, 1), Check(f), Commit]);
  }

  // ------------------------------------------------------------------ downloads that are dropped

  /** Nothing of the file's is under way, and the last download of it did not fail. */
  predicate AtRest(s: State, f: FileName) {
    Get(s.pending, f) == 0 && !Busy(s, f) && f !in s.failed
  }

  /** A download is only ever dropped as nothing new when the file at rest has its hash. */
  ghost predicate DropsOnlyKnown(hash: Hash, pads: Watcher, f: FileName) {
    forall disk, actions, content: Content ::
      Run(hash, pads, Start(disk), actions)
      && DroppedAtRest(hash, After(hash, pads, Start(disk), actions), f, content) ==>
        HashFile(hash, After(hash, pads, Start(disk), actions).disk, f) == hash(content)
  }

  predicate DroppedAtRest(hash: Hash, s: State, f: FileName, content: Content) {
    AtRest(s, f) && !Differs(s.dirHash, f, hash(content))
  }

  lemma UnpaddedDropsOnlyKnown(hash: Hash, pads: Watcher, s: State, f: FileName, content: Content)
    requires GoodAt(hash, pads, s, f) && pads(f) == 0 && DroppedAtRest(hash, s, f, content)
    ensures f in s.disk && hash(s.disk[f]) == hash(content)
  {
    hide Key, Opened, NulFree;
  }

  /** The user replaces a downloaded file; when the network then brings the downloaded contents back, they
      are dropped. */
  lemma PaddedNameDropsDownload(hash: Hash, pads: Watcher, f: FileName, first: Content, second: Content)
    returns (actions: seq<Action>)
    requires hash(first) != hash(second) && pads(f) > 0
    ensures Run(hash, pads, Start(map[]), actions)
    ensures var s := After(hash, pads, Start(map[]), actions);
      DroppedAtRest(hash, s, f, first) && s.disk == map[f := second]
  {
    hide Key, Opened, NulFree;
    var s0 := Start(map[]);
    var s1 := Next(hash, pads, s0, Receive(f, first));
    var s2 := Next(hash, pads, s1, Write(true, 1));
    var s3 := Next(hash, pads, s2, Edit(f, second, 1));
    var s4 := Next(hash, pads, s3, Check(f));
    assert s4.inside == Notifying(f);
    RunFirst(hash, pads, s4, Commit, []);
    RunFirst(hash, pads, s3, Check(f), [Commit] + []);
    RunFirst(hash, pads, s2, Edit(f, second, 1), [Check(f)] + ([Commit] + []));
    RunFirst(hash, pads, s1, Write(true, 1), [Edit(f, second, 1)] + ([Check(f)] + ([Commit] + [])));
    actions := [Write(true, 1)] + ([Edit(f, second, 1)] + ([Check(f)] + ([Commit] + [])));
    RunFirst(hash, pads, s0, Receive(f, first), actions);
    actions := [Receive(f, first)] + actions;
    assert s3.disk == map[f := second];
  }

  /** Exactly the files whose names the watcher does not pad never lose a download. */
  lemma DropsOnlyKnownIff(hash: Hash, pads: Watcher, f: FileName, first: Content, second: Content)
    requires hash(first) != hash(second)
    ensures DropsOnlyKnown(hash, pads, f) <==> Key(pads, f) == f
  {
    hide Key, Opened, NulFree;
    if Key(pads, f) == f {
      forall disk, actions, content: Content |
        Run(hash, pads, Start(disk), actions)
        && DroppedAtRest(hash, After(hash, pads, Start(disk), actions), f, content)
        ensures HashFile(hash, After(hash, pads, Start(disk), actions).disk, f) == hash(content)
      {
        RunIsGoodAt(hash, pads, Start(disk), actions, f);
        UnpaddedDropsOnlyKnown(hash, pads, After(hash, pads, Start(disk), actions), f, content);
      }
    } else {
      var actions := PaddedNameDropsDownload(hash, pads, f, first, second);
    }
  }

  // ------------------------------------------------------------------ the code, undisturbed

  class App {
    const hash: Hash
    var disk: map<FileName, Content>
    var dirHash: map<Bytes, u64>
    var uploads: seq<Bytes>      // the names in the upload tasks submitted to the network

    constructor (hash: Hash, disk: map<FileName, Content>)
      ensures this.hash == hash && this.disk == disk && dirHash == map[] && uploads == []
    {
      this.hash := hash;
      this.disk := disk;
      dirHash := map[];
      uploads := [];
    }

    /** `notify_modified` and `notify_new_file`: a file is uploaded exactly when its hash is news under the
        name given, and then it is news no longer. */
    method NotifyModified(name: Bytes)
      modifies this`dirHash, this`uploads
      ensures uploads == old(uploads)
        + if Differs(old(dirHash), name, HashFile(hash, disk, Opened(name))) then [name] else []
      ensures dirHash == old(dirHash)[name := if Opened(name) in disk then hash(disk[Opened(name)]) else 0]
    {
      if name !in dirHash || dirHash[name] != HashFile(hash, disk, Opened(name)) {
        dirHash := dirHash[name := HashFile(hash, disk, Opened(name))];
        uploads := uploads + [name];
      }
    }

    /** Contents that are news are written, and their hash is noted first. */
    method NetworkModified(f: FileName, content: Content) returns (failed: bool)
      modifies this`dirHash, this`disk
      ensures dirHash == old(dirHash)[f := hash(content)]
      ensures disk == if Differs(old(dirHash), f, hash(content)) && !failed then old(disk)[f := content] else old(disk)
      ensures failed ==> Differs(old(dirHash), f, hash(content))
    {
      failed := false;
      var h := hash(content);
      if f !in dirHash || dirHash[f] != h {
        dirHash := dirHash[f := h];
        failed := *;
        if !failed {
          disk := disk[f := content];
        }
      }
    }
  }
}
