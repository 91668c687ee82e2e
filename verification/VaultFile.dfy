/**
 The vault file and the processes that share it. A holder keeps the bytes it loaded; a save takes
 the lock, reads the file, compares it with those bytes and renames a new blob over it, each as a
 separate step. Sealing is abstracted to drawing a blob never seen before.
 */
module VaultFile {
  import opened Basics

  type Path = nat
  type Blob = nat

  datatype Owner = Holding(holder: nat) | Calling(call: nat)

  /** A vault in memory. `known` is history: the version it loaded or last wrote. */
  datatype Holder = Holder(
    snapshot: Option<Blob>,
    transaction: Option<Path>,    // the path whose lock it keeps
    guard: Option<nat>,           // the save that has its snapshot mutex
    known: Option<Blob>,
    ready: bool)                  // it has been loaded

  datatype Phase =
    | Sealed
    | Locked
    | Guarded
    | Read(current: Option<Blob>)
    | Matched
    | Renamed
    | Saved
    | Failed
    | Unsynced                          // reported as a failure, but the new blob is the file

  datatype Call = Call(holder: nat, path: Path, blob: Blob, phase: Phase)

  /** History of one rename: what it replaced, and what its holder knew. */
  datatype Entry = Entry(path: Path, parent: Option<Blob>, blob: Blob, known: Option<Blob>)

  datatype State = State(
    files: map<Path, Blob>,
    locks: map<Path, Owner>,
    holders: map<nat, Holder>,
    calls: map<nat, Call>,
    nextBlob: Blob,
    log: seq<Entry>)

  function Init(files: map<Path, Blob>, nextBlob: Blob): State { State(files, map[], map[], map[], nextBlob, []) }

  function Content(s: State, p: Path): Option<Blob> {
    if p in s.files then Some(s.files[p]) else None
  }

  datatype Step =
    | Load(holder: nat, path: Path)
    | LoadLock(holder: nat, path: Path)
    | LoadRead(holder: nat)
    | Drop(holder: nat)                 // the vault goes away, or its process dies
    | Seal(call: nat, holder: nat, path: Path)
    | Lock(call: nat)
    | Guard(call: nat)
    | ReadFile(call: nat)
    | Compare(call: nat)
    | Rename(call: nat)
    | Finish(call: nat)
    | Fail(call: nat)                   // an I/O error before the rename
    | SyncFail(call: nat)               // the directory cannot be synced after the rename

  predicate At(s: State, c: nat, phase: Phase) {
    c in s.calls && s.calls[c].phase == phase && s.calls[c].holder in s.holders
  }

  predicate Owns(s: State, c: nat) {
    && c in s.calls && s.calls[c].path in s.locks
    && (|| s.locks[s.calls[c].path] == Calling(c)
        || s.locks[s.calls[c].path] == Holding(s.calls[c].holder))
  }

  predicate Can(s: State, step: Step) {
    match step
    case Load(h, p) => h !in s.holders
    case LoadLock(h, p) => h !in s.holders && p !in s.locks
    case LoadRead(h) => h in s.holders && !s.holders[h].ready && s.holders[h].transaction.Some?
    case Drop(h) => h in s.holders
    case Seal(c, h, p) => c !in s.calls && h in s.holders && s.holders[h].ready
    case Lock(c) => At(s, c, Sealed)
    case Guard(c) => At(s, c, Locked) && s.holders[s.calls[c].holder].guard.None?
    case ReadFile(c) => At(s, c, Guarded)
    case Compare(c) => c in s.calls && s.calls[c].phase.Read? && s.calls[c].holder in s.holders
    case Rename(c) => At(s, c, Matched)
    case Finish(c) => At(s, c, Renamed)
    case Fail(c) => c in s.calls && Open(s.calls[c].phase) && !s.calls[c].phase.Renamed?
    case SyncFail(c) => At(s, c, Renamed)
  }

  predicate Open(phase: Phase) { !phase.Saved? && !phase.Failed? && !phase.Unsynced? }

  function Phased(s: State, c: nat, phase: Phase): State
    requires c in s.calls
  {
    s.(calls := s.calls[c := s.calls[c].(phase := phase)])
  }

  function WithHolder(s: State, h: nat, holder: Holder): State { s.(holders := s.holders[h := holder]) }

  /** Gives up what the save holds: its own lock, and the guard of its holder. */
  function Released(s: State, c: nat): State
    requires c in s.calls
  {
    var call := s.calls[c];
    var s1 := if call.path in s.locks && s.locks[call.path] == Calling(c) then s.(locks := s.locks - {call.path}) else s;
    if call.holder in s.holders && s.holders[call.holder].guard == Some(c)
    then WithHolder(s1, call.holder, s.holders[call.holder].(guard := None)) else s1
  }

  /** After the rename: the holder has what it wrote, whatever the call then reports. */
  function Ended(s: State, c: nat, phase: Phase): State
    requires c in s.calls && s.calls[c].holder in s.holders
  {
    var call := s.calls[c];
    Released(Phased(WithHolder(s, call.holder, s.holders[call.holder].(snapshot := Some(call.blob))), c, phase), c)
  }

  function Unlocked(s: State, h: nat): map<Path, Owner> {
    map p | p in s.locks && s.locks[p] != Holding(h)
            && !(s.locks[p].Calling? && s.locks[p].call in s.calls && s.calls[s.locks[p].call].holder == h) :: s.locks[p]
  }

  function Next(s: State, step: Step): State
    requires Can(s, step)
  {
    match step
    case Load(h, p) => WithHolder(s, h, Holder(Content(s, p), None, None, Content(s, p), true))
    case LoadLock(h, p) =>
      WithHolder(s, h, Holder(None, Some(p), None, None, false)).(locks := s.locks[p := Holding(h)])
    case LoadRead(h) =>
      var now := Content(s, s.holders[h].transaction.value);
      WithHolder(s, h, s.holders[h].(snapshot := now, known := now, ready := true))
    case Drop(h) =>
      s.(holders := s.holders - {h}, locks := Unlocked(s, h),
         calls := map c | c in s.calls && s.calls[c].holder != h :: s.calls[c])
    case Seal(c, h, p) => s.(calls := s.calls[c := Call(h, p, s.nextBlob, Sealed)], nextBlob := s.nextBlob + 1)
    case Lock(c) =>
      var call := s.calls[c];
      var transaction := s.holders[call.holder].transaction;
      if transaction.Some? then Phased(s, c, if transaction.value == call.path then Locked else Failed)
      else if call.path in s.locks then Phased(s, c, Failed)
      else Phased(s, c, Locked).(locks := s.locks[call.path := Calling(c)])
    case Guard(c) =>
      WithHolder(Phased(s, c, Guarded), s.calls[c].holder, s.holders[s.calls[c].holder].(guard := Some(c)))
    case ReadFile(c) => Phased(s, c, Read(Content(s, s.calls[c].path)))
    case Compare(c) =>
      if s.calls[c].phase.current == s.holders[s.calls[c].holder].snapshot then Phased(s, c, Matched)
      else Phased(Released(s, c), c, Failed)
    case Rename(c) =>
      var call := s.calls[c];
      var h := s.holders[call.holder];
      WithHolder(Phased(s, c, Renamed), call.holder, h.(known := Some(call.blob)))
        .(files := s.files[call.path := call.blob],
          log := s.log + [Entry(call.path, Content(s, call.path), call.blob, h.known)])
    case Finish(c) => Ended(s, c, Saved)
    case Fail(c) => Phased(Released(s, c), c, Failed)
    case SyncFail(c) => Ended(s, c, Unsynced)
  }

  // --- invariant -------------------------------------------------------------------------

  predicate Critical(phase: Phase) { phase.Guarded? || phase.Read? || phase.Matched? || phase.Renamed? }

  /** A save past its guard has the path's lock, its holder's guard, and a file nobody else moves. */
  predicate CallOk(s: State, c: nat)
    requires c in s.calls
  {
    var call := s.calls[c];
    && call.blob < s.nextBlob && call.holder in s.holders
    && (call.phase.Locked? ==> Owns(s, c))
    && (Critical(call.phase) ==> Owns(s, c) && s.holders[call.holder].guard == Some(c))
    && (call.phase.Read? ==> call.phase.current == Content(s, call.path))
    && (call.phase.Matched? ==> s.holders[call.holder].snapshot == Content(s, call.path))
    && (call.phase.Renamed? ==> s.holders[call.holder].known == Some(call.blob) == Content(s, call.path))
  }

  predicate HolderOk(s: State, h: nat)
    requires h in s.holders
  {
    var holder := s.holders[h];
    && (holder.transaction.Some? ==>
          holder.transaction.value in s.locks && s.locks[holder.transaction.value] == Holding(h))
    && (holder.guard.Some? ==>
          && holder.guard.value in s.calls && s.calls[holder.guard.value].holder == h
          && Critical(s.calls[holder.guard.value].phase))
    && (!holder.ready ==> forall c :: c in s.calls ==> s.calls[c].holder != h)
    && (holder.known == holder.snapshot
        || (holder.guard.Some? && holder.guard.value in s.calls && s.calls[holder.guard.value].phase.Renamed?))
  }

  predicate LockOk(s: State, p: Path)
    requires p in s.locks
  {
    match s.locks[p]
    case Holding(h) => h in s.holders && s.holders[h].transaction == Some(p)
    case Calling(c) =>
      && c in s.calls && s.calls[c].path == p && Open(s.calls[c].phase) && !s.calls[c].phase.Sealed?
      && s.calls[c].holder in s.holders && s.holders[s.calls[c].holder].transaction.None?
  }

  predicate CallsOk(s: State) { forall c :: c in s.calls ==> CallOk(s, c) }
  predicate HoldersOk(s: State) { forall h :: h in s.holders ==> HolderOk(s, h) }
  predicate LocksOk(s: State) { forall p :: p in s.locks ==> LockOk(s, p) }
  predicate Inv(s: State) { CallsOk(s) && HoldersOk(s) && LocksOk(s) }

  /** Two saves past their guards never share a path. */
  lemma OneWriter(s: State, c: nat, d: nat)
    requires Inv(s) && c in s.calls && d in s.calls && s.calls[c].path == s.calls[d].path
    requires Critical(s.calls[c].phase) && Critical(s.calls[d].phase)
    ensures c == d
  {
    assert CallOk(s, c) && CallOk(s, d) && LockOk(s, s.calls[c].path);
  }

  lemma LoadKeeps(s: State, step: Step)
    requires Inv(s) && Can(s, step) && (step.Load? || step.LoadLock? || step.LoadRead?)
    ensures Inv(Next(s, step))
  {
    var s' := Next(s, step);
    forall c | c in s'.calls ensures CallOk(s', c) { assert CallOk(s, c); }
    forall h | h in s'.holders ensures HolderOk(s', h) { if h in s.holders { assert HolderOk(s, h); } }
    forall p | p in s'.locks ensures LockOk(s', p) { if p in s.locks { assert LockOk(s, p); } }
  }

  lemma DropKeeps(s: State, h: nat)
    requires Inv(s) && Can(s, Drop(h))
    ensures Inv(Next(s, Drop(h)))
  {
    var s' := Next(s, Drop(h));
    forall c | c in s'.calls ensures CallOk(s', c) { assert CallOk(s, c); }
    forall k | k in s'.holders ensures HolderOk(s', k) { assert HolderOk(s, k); }
    forall p | p in s'.locks ensures LockOk(s', p) { assert LockOk(s, p); }
  }

  lemma SealKeeps(s: State, c: nat, h: nat, p: Path)
    requires Inv(s) && Can(s, Seal(c, h, p))
    ensures Inv(Next(s, Seal(c, h, p)))
  {
    var s' := Next(s, Seal(c, h, p));
    forall d | d in s'.calls ensures CallOk(s', d) { if d != c { assert CallOk(s, d); } }
    forall k | k in s'.holders ensures HolderOk(s', k) { assert HolderOk(s, k); }
    forall q | q in s'.locks ensures LockOk(s', q) { assert LockOk(s, q); }
  }

  lemma LockKeeps(s: State, c: nat)
    requires Inv(s) && Can(s, Lock(c))
    ensures Inv(Next(s, Lock(c)))
  {
    var s' := Next(s, Lock(c));
    assert CallOk(s, c) && HolderOk(s, s.calls[c].holder);
    forall d | d in s'.calls ensures CallOk(s', d) { assert CallOk(s, d); }
    forall k | k in s'.holders ensures HolderOk(s', k) { assert HolderOk(s, k); }
    forall q | q in s'.locks ensures LockOk(s', q) { if q in s.locks { assert LockOk(s, q); } }
  }

  /** Steps of a save between its lock and its rename that change its phase, and maybe its guard. */
  lemma InsideKeeps(s: State, step: Step)
    requires Inv(s) && Can(s, step) && (step.Guard? || step.ReadFile?)
    ensures Inv(Next(s, step))
  {
    var s' := Next(s, step);
    assert CallOk(s, step.call) && HolderOk(s, s.calls[step.call].holder);
    forall d | d in s'.calls ensures CallOk(s', d) { assert CallOk(s, d); }
    forall k | k in s'.holders ensures HolderOk(s', k) { assert HolderOk(s, k); }
    forall q | q in s'.locks ensures LockOk(s', q) { assert LockOk(s, q); }
  }

  lemma MatchKeeps(s: State, c: nat)
    requires Inv(s) && c in s.calls && s.calls[c].phase.Read? && s.calls[c].holder in s.holders
    requires s.calls[c].phase.current == s.holders[s.calls[c].holder].snapshot
    ensures Inv(Phased(s, c, Matched))
  {
    var s' := Phased(s, c, Matched);
    assert CallOk(s, c);
    forall d | d in s'.calls ensures CallOk(s', d) { assert CallOk(s, d); }
    forall k | k in s'.holders ensures HolderOk(s', k) { assert HolderOk(s, k); }
    forall q | q in s'.locks ensures LockOk(s', q) { assert LockOk(s, q); }
  }

  /** The save `c` closes: it gives up its own lock and its guard, and nothing else moves. */
  ghost predicate Ends(s: State, s': State, c: nat)
    requires c in s.calls
  {
    var call := s.calls[c];
    var h := call.holder;
    && s' == s.(calls := s'.calls, holders := s'.holders, locks := s'.locks)
    && s'.calls.Keys == s.calls.Keys && h in s.holders && s'.holders.Keys == s.holders.Keys
    && (forall d :: d in s.calls && d != c ==> s'.calls[d] == s.calls[d])
    && s'.calls[c] == call.(phase := s'.calls[c].phase) && !Open(s'.calls[c].phase)
    && (forall k :: k in s.holders && k != h ==> s'.holders[k] == s.holders[k])
    && (if s.holders[h].guard == Some(c)
        then && s'.holders[h] == s.holders[h].(guard := None, snapshot := s'.holders[h].snapshot)
             && s'.holders[h].snapshot == s.holders[h].known
        else s'.holders[h] == s.holders[h])
    && (forall p :: p in s'.locks <==> p in s.locks && s.locks[p] != Calling(c))
    && (forall p :: p in s'.locks ==> s'.locks[p] == s.locks[p])
  }

  lemma EndKeepsCalls(s: State, s': State, c: nat)
    requires Inv(s) && c in s.calls && Ends(s, s', c)
    ensures CallsOk(s')
  {
    forall d | d in s'.calls ensures CallOk(s', d) {
      assert CallOk(s, d);
      if d != c && (s.calls[d].phase.Locked? || Critical(s.calls[d].phase)) {
        assert s.locks[s.calls[d].path] != Calling(c);
      }
    }
  }

  lemma EndKeepsHolders(s: State, s': State, c: nat)
    requires Inv(s) && c in s.calls && Ends(s, s', c)
    ensures HoldersOk(s')
  {
    forall k | k in s'.holders ensures HolderOk(s', k) { assert HolderOk(s, k); }
  }

  lemma EndKeepsLocks(s: State, s': State, c: nat)
    requires Inv(s) && c in s.calls && Ends(s, s', c)
    ensures LocksOk(s')
  {
    forall p | p in s'.locks ensures LockOk(s', p) { assert LockOk(s, p); }
  }

  lemma EndKeeps(s: State, s': State, c: nat)
    requires Inv(s) && c in s.calls && Ends(s, s', c)
    ensures Inv(s')
  {
    EndKeepsCalls(s, s', c);
    EndKeepsHolders(s, s', c);
    EndKeepsLocks(s, s', c);
    hide CallsOk, HoldersOk, LocksOk;
  }

  lemma OwnLockOnly(s: State, c: nat)
    requires Inv(s) && c in s.calls
    ensures forall p :: p in s.locks && s.locks[p] == Calling(c) ==> p == s.calls[c].path
  {
    forall p | p in s.locks && s.locks[p] == Calling(c) ensures p == s.calls[c].path { assert LockOk(s, p); }
  }

  lemma ReleasedEnds(s: State, c: nat)
    requires c in s.calls && s.calls[c].holder in s.holders
    requires forall p :: p in s.locks && s.locks[p] == Calling(c) ==> p == s.calls[c].path
    requires var h := s.holders[s.calls[c].holder]; h.guard == Some(c) ==> h.snapshot == h.known
    ensures Ends(s, Phased(Released(s, c), c, Failed), c)
  {
  }

  lemma FinishedEnds(s: State, c: nat, phase: Phase)
    requires At(s, c, Renamed) && s.holders[s.calls[c].holder].guard == Some(c) && !Open(phase)
    requires forall p :: p in s.locks && s.locks[p] == Calling(c) ==> p == s.calls[c].path
    requires s.holders[s.calls[c].holder].known == Some(s.calls[c].blob)
    ensures Ends(s, Ended(s, c, phase), c)
  {
  }

  lemma ReleaseKeeps(s: State, c: nat)
    requires Inv(s) && c in s.calls && Open(s.calls[c].phase) && !s.calls[c].phase.Renamed?
    ensures Inv(Phased(Released(s, c), c, Failed))
  {
    assert CallOk(s, c) && HolderOk(s, s.calls[c].holder);
    OwnLockOnly(s, c);
    hide Inv, CallOk, Ends, Released, Phased;
    ReleasedEnds(s, c);
    EndKeeps(s, Phased(Released(s, c), c, Failed), c);
  }

  lemma RenameKeeps(s: State, c: nat)
    requires Inv(s) && Can(s, Rename(c))
    ensures Inv(Next(s, Rename(c)))
    ensures s.holders[s.calls[c].holder].known == Content(s, s.calls[c].path)
  {
    var s' := Next(s, Rename(c));
    assert CallOk(s, c) && HolderOk(s, s.calls[c].holder);
    forall d | d in s'.calls ensures CallOk(s', d) {
      assert CallOk(s, d);
      if d != c && Critical(s.calls[d].phase) && s.calls[d].path == s.calls[c].path { OneWriter(s, c, d); }
    }
    forall k | k in s'.holders ensures HolderOk(s', k) { assert HolderOk(s, k); }
    forall q | q in s'.locks ensures LockOk(s', q) { assert LockOk(s, q); }
  }

  lemma EndedKeeps(s: State, c: nat, phase: Phase)
    requires Inv(s) && At(s, c, Renamed) && !Open(phase)
    ensures Inv(Ended(s, c, phase))
  {
    assert CallOk(s, c);
    OwnLockOnly(s, c);
    hide Inv, Ends, Ended;
    FinishedEnds(s, c, phase);
    EndKeeps(s, Ended(s, c, phase), c);
  }

  lemma StepKeeps(s: State, step: Step)
    requires Inv(s) && Can(s, step)
    ensures Inv(Next(s, step))
  {
    hide Inv;
    match step
    case Load(_, _) => LoadKeeps(s, step);
    case LoadLock(_, _) => LoadKeeps(s, step);
    case LoadRead(_) => LoadKeeps(s, step);
    case Drop(h) => DropKeeps(s, h);
    case Seal(c, h, p) => SealKeeps(s, c, h, p);
    case Lock(c) => LockKeeps(s, c);
    case Guard(_) => InsideKeeps(s, step);
    case ReadFile(_) => InsideKeeps(s, step);
    case Compare(c) =>
      if s.calls[c].phase.current == s.holders[s.calls[c].holder].snapshot { MatchKeeps(s, c); } else { ReleaseKeeps(s, c); }
    case Rename(c) => RenameKeeps(s, c);
    case Finish(c) => EndedKeeps(s, c, Saved);
    case Fail(c) => ReleaseKeeps(s, c);
    case SyncFail(c) => EndedKeeps(s, c, Unsynced);
  }

  // --- the chain of versions -------------------------------------------------------------

  /** The version at `p` after these renames. */
  function LastOn(files: map<Path, Blob>, log: seq<Entry>, p: Path): Option<Blob> {
    if log == [] then (if p in files then Some(files[p]) else None)
    else if log[|log| - 1].path == p then Some(log[|log| - 1].blob)
    else LastOn(files, log[..|log| - 1], p)
  }

  ghost predicate Chain(files: map<Path, Blob>, log: seq<Entry>) {
    forall i :: 0 <= i < |log| ==>
      log[i].known == log[i].parent == LastOn(files, log[..i], log[i].path)
  }

  ghost predicate Recorded(files: map<Path, Blob>, s: State) {
    Chain(files, s.log) && forall p: Path :: Content(s, p) == LastOn(files, s.log, p)
  }

  lemma ChainKeeps(files: map<Path, Blob>, s: State, step: Step)
    requires Inv(s) && Can(s, step) && Recorded(files, s)
    ensures Recorded(files, Next(s, step))
  {
    var s' := Next(s, step);
    if step.Rename? {
      RenameKeeps(s, step.call);
      RenameRecords(files, s, step.call);
    } else {
      OthersWriteNothing(s, step);
    }
  }

  lemma OthersWriteNothing(s: State, step: Step)
    requires Can(s, step) && !step.Rename?
    ensures Next(s, step).files == s.files && Next(s, step).log == s.log
  {
  }

  lemma RenameRecords(files: map<Path, Blob>, s: State, c: nat)
    requires Can(s, Rename(c)) && Recorded(files, s)
    requires s.holders[s.calls[c].holder].known == Content(s, s.calls[c].path)
    ensures Recorded(files, Next(s, Rename(c)))
  {
    var s' := Next(s, Rename(c));
    var n := |s.log|;
    assert s'.log[..n] == s.log;
    forall i | 0 <= i < |s'.log|
      ensures s'.log[i].known == s'.log[i].parent == LastOn(files, s'.log[..i], s'.log[i].path)
    {
      if i < n { assert s'.log[..i] == s.log[..i] && s'.log[i] == s.log[i]; }
    }
    forall p: Path ensures Content(s', p) == LastOn(files, s'.log, p) {
      assert Content(s, p) == LastOn(files, s.log, p);
    }
  }

  // --- versions are never reused ---------------------------------------------------------

  predicate Written(phase: Phase) { phase.Renamed? || phase.Saved? || phase.Unsynced? }

  predicate In(log: seq<Entry>, b: Blob) { exists i :: 0 <= i < |log| && log[i].blob == b }

  /** Every blob on disk or in the log was drawn once, and the log has those of exactly the saves
      that got as far as their rename. */
  ghost predicate Unique(files: map<Path, Blob>, s: State) {
    && (forall b :: b in files.Values ==> b < s.nextBlob)
    && (forall i :: 0 <= i < |s.log| ==> s.log[i].blob < s.nextBlob && s.log[i].blob !in files.Values)
    && (forall i, j :: 0 <= i < j < |s.log| ==> s.log[i].blob != s.log[j].blob)
    && (forall c :: c in s.calls ==> s.calls[c].blob < s.nextBlob && s.calls[c].blob !in files.Values)
    && (forall c :: c in s.calls ==> (Written(s.calls[c].phase) <==> In(s.log, s.calls[c].blob)))
    && (forall c, d :: c in s.calls && d in s.calls && c != d ==> s.calls[c].blob != s.calls[d].blob)
  }

  /** The saves after the step are saves of before, as far along in what they have written. */
  lemma SameBlobs(s: State, step: Step)
    requires Can(s, step) && !step.Seal? && !step.Rename?
    ensures var s' := Next(s, step);
            && s'.nextBlob == s.nextBlob && s'.log == s.log
            && forall c :: c in s'.calls ==>
                 && c in s.calls && s'.calls[c].blob == s.calls[c].blob
                 && (Written(s'.calls[c].phase) <==> Written(s.calls[c].phase))
  {
    hide Content, Unlocked;
    if step.Fail? || step.Compare? {
      assert Released(s, step.call).calls == s.calls;
      hide Released;
    } else if step.Finish? || step.SyncFail? {
      EndOnlyCloses(s, step.call, if step.Finish? then Saved else Unsynced);
      hide Ended;
    }
  }

  lemma EndOnlyCloses(s: State, c: nat, phase: Phase)
    requires At(s, c, Renamed)
    ensures Ended(s, c, phase) == s.(calls := s.calls[c := s.calls[c].(phase := phase)],
                                     holders := Ended(s, c, phase).holders, locks := Ended(s, c, phase).locks)
  {
  }

  lemma RenameIsNew(files: map<Path, Blob>, s: State, c: nat)
    requires Can(s, Rename(c)) && Unique(files, s)
    ensures Unique(files, Next(s, Rename(c)))
  {
    var s' := Next(s, Rename(c));
    var e := s'.log[|s.log|];
    assert s'.log == s.log + [e] && e.blob == s.calls[c].blob && s'.nextBlob == s.nextBlob;
    assert s'.calls == s.calls[c := s.calls[c].(phase := Renamed)];
    hide Next, Unique;
    WrittenOnce(files, s, s', c, e);
  }

  lemma WrittenOnce(files: map<Path, Blob>, s: State, s': State, c: nat, e: Entry)
    requires Unique(files, s) && c in s.calls && !Written(s.calls[c].phase)
    requires s'.log == s.log + [e] && e.blob == s.calls[c].blob && s'.nextBlob == s.nextBlob
    requires s'.calls == s.calls[c := s.calls[c].(phase := Renamed)]
    ensures Unique(files, s')
  {
    assert !In(s.log, e.blob);
    forall x ensures In(s'.log, x) <==> In(s.log, x) || x == e.blob { InLonger(s.log, e, x); }
    forall i | 0 <= i < |s.log| ensures s.log[i].blob != e.blob { NotInMeans(s.log, e.blob, i); }
    hide In;
  }

  lemma InLonger(log: seq<Entry>, e: Entry, x: Blob)
    ensures In(log + [e], x) <==> In(log, x) || x == e.blob
  {
    if In(log, x) {
      var i :| 0 <= i < |log| && log[i].blob == x;
      assert (log + [e])[i].blob == x;
    }
    assert (log + [e])[|log|].blob == e.blob;
  }

  lemma NotInMeans(log: seq<Entry>, b: Blob, i: nat)
    requires !In(log, b) && i < |log|
    ensures log[i].blob != b
  {
  }

  lemma UniqueKeeps(files: map<Path, Blob>, s: State, step: Step)
    requires Can(s, step) && Unique(files, s)
    ensures Unique(files, Next(s, step))
  {
    if step.Rename? {
      RenameIsNew(files, s, step.call);
    } else if step.Seal? {
      assert !In(s.log, s.nextBlob);
    } else {
      SameBlobs(s, step);
      hide Next, Can;
    }
  }

  // --- runs ------------------------------------------------------------------------------

  predicate Runs(s: State, steps: seq<Step>, end: State)
    decreases |steps|
  {
    if steps == [] then end == s
    else Can(s, steps[0]) && Runs(Next(s, steps[0]), steps[1..], end)
  }

  lemma {:induction false} RunKeeps(files: map<Path, Blob>, s: State, steps: seq<Step>, end: State)
    requires Inv(s) && Recorded(files, s) && Unique(files, s) && Runs(s, steps, end)
    ensures Inv(end) && Recorded(files, end) && Unique(files, end)
    decreases |steps|
  {
    hide Inv, Recorded, Unique, Can, Next;
    if steps != [] {
      StepKeeps(s, steps[0]);
      ChainKeeps(files, s, steps[0]);
      UniqueKeeps(files, s, steps[0]);
      RunKeeps(files, Next(s, steps[0]), steps[1..], end);
    }
  }

  lemma StartsFresh(files: map<Path, Blob>, nextBlob: Blob)
    requires forall b :: b in files.Values ==> b < nextBlob
    ensures Inv(Init(files, nextBlob)) && Recorded(files, Init(files, nextBlob)) && Unique(files, Init(files, nextBlob))
  {
  }

  /** No update is lost: over every interleaving of any number of holders and saves, each rename
      replaced exactly the version its holder had loaded or last written, which was the latest one
      there; the file is always the newest version; and no version comes twice. */
  lemma NoLostUpdates(files: map<Path, Blob>, nextBlob: Blob, steps: seq<Step>, s: State)
    requires (forall b :: b in files.Values ==> b < nextBlob) && Runs(Init(files, nextBlob), steps, s)
    ensures forall i :: 0 <= i < |s.log| ==>
              s.log[i].parent == s.log[i].known == LastOn(files, s.log[..i], s.log[i].path)
    ensures forall p: Path :: Content(s, p) == LastOn(files, s.log, p)
    ensures forall i, j :: 0 <= i < j < |s.log| ==> s.log[i].blob != s.log[j].blob
    ensures forall i :: 0 <= i < |s.log| ==> s.log[i].blob !in files.Values
  {
    RunKeeps(files, Init(files, nextBlob), steps, s);
  }

  /** What a save's report says about the disk. A success is in the chain of versions. A failure is
      not, with one exception: when the rename was done and only syncing the directory failed, the
      call reports a failure although its blob became the file. */
  lemma WrittenIffSavedOrUnsynced(files: map<Path, Blob>, nextBlob: Blob, steps: seq<Step>, s: State, c: nat)
    requires (forall b :: b in files.Values ==> b < nextBlob) && Runs(Init(files, nextBlob), steps, s)
    requires c in s.calls && !Open(s.calls[c].phase)
    ensures In(s.log, s.calls[c].blob) <==> s.calls[c].phase.Saved? || s.calls[c].phase.Unsynced?
  {
    RunKeeps(files, Init(files, nextBlob), steps, s);
  }

  /** Either way the holder knows what it left on disk, so its next save of the path is not refused
      for the version it wrote itself. */
  lemma EndedHolderKnowsTheFile(files: map<Path, Blob>, nextBlob: Blob, steps: seq<Step>, s: State, c: nat)
    requires (forall b :: b in files.Values ==> b < nextBlob) && Runs(Init(files, nextBlob), steps, s)
    requires At(s, c, Renamed)
    ensures forall step :: step == Finish(c) || step == SyncFail(c) ==>
              && Content(Next(s, step), s.calls[c].path) == Some(s.calls[c].blob)
              && s.calls[c].holder in Next(s, step).holders
              && Next(s, step).holders[s.calls[c].holder].snapshot == Some(s.calls[c].blob)
  {
    StartsFresh(files, nextBlob);
    hide Inv, Next, Runs, Recorded, Unique;
    RunKeeps(files, Init(files, nextBlob), steps, s);
    KnowsTheFile(s, c);
  }

  lemma KnowsTheFile(s: State, c: nat)
    requires Inv(s) && At(s, c, Renamed)
    ensures forall step :: step == Finish(c) || step == SyncFail(c) ==>
              && Content(Next(s, step), s.calls[c].path) == Some(s.calls[c].blob)
              && s.calls[c].holder in Next(s, step).holders
              && Next(s, step).holders[s.calls[c].holder].snapshot == Some(s.calls[c].blob)
  {
    assert CallOk(s, c);
    hide Inv, CallOk;
  }

  /** One holder and its one save of a file that was not there, at each phase of the save. */
  function LoneSave(p: Path, phase: Phase): State {
    State(if Written(phase) then map[p := 0] else map[],
          if phase.Sealed? || !Open(phase) then map[] else map[p := Calling(0)],
          map[0 := Holder(if phase.Unsynced? then Some(0) else None, None, if Critical(phase) then Some(0) else None,
                          if Written(phase) then Some(0) else None, true)],
          map[0 := Call(0, p, 0, phase)],
          1, if Written(phase) then [Entry(p, None, 0, None)] else [])
  }

  lemma LoneSaveBegins(p: Path)
    ensures Runs(Init(map[], 0), [Load(0, p), Seal(0, 0, p)], LoneSave(p, Sealed))
  {
    var s1 := Init(map[], 0).(holders := map[0 := Holder(None, None, None, None, true)]);
    assert Next(Init(map[], 0), Load(0, p)) == s1;
    assert Next(s1, Seal(0, 0, p)) == LoneSave(p, Sealed);
    assert [Load(0, p), Seal(0, 0, p)][1..] == [Seal(0, 0, p)] && [Seal(0, 0, p)][1..] == [];
  }

  lemma LoneSaveLocks(p: Path)
    ensures Can(LoneSave(p, Sealed), Lock(0)) && Next(LoneSave(p, Sealed), Lock(0)) == LoneSave(p, Locked)
    ensures Can(LoneSave(p, Locked), Guard(0)) && Next(LoneSave(p, Locked), Guard(0)) == LoneSave(p, Guarded)
  {
  }

  lemma LoneSaveMatches(p: Path)
    ensures Can(LoneSave(p, Guarded), ReadFile(0)) && Next(LoneSave(p, Guarded), ReadFile(0)) == LoneSave(p, Read(None))
    ensures Can(LoneSave(p, Read(None)), Compare(0)) && Next(LoneSave(p, Read(None)), Compare(0)) == LoneSave(p, Matched)
  {
  }

  lemma LoneSaveWrites(p: Path)
    ensures Can(LoneSave(p, Matched), Rename(0)) && Next(LoneSave(p, Matched), Rename(0)) == LoneSave(p, Renamed)
  {
  }

  lemma LoneSaveFails(p: Path)
    ensures Can(LoneSave(p, Renamed), SyncFail(0)) && Next(LoneSave(p, Renamed), SyncFail(0)) == LoneSave(p, Unsynced)
  {
  }

  /** The input that shows it: a holder loads a path with no file and saves to it, and the directory
      cannot be synced. The call has failed, and its blob is the file. */
  lemma FailedSaveOnDisk(p: Path) returns (steps: seq<Step>, s: State)
    ensures Runs(Init(map[], 0), steps, s)
    ensures s.calls == map[0 := Call(0, p, 0, Unsynced)] && s.files == map[p := 0] && In(s.log, 0)
  {
    steps, s := [Load(0, p), Seal(0, 0, p)], LoneSave(p, Sealed);
    LoneSaveBegins(p);
    LoneSaveLocks(p);
    LoneSaveMatches(p);
    LoneSaveWrites(p);
    LoneSaveFails(p);
    var last := LoneSave(p, Unsynced);
    assert last.calls == map[0 := Call(0, p, 0, Unsynced)] && last.files == map[p := 0] && last.log[0].blob == 0;
    hide Next, Can, LoneSave, Runs;
    steps, s := RunsOn(Init(map[], 0), steps, s, Lock(0));
    steps, s := RunsOn(Init(map[], 0), steps, s, Guard(0));
    steps, s := RunsOn(Init(map[], 0), steps, s, ReadFile(0));
    steps, s := RunsOn(Init(map[], 0), steps, s, Compare(0));
    steps, s := RunsOn(Init(map[], 0), steps, s, Rename(0));
    steps, s := RunsOn(Init(map[], 0), steps, s, SyncFail(0));
  }

  lemma {:induction false} RunsOn(s: State, steps: seq<Step>, end: State, step: Step) returns (more: seq<Step>, next: State)
    requires Runs(s, steps, end) && Can(end, step)
    ensures more == steps + [step] && next == Next(end, step) && Runs(s, more, next)
    decreases |steps|
  {
    more, next := steps + [step], Next(end, step);
    hide Next, Can;
    if steps == [] {
      assert more[1..] == [];
    } else {
      var _, _ := RunsOn(Next(s, steps[0]), steps[1..], end, step);
      assert more[1..] == steps[1..] + [step];
    }
  }

  /** A holder in a transaction excludes every other writer of its path: until it lets go, whatever
      it read there stays what is there, except for its own saves. */
  lemma TransactionExcludesWriters(files: map<Path, Blob>, nextBlob: Blob, steps: seq<Step>, s: State, h: nat, c: nat)
    requires (forall b :: b in files.Values ==> b < nextBlob) && Runs(Init(files, nextBlob), steps, s)
    requires h in s.holders && s.holders[h].transaction.Some?
    requires Can(s, Rename(c)) && s.calls[c].path == s.holders[h].transaction.value
    ensures s.calls[c].holder == h
  {
    RunKeeps(files, Init(files, nextBlob), steps, s);
    assert CallOk(s, c) && HolderOk(s, h);
  }

  // --- what an ordinary save comes to ----------------------------------------------------

  /** Whether a save gets its lock: its holder's transaction is on this very path, or it has none and
      nobody holds the path's lock. */
  predicate LockIsFree(s: State, h: nat, p: Path)
    requires h in s.holders
  {
    if s.holders[h].transaction.Some? then s.holders[h].transaction.value == p else p !in s.locks
  }

  /** The two verdicts of a save, in any run: it is locked out exactly when somebody else has the lock,
      or its transaction is on another path; and past its guard it is refused exactly when the file is
      not the one its holder loaded or last wrote. */
  lemma SaveIsRefusedIff(files: map<Path, Blob>, nextBlob: Blob, steps: seq<Step>, s: State, c: nat)
    requires (forall b :: b in files.Values ==> b < nextBlob) && Runs(Init(files, nextBlob), steps, s)
    ensures Can(s, Lock(c)) ==>
              Next(s, Lock(c)).calls[c].phase
              == if LockIsFree(s, s.calls[c].holder, s.calls[c].path) then Locked else Failed
    ensures Can(s, Compare(c)) ==>
              Next(s, Compare(c)).calls[c].phase
              == if s.holders[s.calls[c].holder].known == Content(s, s.calls[c].path) then Matched else Failed
  {
    StartsFresh(files, nextBlob);
    RunKeeps(files, Init(files, nextBlob), steps, s);
    if Can(s, Compare(c)) { assert CallOk(s, c) && HolderOk(s, s.calls[c].holder); }
  }

  function SaveSteps(c: nat, h: nat, p: Path): seq<Step> {
    [Seal(c, h, p), Lock(c), Guard(c), ReadFile(c), Compare(c), Rename(c), Finish(c)]
  }

  /** A holder that knows the file, a free lock, and nobody in between: every step of the save can be
      taken, and it ends Saved, with its blob as the file, that blob in the holder's hands, one entry
      more in the log, and locks, other files and other calls as they were. */
  lemma UndisturbedSaveSucceeds(s: State, c: nat, h: nat, p: Path) returns (end: State)
    requires h in s.holders && s.holders[h].ready && s.holders[h].guard.None? && c !in s.calls
    requires s.holders[h].snapshot == Content(s, p) && LockIsFree(s, h, p)
    requires forall q :: q in s.locks ==> s.locks[q] != Calling(c)
    ensures Runs(s, SaveSteps(c, h, p), end)
    ensures end.calls == s.calls[c := Call(h, p, s.nextBlob, Saved)] && end.files == s.files[p := s.nextBlob]
    ensures end.locks == s.locks && end.log == s.log + [Entry(p, Content(s, p), s.nextBlob, s.holders[h].known)]
    ensures end.holders
            == s.holders[h := s.holders[h].(snapshot := Some(s.nextBlob), known := Some(s.nextBlob))]
  {
    SaveLocks(s, c, h, p);
    SaveGuards(s, c, h, p);
    SaveReads(s, c, h, p);
    SaveMatches(s, c, h, p);
    SaveWrites(s, c, h, p);
    SaveEnds(s, c, h, p);
    hide Next, Can, Saving, Runs;
    end := Next(Saving(s, c, h, p, Renamed), Finish(c));
    SaveRuns(s, c, h, p, end);
  }

  /** The state in the middle of such a save. */
  function Saving(s: State, c: nat, h: nat, p: Path, phase: Phase): State
    requires h in s.holders
  {
    State(if phase.Renamed? then s.files[p := s.nextBlob] else s.files,
          if phase.Sealed? || s.holders[h].transaction.Some? then s.locks else s.locks[p := Calling(c)],
          if Critical(phase) then s.holders[h := SavingHolder(s.holders[h], c, s.nextBlob, phase)] else s.holders,
          s.calls[c := Call(h, p, s.nextBlob, phase)],
          s.nextBlob + 1,
          if phase.Renamed? then s.log + [Entry(p, Content(s, p), s.nextBlob, s.holders[h].known)] else s.log)
  }

  function SavingHolder(holder: Holder, c: nat, blob: Blob, phase: Phase): Holder {
    holder.(guard := Some(c), known := if phase.Renamed? then Some(blob) else holder.known)
  }

  lemma SaveLocks(s: State, c: nat, h: nat, p: Path)
    requires h in s.holders && s.holders[h].ready && c !in s.calls && LockIsFree(s, h, p)
    ensures Can(s, Seal(c, h, p)) && Next(s, Seal(c, h, p)) == Saving(s, c, h, p, Sealed)
    ensures Can(Saving(s, c, h, p, Sealed), Lock(c))
    ensures Next(Saving(s, c, h, p, Sealed), Lock(c)) == Saving(s, c, h, p, Locked)
  {
    hide Unlocked, Released, Ended;
  }

  lemma SaveGuards(s: State, c: nat, h: nat, p: Path)
    requires h in s.holders && s.holders[h].guard.None?
    ensures Can(Saving(s, c, h, p, Locked), Guard(c))
    ensures Next(Saving(s, c, h, p, Locked), Guard(c)) == Saving(s, c, h, p, Guarded)
  {
    hide Unlocked, Released, Ended, Content;
  }

  lemma SaveReads(s: State, c: nat, h: nat, p: Path)
    requires h in s.holders
    ensures Can(Saving(s, c, h, p, Guarded), ReadFile(c))
    ensures Next(Saving(s, c, h, p, Guarded), ReadFile(c)) == Saving(s, c, h, p, Read(Content(s, p)))
  {
    hide Unlocked, Released, Ended, WithHolder;
  }

  lemma SaveMatches(s: State, c: nat, h: nat, p: Path)
    requires h in s.holders && s.holders[h].snapshot == Content(s, p)
    ensures Can(Saving(s, c, h, p, Read(Content(s, p))), Compare(c))
    ensures Next(Saving(s, c, h, p, Read(Content(s, p))), Compare(c)) == Saving(s, c, h, p, Matched)
  {
    hide Unlocked, Released, Ended, WithHolder, Content;
  }

  lemma SaveWrites(s: State, c: nat, h: nat, p: Path)
    requires h in s.holders
    ensures Can(Saving(s, c, h, p, Matched), Rename(c))
    ensures Next(Saving(s, c, h, p, Matched), Rename(c)) == Saving(s, c, h, p, Renamed)
  {
    assert Content(Saving(s, c, h, p, Matched), p) == Content(s, p);
    hide Unlocked, Released, Ended, Content;
  }

  lemma SaveEnds(s: State, c: nat, h: nat, p: Path)
    requires h in s.holders && s.holders[h].guard.None? && LockIsFree(s, h, p)
    requires forall q :: q in s.locks ==> s.locks[q] != Calling(c)
    ensures Can(Saving(s, c, h, p, Renamed), Finish(c))
    ensures var end := Next(Saving(s, c, h, p, Renamed), Finish(c));
            && end.calls == s.calls[c := Call(h, p, s.nextBlob, Saved)] && end.files == s.files[p := s.nextBlob]
            && end.locks == s.locks && end.log == s.log + [Entry(p, Content(s, p), s.nextBlob, s.holders[h].known)]
            && end.holders
               == s.holders[h := s.holders[h].(snapshot := Some(s.nextBlob), known := Some(s.nextBlob))]
  {
    var m := Saving(s, c, h, p, Renamed);
    assert Next(m, Finish(c)) == Ended(m, c, Saved);
    hide Unlocked, Content, Next, Can;
  }

  lemma SaveRuns(s: State, c: nat, h: nat, p: Path, end: State)
    requires h in s.holders
    requires Can(s, Seal(c, h, p)) && Next(s, Seal(c, h, p)) == Saving(s, c, h, p, Sealed)
    requires Can(Saving(s, c, h, p, Sealed), Lock(c))
    requires Next(Saving(s, c, h, p, Sealed), Lock(c)) == Saving(s, c, h, p, Locked)
    requires Can(Saving(s, c, h, p, Locked), Guard(c))
    requires Next(Saving(s, c, h, p, Locked), Guard(c)) == Saving(s, c, h, p, Guarded)
    requires Can(Saving(s, c, h, p, Guarded), ReadFile(c))
    requires Next(Saving(s, c, h, p, Guarded), ReadFile(c)) == Saving(s, c, h, p, Read(Content(s, p)))
    requires Can(Saving(s, c, h, p, Read(Content(s, p))), Compare(c))
    requires Next(Saving(s, c, h, p, Read(Content(s, p))), Compare(c)) == Saving(s, c, h, p, Matched)
    requires Can(Saving(s, c, h, p, Matched), Rename(c))
    requires Next(Saving(s, c, h, p, Matched), Rename(c)) == Saving(s, c, h, p, Renamed)
    requires Can(Saving(s, c, h, p, Renamed), Finish(c)) && end == Next(Saving(s, c, h, p, Renamed), Finish(c))
    ensures Runs(s, SaveSteps(c, h, p), end)
  {
    hide Next, Can, Saving;
    var steps, m := RunsOn(s, [], s, Seal(c, h, p));
    steps, m := RunsOn(s, steps, m, Lock(c));
    steps, m := RunsOn(s, steps, m, Guard(c));
    steps, m := RunsOn(s, steps, m, ReadFile(c));
    steps, m := RunsOn(s, steps, m, Compare(c));
    steps, m := RunsOn(s, steps, m, Rename(c));
    steps, m := RunsOn(s, steps, m, Finish(c));
    assert steps == SaveSteps(c, h, p);
  }

  /** So loading a vault and saving it back, undisturbed, always works, whether the file exists or not. */
  lemma LoadedVaultCanBeSaved(s: State, c: nat, h: nat, p: Path) returns (end: State)
    requires h !in s.holders && c !in s.calls && p !in s.locks
    requires forall q :: q in s.locks ==> s.locks[q] != Calling(c)
    ensures Runs(s, [Load(h, p)] + SaveSteps(c, h, p), end)
    ensures c in end.calls && end.calls[c].phase.Saved? && end.files == s.files[p := s.nextBlob]
  {
    var s1 := Next(s, Load(h, p));
    end := UndisturbedSaveSucceeds(s1, c, h, p);
    hide Next, Runs;
    assert ([Load(h, p)] + SaveSteps(c, h, p))[1..] == SaveSteps(c, h, p);
    RunsFirst(s, Load(h, p), SaveSteps(c, h, p), end);
  }

  lemma RunsFirst(s: State, step: Step, steps: seq<Step>, end: State)
    requires Can(s, step) && Runs(Next(s, step), steps, end)
    ensures Runs(s, [step] + steps, end)
  {
    hide Next, Can;
    assert ([step] + steps)[1..] == steps;
  }

  /** Nor does a transaction: from a free lock, locking, reading and saving always works, and the lock is
      the holder's before, during and after the save. */
  lemma TransactionCanSave(s: State, c: nat, h: nat, p: Path) returns (end: State)
    requires h !in s.holders && c !in s.calls && p !in s.locks
    requires forall q :: q in s.locks ==> s.locks[q] != Calling(c)
    ensures Runs(s, [LoadLock(h, p)] + ([LoadRead(h)] + SaveSteps(c, h, p)), end)
    ensures c in end.calls && end.calls[c].phase.Saved? && end.files == s.files[p := s.nextBlob]
    ensures end.locks == s.locks[p := Holding(h)]
  {
    var s1 := Next(s, LoadLock(h, p));
    var s2 := Next(s1, LoadRead(h));
    assert Can(s, LoadLock(h, p)) && Can(s1, LoadRead(h));
    assert s2 == s1.(holders := s1.holders[h := Holder(Content(s, p), Some(p), None, Content(s, p), true)]);
    end := UndisturbedSaveSucceeds(s2, c, h, p);
    hide Next, Runs, Can;
    RunsFirst(s1, LoadRead(h), SaveSteps(c, h, p), end);
    RunsFirst(s, LoadLock(h, p), [LoadRead(h)] + SaveSteps(c, h, p), end);
  }
}
