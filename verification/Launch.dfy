/**
 * Starting the program: any number of processes deciding, racing for the lock file, running and
 * dying, over one data folder. Every process follows `main` step by step; a crash may come
 * between any two steps. The portable-profile import is not part of this.
 */
module Launch {
  import opened Options
  import opened Cleanup

  /** The next thing a process does. */
  datatype Pc =
    | Locking                 // decided to start, lock not tried
    | Owning                  // holds the lock, application mutex not tried
    | Creating                // in `App::init`, data folders not made
    | Checking                // folders made, marker not looked at
    | Marking                 // marker looked at, not written
    | Preparing               // the rest of `init`
    | Arming                  // window and services are up, capture input not started
    | Returning               // capture input started, still in `init`
    | Running(fired: bool)    // event loop; `fired`: the seven-second timer has gone off
    | Elapsed                 // the timer goes off
    | Greeted                 // greeting recorded, token not committed
    | Committed               // token committed, capture not started
    | Cleaning(k: nat)        // `k` artifacts dealt with
    | Down                    // `App` destroyed, `finish` not reached
    | Finished                // marker dealt with, lock still held
    | Refused                 // the mutex was taken: leaves without `finish`
    | Gone

  /** What a process has done and been told, step by step. */
  datatype Deed =
    | Locked | LockDenied | MutexTaken | MutexRefused | FoldersMade | FoldersRefused
    | Found(marker: bool) | Wrote | WriteRefused | InitReady | InitFailed | InputStarted | InitDone
    | WindowElapsed | Greeting | Token | TokenRefused | Deleted(artifact: Artifact) | Kept(artifact: Artifact)
    | QuitAsked | Unmarked | UnmarkRefused | Left | Died

  datatype Proc = Proc(validation: bool, completed: bool, pc: Pc, deeds: seq<Deed>)

  datatype Mark = Mark(pid: nat, deed: Deed)

  datatype State = State(
    folder: Folder,
    lock: Option<nat>,
    marker: bool,
    procs: map<nat, Proc>,
    log: seq<Mark>)            // everything that was done, by whom, in order

  /** One step of one process. `ok` is the operating system's answer. */
  datatype Move =
    | TryLock | TakeMutex(ok: bool)
    | CreateFolders(ok: bool) | LookForMarker | WriteMarker(ok: bool)
    | RestOfInit(ok: bool) | StartInput | ReturnFromInit
    | Fire | RecordGreeting | CommitToken(ok: bool) | StartCapture | DeleteNext(ok: bool)
    | Quit | Finish(ok: bool) | Leave | Crash

  datatype Act =
    | Appear(p: nat, validation: bool)  // a process gets as far as trying the lock
    | Updater(folder: Folder)           // the updater changes the update folder
    | Do(p: nat, move: Move)

  predicate Owns(pc: Pc) {
    !pc.Locking? && !pc.Gone?
  }

  predicate CanMove(pr: Proc, move: Move) {
    match move
    case TryLock => pr.pc == Locking
    case TakeMutex(_) => pr.pc == Owning
    case CreateFolders(_) => pr.pc == Creating
    case LookForMarker => pr.pc == Checking
    case WriteMarker(_) => pr.pc == Marking
    case RestOfInit(_) => pr.pc == Preparing
    case StartInput => pr.pc == Arming
    case ReturnFromInit => pr.pc == Returning
    case Fire => pr.pc == Running(false) && (pr.validation || pr.completed)
    case RecordGreeting => pr.pc == Elapsed
    case CommitToken(_) => pr.pc == Greeted
    case StartCapture => pr.pc == Committed
    case DeleteNext(_) => pr.pc.Cleaning? && pr.pc.k < ARTIFACTS
    case Quit => pr.pc.Running?
    case Finish(_) => pr.pc == Down
    case Leave => pr.pc == Finished || pr.pc == Refused
    case Crash => pr.pc != Gone
  }

  /** Where a step takes the process, given the lock. */
  function Target(pr: Proc, move: Move, lock: Option<nat>): Pc
    requires CanMove(pr, move)
  {
    match move
    case TryLock => if lock == None then Owning else Gone
    case TakeMutex(ok) => if ok then Creating else Refused
    case CreateFolders(ok) => if ok then Checking else Down
    case LookForMarker => Marking
    case WriteMarker(_) => Preparing
    case RestOfInit(ok) => if !ok then Down else if pr.validation then Returning else Arming
    case StartInput => Returning
    case ReturnFromInit => Running(false)
    case Fire => if pr.validation then Elapsed else Cleaning(0)
    case RecordGreeting => Greeted
    case CommitToken(ok) => if ok then Committed else Running(true)
    case StartCapture => Running(true)
    case DeleteNext(_) => if pr.pc.k + 1 == ARTIFACTS then Running(true) else Cleaning(pr.pc.k + 1)
    case Quit => Down
    case Finish(_) => Finished
    case Leave => Gone
    case Crash => Gone
  }

  /** What a step puts on record. */
  function DeedOf(pr: Proc, move: Move, lock: Option<nat>, marker: bool): Deed
    requires CanMove(pr, move)
  {
    match move
    case TryLock => if lock == None then Locked else LockDenied
    case TakeMutex(ok) => if ok then MutexTaken else MutexRefused
    case CreateFolders(ok) => if ok then FoldersMade else FoldersRefused
    case LookForMarker => Found(marker)
    case WriteMarker(ok) => if ok then Wrote else WriteRefused
    case RestOfInit(ok) => if ok then InitReady else InitFailed
    case StartInput => InputStarted
    case ReturnFromInit => InitDone
    case Fire => WindowElapsed
    case RecordGreeting => Greeting
    case CommitToken(ok) => if ok then Token else TokenRefused
    case StartCapture => InputStarted
    case DeleteNext(ok) => if ok then Deleted(ORDER[pr.pc.k]) else Kept(ORDER[pr.pc.k])
    case Quit => QuitAsked
    case Finish(ok) => if ok then Unmarked else UnmarkRefused
    case Leave => Left
    case Crash => Died
  }

  function LockAfter(lock: Option<nat>, m: Mark): Option<nat> {
    if m.deed == Locked then Some(m.pid)
    else if m.deed in {Left, Died} && lock == Some(m.pid) then None
    else lock
  }

  function MarkerAfter(marker: bool, m: Mark): bool {
    if m.deed == Wrote then true else if m.deed == Unmarked then false else marker
  }

  function FolderAfter(folder: Folder, d: Deed): Folder {
    if d == Token then folder.(present := folder.present + {HealthyToken})
    else if d.Deleted? then folder.(present := folder.present - {d.artifact})
    else folder
  }

  predicate CanAct(s: State, act: Act) {
    match act
    case Updater(f) => HealthyToken in f.present ==> HealthyToken in s.folder.present
    case Appear(p, validation) => p !in s.procs && (validation || !Interrupted(s.folder))
    case Do(p, move) => p in s.procs && CanMove(s.procs[p], move)
  }

  function After(s: State, act: Act): State
    requires CanAct(s, act)
  {
    match act
    case Updater(f) => s.(folder := f)
    case Appear(p, validation) =>
      s.(procs := s.procs[p := Proc(validation, !validation && Completed(s.folder), Locking, [])])
    case Do(p, move) =>
      var pr := s.procs[p];
      var d := DeedOf(pr, move, s.lock, s.marker);
      State(FolderAfter(s.folder, d), LockAfter(s.lock, Mark(p, d)), MarkerAfter(s.marker, Mark(p, d)),
            s.procs[p := pr.(pc := Target(pr, move, s.lock), deeds := pr.deeds + [d])], s.log + [Mark(p, d)])
  }

  /** A history: any enabled steps, in any order. */
  ghost predicate History(s: State, acts: seq<Act>, t: State)
    decreases |acts|
  {
    if acts == [] then s == t
    else CanAct(s, acts[0]) && History(After(s, acts[0]), acts[1..], t)
  }

  /** No process yet, no marker, no token; anything else may be there. */
  predicate Boot(s: State) {
    s.lock == None && !s.marker && s.procs == map[] && s.log == [] && HealthyToken !in s.folder.present
  }

  /** Nobody runs yet; any folder. */
  predicate Idle(s: State) {
    s.lock == None && s.procs == map[] && s.log == []
  }

  // -- the lock and the marker ---------------------------------------------------------------

  /** Who holds the lock, and whether the marker is there, after what was done. */
  function HolderOf(log: seq<Mark>): Option<nat> {
    if log == [] then None else LockAfter(HolderOf(log[..|log| - 1]), log[|log| - 1])
  }

  function MarkerOf(log: seq<Mark>): bool {
    if log == [] then false else MarkerAfter(MarkerOf(log[..|log| - 1]), log[|log| - 1])
  }

  /** What may be done after `log`: the marker is touched by the holder of the lock only, the lock
      is taken when it is free, and looking for the marker shows what is there. */
  predicate Fits(log: seq<Mark>, m: Mark) {
    match m.deed
    case Locked => HolderOf(log) == None && forall x :: x in log ==> x.pid != m.pid
    case LockDenied => HolderOf(log).Some?
    case Left => HolderOf(log) == Some(m.pid)
    case Found(marker) => HolderOf(log) == Some(m.pid) && marker == MarkerOf(log) && Mark(m.pid, Wrote) !in log
    case Wrote => HolderOf(log) == Some(m.pid)
    case Unmarked => HolderOf(log) == Some(m.pid)
    case UnmarkRefused => HolderOf(log) == Some(m.pid)
    case _ => true
  }

  predicate Orderly(log: seq<Mark>) {
    log == [] || (Fits(log[..|log| - 1], log[|log| - 1]) && Orderly(log[..|log| - 1]))
  }

  lemma LogMore(log: seq<Mark>, m: Mark)
    ensures HolderOf(log + [m]) == LockAfter(HolderOf(log), m)
    ensures MarkerOf(log + [m]) == MarkerAfter(MarkerOf(log), m)
    ensures Orderly(log + [m]) <==> Fits(log, m) && Orderly(log)
  {
    assert (log + [m])[..|log|] == log;
  }

  /** `p` has not written the marker yet. */
  predicate Early(s: State, p: nat) {
    p !in s.procs || s.procs[p].pc in {Locking, Owning, Creating, Checking, Marking}
  }

  ghost predicate OwnerInv(s: State) {
    && (forall p :: p in s.procs ==> (Owns(s.procs[p].pc) <==> s.lock == Some(p)))
    && (s.lock.Some? ==> s.lock.value in s.procs)
  }

  ghost predicate LogInv(s: State) {
    HolderOf(s.log) == s.lock && MarkerOf(s.log) == s.marker && Orderly(s.log)
  }

  ghost predicate EarlyInv(s: State) {
    forall p :: Early(s, p) ==> Mark(p, Wrote) !in s.log
  }

  /** Whoever has done anything has tried the lock. */
  ghost predicate TriedInv(s: State) {
    forall m :: m in s.log ==> m.pid in s.procs && s.procs[m.pid].pc != Locking
  }

  ghost predicate LockInv(s: State) {
    OwnerInv(s) && LogInv(s) && EarlyInv(s) && TriedInv(s)
  }

  /** The lock after a step: a process gets it only when it is free, and gives up only its own. */
  function LockNext(p: nat, pr: Proc, move: Move, lock: Option<nat>, marker: bool): Option<nat>
    requires CanMove(pr, move)
  {
    LockAfter(lock, Mark(p, DeedOf(pr, move, lock, marker)))
  }

  lemma LockMoves(p: nat, pr: Proc, move: Move, lock: Option<nat>, marker: bool)
    requires CanMove(pr, move) && (Owns(pr.pc) <==> lock == Some(p))
    ensures var next := LockNext(p, pr, move, lock, marker);
            && (Owns(Target(pr, move, lock)) <==> next == Some(p))
            && (next == lock || next == Some(p) || (lock == Some(p) && next == None))
            && (next == Some(p) && lock != Some(p) ==> lock == None)
  {
  }

  lemma OwnerFrame(s: State, t: State, p: nat)
    requires OwnerInv(s) && p in s.procs && t.procs.Keys == s.procs.Keys
    requires forall q :: q in s.procs && q != p ==> t.procs[q] == s.procs[q]
    requires Owns(t.procs[p].pc) <==> t.lock == Some(p)
    requires t.lock == s.lock || t.lock == Some(p) || (s.lock == Some(p) && t.lock == None)
    requires t.lock == Some(p) && s.lock != Some(p) ==> s.lock == None
    ensures OwnerInv(t)
  {
  }

  lemma OwnerStep(s: State, p: nat, move: Move)
    requires OwnerInv(s) && CanAct(s, Do(p, move))
    ensures OwnerInv(After(s, Do(p, move)))
  {
    var pr, t := s.procs[p], After(s, Do(p, move));
    LockMoves(p, pr, move, s.lock, s.marker);
    assert t.lock == LockNext(p, pr, move, s.lock, s.marker) && t.procs[p].pc == Target(pr, move, s.lock);
    OwnerFrame(s, t, p);
  }

  lemma FitsStep(s: State, p: nat, move: Move)
    requires LockInv(s) && CanAct(s, Do(p, move))
    ensures Fits(s.log, Mark(p, DeedOf(s.procs[p], move, s.lock, s.marker)))
  {
    if move == LookForMarker {
      assert Early(s, p);
    }
  }

  lemma EarlyStep(s: State, p: nat, move: Move)
    requires EarlyInv(s) && CanAct(s, Do(p, move))
    ensures EarlyInv(After(s, Do(p, move)))
  {
    var t := After(s, Do(p, move));
    forall q | Early(t, q) ensures Mark(q, Wrote) !in t.log {
      assert Early(s, q);
      if q == p {
        assert DeedOf(s.procs[p], move, s.lock, s.marker) != Wrote;
      }
    }
  }

  lemma TriedStep(s: State, act: Act)
    requires TriedInv(s) && CanAct(s, act)
    ensures TriedInv(After(s, act))
  {
    if act.Do? {
      assert Target(s.procs[act.p], act.move, s.lock) != Locking;
    }
  }

  lemma LockStep(s: State, act: Act)
    requires LockInv(s) && CanAct(s, act)
    ensures LockInv(After(s, act))
  {
    TriedStep(s, act);
    if act.Do? {
      OwnerStep(s, act.p, act.move);
      EarlyStep(s, act.p, act.move);
      FitsStep(s, act.p, act.move);
      LogMore(s.log, Mark(act.p, DeedOf(s.procs[act.p], act.move, s.lock, s.marker)));
    } else {
      forall q | Early(After(s, act), q) ensures Mark(q, Wrote) !in s.log {
        assert Early(s, q);
      }
    }
  }

  lemma {:induction false} LockHolds(s: State, acts: seq<Act>, t: State)
    requires LockInv(s) && History(s, acts, t)
    ensures LockInv(t)
    decreases |acts|
  {
    if acts != [] {
      LockStep(s, acts[0]);
      LockHolds(After(s, acts[0]), acts[1..], t);
    }
  }

  lemma {:induction false} OrderlyAt(log: seq<Mark>, i: nat)
    requires Orderly(log) && i < |log|
    ensures Fits(log[..i], log[i])
    decreases |log|
  {
    if i < |log| - 1 {
      OrderlyAt(log[..|log| - 1], i);
      assert log[..|log| - 1][..i] == log[..i];
    }
  }

  /** The marker was written at `j` and has not been removed since. */
  predicate WrittenAt(log: seq<Mark>, j: nat) {
    j < |log| && log[j].deed == Wrote && forall k :: j < k < |log| ==> log[k].deed != Unmarked
  }

  lemma {:induction false} MarkerIsWritten(log: seq<Mark>)
    ensures MarkerOf(log) <==> exists j :: WrittenAt(log, j)
  {
    if log != [] {
      var last := |log| - 1;
      var before := log[..last];
      MarkerIsWritten(before);
      if log[last].deed == Wrote {
        assert WrittenAt(log, last);
      } else if log[last].deed != Unmarked && MarkerOf(before) {
        var j :| WrittenAt(before, j);
        assert WrittenAt(log, j);
      }
      if exists j :: WrittenAt(log, j) {
        var j :| WrittenAt(log, j);
        if j != last {
          assert log[last].deed != Unmarked;
          assert WrittenAt(before, j);
        }
      }
    }
  }

  /** The lock passes from one process to another only by the first giving it up. */
  lemma {:induction false} HandedOver(log: seq<Mark>, j: nat, i: nat, q: nat) returns (k: nat)
    requires j <= i <= |log| && HolderOf(log[..j]) == Some(q) && HolderOf(log[..i]) != Some(q) && Orderly(log)
    ensures j <= k < i && log[k].pid == q && log[k].deed in {Left, Died}
    decreases i
  {
    assert i > j;
    var last := i - 1;
    assert log[..i] == log[..last] + [log[last]];
    LogMore(log[..last], log[last]);
    OrderlyAt(log, last);
    if HolderOf(log[..last]) == Some(q) {
      k := last;
    } else {
      k := HandedOver(log, j, last, q);
    }
  }

  /** The marker on disk is always the last thing a lock holder made of it. */
  lemma OnlyTheHolderTouchesTheMarker(s: State, acts: seq<Act>, t: State, i: nat)
    requires Boot(s) && History(s, acts, t) && i < |t.log| && t.log[i].deed in {Wrote, Unmarked}
    ensures HolderOf(t.log[..i]) == Some(t.log[i].pid)
    ensures t.marker <==> exists j :: WrittenAt(t.log, j)
  {
    LockHolds(s, acts, t);
    OrderlyAt(t.log, i);
    MarkerIsWritten(t.log);
  }

  /** Dually, it passes to another process only by that one taking it. */
  lemma {:induction false} TakenBy(log: seq<Mark>, j: nat, i: nat, q: nat) returns (k: nat)
    requires j <= i <= |log| && HolderOf(log[..j]) != Some(q) && HolderOf(log[..i]) == Some(q)
    ensures j <= k < i && log[k] == Mark(q, Locked)
    decreases i
  {
    assert i > j;
    var last := i - 1;
    assert log[..i] == log[..last] + [log[last]];
    LogMore(log[..last], log[last]);
    if HolderOf(log[..last]) == Some(q) {
      k := TakenBy(log, j, last, q);
    } else {
      k := last;
    }
  }

  lemma InvIsOrderly(s: State)
    requires LockInv(s)
    ensures Orderly(s.log)
  {
  }

  /** A marker that a run wrote is found by a later start exactly if nobody removed it in between. */
  lemma EvidenceIsFound(s: State, acts: seq<Act>, t: State, j: nat, i: nat, marker: bool)
    requires Boot(s) && History(s, acts, t) && j < i < |t.log|
    requires t.log[j].deed == Wrote && t.log[i].deed == Found(marker)
    requires forall k :: j < k < i ==> t.log[k].deed != Wrote
    ensures marker <==> forall k :: j < k < i ==> t.log[k].deed != Unmarked
  {
    hide History, LockInv;
    var log := t.log[..i];
    LockHolds(s, acts, t);
    assert Orderly(t.log) by {
      InvIsOrderly(t);
    }
    OrderlyAt(t.log, i);
    MarkerIsWritten(log);
    assert log[j].deed == Wrote;
    if marker {
      var w: nat :| WrittenAt(log, w);
      assert w <= j;
      forall k | j < k < i ensures t.log[k].deed != Unmarked {
        assert log[k] == t.log[k];
      }
    } else {
      assert !WrittenAt(log, j);
    }
  }

  /** Whoever removes the marker of a dead run before any start has looked for it has not looked
      either: it failed before it got there. */
  lemma RemoverNeverLooked(s: State, acts: seq<Act>, t: State, j: nat, k: nat, m: nat)
    requires Boot(s) && History(s, acts, t) && j < k < |t.log| && m < k
    requires t.log[j].deed == Wrote && t.log[k].deed == Unmarked && t.log[k].pid != t.log[j].pid
    requires forall n :: j < n < k ==> !t.log[n].deed.Found?
    requires t.log[m].pid == t.log[k].pid
    ensures !t.log[m].deed.Found?
  {
    hide History, LockInv;
    if t.log[m].deed.Found? {
      assert m < j;
      LockHolds(s, acts, t);
      InvIsOrderly(t);
      OrderlyAt(t.log, j);
      OrderlyAt(t.log, k);
      var taken := TakenBy(t.log, j, k, t.log[k].pid);
      OrderlyAt(t.log, taken);
      assert false;
    }
  }

  lemma {:induction false} HistoryJoins(s: State, acts: seq<Act>, t: State, more: seq<Act>, u: State)
    requires History(s, acts, t) && History(t, more, u)
    ensures History(s, acts + more, u)
    decreases |acts|
  {
    if acts == [] {
      assert acts + more == more;
    } else {
      assert (acts + more)[1..] == acts[1..] + more;
      HistoryJoins(After(s, acts[0]), acts[1..], t, more, u);
    }
  }

  lemma Takes(s: State, p: nat) returns (acts: seq<Act>, t: State)
    requires p in s.procs && s.procs[p].pc == Locking && s.procs[p].deeds == [] && s.lock == None
    ensures History(s, acts, t) && t.folder == s.folder && t.lock == Some(p) && t.marker == s.marker
    ensures t.procs == s.procs[p := s.procs[p].(pc := Creating, deeds := [Locked, MutexTaken])]
    ensures t.log == s.log + [Mark(p, Locked), Mark(p, MutexTaken)]
  {
    acts := [Do(p, TryLock), Do(p, TakeMutex(true))];
    var a := After(s, acts[0]);
    assert a.procs[p] == s.procs[p].(pc := Owning, deeds := [Locked]);
    t := After(a, acts[1]);
    assert t.procs[p] == s.procs[p].(pc := Creating, deeds := [Locked, MutexTaken]);
    assert History(a, [acts[1]], t);
    assert History(s, acts, t);
  }

  /** `p` gets the lock and the mutex, and is about to make its folders. */
  lemma Begins(s: State, p: nat) returns (acts: seq<Act>, t: State)
    requires p !in s.procs && s.lock == None && !Interrupted(s.folder)
    ensures History(s, acts, t) && t.folder == s.folder && t.lock == Some(p) && t.marker == s.marker
    ensures t.procs == s.procs[p := Proc(false, Completed(s.folder), Creating, [Locked, MutexTaken])]
    ensures t.log == s.log + [Mark(p, Locked), Mark(p, MutexTaken)]
  {
    hide Interrupted, Completed;
    var a := After(s, Appear(p, false));
    var more;
    more, t := Takes(a, p);
    acts := [Appear(p, false)] + more;
    assert acts[1..] == more;
  }

  /** From there, `p` looks for the marker. */
  lemma Looks(s: State, p: nat) returns (acts: seq<Act>, t: State)
    requires p in s.procs && s.procs[p].pc == Creating && s.lock == Some(p)
    ensures History(s, acts, t) && t.folder == s.folder && t.procs.Keys == s.procs.Keys
    ensures t.log == s.log + [Mark(p, FoldersMade), Mark(p, Found(s.marker))]
    ensures t.procs[p].pc == Marking && t.lock == Some(p)
  {
    acts := [Do(p, CreateFolders(true)), Do(p, LookForMarker)];
    var a := After(s, acts[0]);
    t := After(a, acts[1]);
    assert History(a, [acts[1]], t);
    assert History(s, acts, t);
  }

  /** And may go on to write it and die. */
  lemma Dies(s: State, p: nat) returns (acts: seq<Act>, t: State)
    requires p in s.procs && s.procs[p].pc == Marking && s.lock == Some(p)
    ensures History(s, acts, t) && t.folder == s.folder && t.procs.Keys == s.procs.Keys
    ensures t.log == s.log + [Mark(p, Wrote), Mark(p, Died)] && t.lock == None && t.marker
  {
    acts := [Do(p, WriteMarker(true)), Do(p, Crash)];
    var a := After(s, acts[0]);
    t := After(a, acts[1]);
    assert History(a, [acts[1]], t);
    assert History(s, acts, t);
  }

  /** Or its folders cannot be made, and it leaves the orderly way. */
  lemma Fails(s: State, p: nat) returns (acts: seq<Act>, t: State)
    requires p in s.procs && s.procs[p].pc == Creating && s.lock == Some(p)
    ensures History(s, acts, t) && t.folder == s.folder && t.lock == None && !t.marker && t.procs.Keys == s.procs.Keys
    ensures t.log == s.log + [Mark(p, FoldersRefused), Mark(p, Unmarked), Mark(p, Left)]
  {
    acts := [Do(p, CreateFolders(false)), Do(p, Finish(true)), Do(p, Leave)];
    var a := After(s, acts[0]);
    var b := After(a, acts[1]);
    t := After(b, acts[2]);
    assert History(b, [acts[2]], t);
    assert History(a, [acts[1], acts[2]], t);
    assert History(s, acts, t);
  }

  /** A run that writes the marker and dies. */
  lemma DiesMarked(s: State, p: nat) returns (acts: seq<Act>, t: State)
    requires p !in s.procs && s.lock == None && !Interrupted(s.folder)
    ensures History(s, acts, t) && t.folder == s.folder && t.lock == None && t.marker
    ensures t.procs.Keys == s.procs.Keys + {p}
    ensures t.log == s.log + [Mark(p, Locked), Mark(p, MutexTaken)] + [Mark(p, FoldersMade), Mark(p, Found(s.marker))]
                     + [Mark(p, Wrote), Mark(p, Died)]
  {
    hide History, Interrupted, Completed;
    var more, u;
    acts, t := Begins(s, p);
    more, u := Looks(t, p);
    HistoryJoins(s, acts, t, more, u);
    acts, t := acts + more, u;
    more, u := Dies(t, p);
    HistoryJoins(s, acts, t, more, u);
    acts, t := acts + more, u;
  }

  /** A start that fails before it looks, and one that looks. */
  lemma FailsThenLooks(s: State, p: nat, q: nat) returns (acts: seq<Act>, t: State)
    requires p !in s.procs && q !in s.procs && p != q && s.lock == None && !Interrupted(s.folder)
    ensures History(s, acts, t)
    ensures t.log == s.log + [Mark(p, Locked), Mark(p, MutexTaken)]
                     + [Mark(p, FoldersRefused), Mark(p, Unmarked), Mark(p, Left)]
                     + [Mark(q, Locked), Mark(q, MutexTaken)] + [Mark(q, FoldersMade), Mark(q, Found(false))]
  {
    hide History, Interrupted, Completed;
    var more, u;
    acts, t := Begins(s, p);
    more, u := Fails(t, p);
    HistoryJoins(s, acts, t, more, u);
    acts, t := acts + more, u;
    more, u := Begins(t, q);
    HistoryJoins(s, acts, t, more, u);
    acts, t := acts + more, u;
    more, u := Looks(t, q);
    HistoryJoins(s, acts, t, more, u);
    acts, t := acts + more, u;
  }

  /** Such a history: a run writes the marker and dies, a start cannot make its folders, and the
      next start that looks finds no marker. */
  lemma FailedStartHidesACrash(s: State) returns (acts: seq<Act>, t: State)
    requires Boot(s) && !Interrupted(s.folder)
    ensures History(s, acts, t)
    ensures t.log == [Mark(0, Locked), Mark(0, MutexTaken)] + [Mark(0, FoldersMade), Mark(0, Found(false))]
                     + [Mark(0, Wrote), Mark(0, Died)]
                     + [Mark(1, Locked), Mark(1, MutexTaken)]
                     + [Mark(1, FoldersRefused), Mark(1, Unmarked), Mark(1, Left)]
                     + [Mark(2, Locked), Mark(2, MutexTaken)] + [Mark(2, FoldersMade), Mark(2, Found(false))]
  {
    hide History, Interrupted, Completed;
    var more, u;
    acts, t := DiesMarked(s, 0);
    more, u := FailsThenLooks(t, 1, 2);
    HistoryJoins(s, acts, t, more, u);
    acts, t := acts + more, u;
  }

  // -- what one process does, in order ---------------------------------------------------------

  /** The last thing done. */
  function Last(deeds: seq<Deed>): Option<Deed> {
    if deeds == [] then None else Some(deeds[|deeds| - 1])
  }

  /** The artifact the clean-up comes to next. */
  function NextOf(a: Artifact): Artifact {
    match a
    case Backup => DataSnapshot
    case DataSnapshot => Staging
    case Staging => FailedNew
    case FailedNew => Downloads
    case Downloads => SwapManifest
    case SwapManifest => HealthyToken
    case HealthyToken => PhaseFile
    case PhaseFile => TransactionJson
    case _ => UpdaterLog
  }

  /** The clean-up goes on whether an artifact went or not, and ends with the transaction file. */
  predicate FollowsArtifact(a: Artifact, d: Deed) {
    if NextOf(a) == UpdaterLog then d == QuitAsked else d in {Deleted(NextOf(a)), Kept(NextOf(a))}
  }

  /** What `main` does next, told by what was done last and whether the token was committed. A process
      may die at any time before it has left. */
  predicate FollowsOn(validation: bool, completed: bool, token: bool, last: Option<Deed>, d: Deed) {
    match last
    case None => d in {Locked, LockDenied, Died}
    case Some(LockDenied) => false
    case Some(Left) => false
    case Some(Died) => false
    case Some(e) =>
      || d == Died
      || match e
         case Locked => d in {MutexTaken, MutexRefused}
         case MutexTaken => d in {FoldersMade, FoldersRefused}
         case MutexRefused => d == Left
         case FoldersMade => d.Found?
         case FoldersRefused => d in {Unmarked, UnmarkRefused}
         case Found(_) => d in {Wrote, WriteRefused}
         case Wrote => d in {InitReady, InitFailed}
         case WriteRefused => d in {InitReady, InitFailed}
         case InitFailed => d in {Unmarked, UnmarkRefused}
         case InitReady => d == if validation then InitDone else InputStarted
         case InputStarted => d == if token then QuitAsked else InitDone
         case InitDone => d == QuitAsked || (d == WindowElapsed && (validation || completed))
         case WindowElapsed => if validation then d == Greeting else d in {Deleted(Backup), Kept(Backup)}
         case Greeting => d in {Token, TokenRefused}
         case Token => d == InputStarted
         case TokenRefused => d == QuitAsked
         case Deleted(a) => FollowsArtifact(a, d)
         case Kept(a) => FollowsArtifact(a, d)
         case QuitAsked => d in {Unmarked, UnmarkRefused}
         case Unmarked => d == Left
         case UnmarkRefused => d == Left
         case _ => false
  }

  predicate Follows(validation: bool, completed: bool, before: seq<Deed>, d: Deed) {
    FollowsOn(validation, completed, Token in before, Last(before), d)
  }

  function PlaceAfter(a: Artifact): Pc {
    if NextOf(a) == UpdaterLog then Running(true) else Cleaning(IndexOf(a) + 1)
  }

  /** Where a process is, told the same way. */
  function PlaceOn(validation: bool, token: bool, last: Option<Deed>): Pc {
    match last
    case None => Locking
    case Some(e) =>
      match e
      case Locked => Owning
      case MutexTaken => Creating
      case MutexRefused => Refused
      case FoldersMade => Checking
      case Found(_) => Marking
      case Wrote => Preparing
      case WriteRefused => Preparing
      case InitReady => if validation then Returning else Arming
      case InputStarted => if token then Running(true) else Returning
      case InitDone => Running(false)
      case WindowElapsed => if validation then Elapsed else Cleaning(0)
      case Greeting => Greeted
      case Token => Committed
      case TokenRefused => Running(true)
      case Deleted(a) => PlaceAfter(a)
      case Kept(a) => PlaceAfter(a)
      case FoldersRefused => Down
      case InitFailed => Down
      case QuitAsked => Down
      case Unmarked => Finished
      case UnmarkRefused => Finished
      case _ => Gone
  }

  function Place(validation: bool, deeds: seq<Deed>): Pc {
    PlaceOn(validation, Token in deeds, Last(deeds))
  }

  lemma LastMore(deeds: seq<Deed>, d: Deed)
    ensures Last(deeds + [d]) == Some(d)
    ensures Token in deeds + [d] <==> Token in deeds || d == Token
  {
  }

  /** Over the whole run: what must have come before, and what comes once. */
  predicate Permitted(validation: bool, before: seq<Deed>, d: Deed) {
    match d
    case InputStarted => InputStarted !in before && (validation ==> Token in before)
    case InitDone => InitDone !in before
    case WindowElapsed => InitDone in before && WindowElapsed !in before
    case Greeting => validation && WindowElapsed in before
    case Token => validation && Greeting in before && Token !in before && InputStarted !in before
    case Deleted(_) => !validation && Token !in before && WindowElapsed in before
    case Kept(_) => !validation && Token !in before && WindowElapsed in before
    case _ => true
  }

  predicate Proper(validation: bool, completed: bool, deeds: seq<Deed>) {
    deeds != [] ==>
      var before, d := deeds[..|deeds| - 1], deeds[|deeds| - 1];
      && Follows(validation, completed, before, d) && Permitted(validation, before, d)
      && Proper(validation, completed, before)
  }

  predicate Fresh(pr: Proc) {
    InitDone !in pr.deeds && WindowElapsed !in pr.deeds && Token !in pr.deeds
  }

  predicate Validating(pr: Proc) {
    pr.validation && InitDone in pr.deeds && WindowElapsed in pr.deeds && InputStarted !in pr.deeds
  }

  /** What a process at its place has done already. */
  predicate Placed(pr: Proc) {
    && (pr.validation ==> !pr.completed) && (Token in pr.deeds ==> pr.validation)
    && (pr.pc == Locking ==> pr.deeds == [])
    && match pr.pc
       case Running(fired) =>
         && InitDone in pr.deeds
         && (InputStarted in pr.deeds <==> !pr.validation || Token in pr.deeds)
         && (!fired ==> WindowElapsed !in pr.deeds && Token !in pr.deeds)
       case Returning => Fresh(pr) && (InputStarted in pr.deeds <==> !pr.validation)
       case Elapsed => Validating(pr) && Token !in pr.deeds
       case Greeted => Validating(pr) && Token !in pr.deeds && Greeting in pr.deeds
       case Committed => Validating(pr) && Token in pr.deeds
       case Cleaning(k) =>
         && k < ARTIFACTS && pr.completed
         && InitDone in pr.deeds && WindowElapsed in pr.deeds && InputStarted in pr.deeds
       case Down => true
       case Finished => true
       case Refused => true
       case Gone => true
       case _ => Fresh(pr) && InputStarted !in pr.deeds && (pr.pc == Arming ==> !pr.validation)
  }

  predicate Sound(pr: Proc) {
    && Proper(pr.validation, pr.completed, pr.deeds) && Placed(pr)
    && pr.pc == Place(pr.validation, pr.deeds)
  }

  ghost predicate ProcInv(s: State) {
    forall p :: p in s.procs ==> Sound(s.procs[p])
  }

  lemma ProperMore(validation: bool, completed: bool, deeds: seq<Deed>, d: Deed)
    requires Proper(validation, completed, deeds) && Follows(validation, completed, deeds, d)
    requires Permitted(validation, deeds, d)
    ensures Proper(validation, completed, deeds + [d])
  {
    assert (deeds + [d])[..|deeds|] == deeds;
  }

  lemma MoveIsPermitted(pr: Proc, move: Move, lock: Option<nat>, marker: bool)
    requires CanMove(pr, move) && Placed(pr)
    ensures var d := DeedOf(pr, move, lock, marker);
            && Permitted(pr.validation, pr.deeds, d)
            && Placed(pr.(pc := Target(pr, move, lock), deeds := pr.deeds + [d]))
  {
  }

  /** The artifact just dealt with, or none. */
  predicate OverArtifact(last: Option<Deed>) {
    last.Some? && (last.value.Deleted? || last.value.Kept?)
  }

  /** What a step from a place the record tells comes to: it puts on record what follows, and goes where
      the record then says. */
  predicate Goes(pr: Proc, token: bool, last: Option<Deed>, move: Move, lock: Option<nat>, marker: bool)
    requires CanMove(pr, move)
  {
    var d := DeedOf(pr, move, lock, marker);
    && FollowsOn(pr.validation, pr.completed, token, last, d)
    && (Target(pr, move, lock) == PlaceOn(pr.validation, token || d == Token, Some(d))
        || (d == InputStarted && pr.validation && !token))
  }

  predicate MayGo(pr: Proc, token: bool, last: Option<Deed>, move: Move) {
    && CanMove(pr, move) && pr.pc == PlaceOn(pr.validation, token, last) && (token ==> pr.validation)
    && (pr.pc.Cleaning? ==> pr.pc.k < ARTIFACTS && !pr.validation)
    && (last == Some(Token) ==> token)
  }

  lemma OrderIs(k: nat)
    requires k < ARTIFACTS
    ensures ORDER[0] == Backup && IndexOf(ORDER[k]) == k && ORDER[k] != UpdaterLog
    ensures NextOf(ORDER[k]) == if k < 8 then ORDER[k + 1] else UpdaterLog
    ensures k < 8 ==> ORDER[k + 1] != UpdaterLog
  {
  }

  /** The clean-up in the record: where it starts, and where it goes on. */
  lemma CleanUpOnRecord(validation: bool, completed: bool, token: bool, last: Option<Deed>, d: Deed)
    requires PlaceOn(validation, token, last).Cleaning? && OverArtifact(Some(d))
    ensures PlaceOn(validation, token || d == Token, Some(d)) == PlaceAfter(d.artifact)
    ensures var k := PlaceOn(validation, token, last).k;
            if OverArtifact(last) then
              && NextOf(last.value.artifact) != UpdaterLog && k == IndexOf(last.value.artifact) + 1
              && FollowsOn(validation, completed, token, last, d) == (d.artifact == NextOf(last.value.artifact))
            else
              !validation && k == 0 && FollowsOn(validation, completed, token, last, d) == (d.artifact == Backup)
  {
    assert NextOf(UpdaterLog) == UpdaterLog;
    hide NextOf, IndexOf;
  }

  lemma DeleteGoes(pr: Proc, token: bool, last: Option<Deed>, move: Move, lock: Option<nat>, marker: bool)
    requires MayGo(pr, token, last, move) && move.DeleteNext?
    ensures Goes(pr, token, last, move, lock, marker)
  {
    CleanUpOnRecord(pr.validation, pr.completed, token, last, DeedOf(pr, move, lock, marker));
    hide NextOf, IndexOf, PlaceOn, FollowsOn;
    OrderIs(pr.pc.k);
    if pr.pc.k > 0 {
      OrderIs(pr.pc.k - 1);
      assert ORDER[IndexOf(last.value.artifact)] == last.value.artifact;
    }
  }

  lemma AfterArtifactGoes(pr: Proc, token: bool, last: Option<Deed>, move: Move, lock: Option<nat>, marker: bool)
    requires MayGo(pr, token, last, move) && OverArtifact(last) && !move.DeleteNext?
    ensures Goes(pr, token, last, move, lock, marker)
  {
    hide NextOf, IndexOf;
  }

  lemma StartGoes(pr: Proc, token: bool, last: Option<Deed>, move: Move, lock: Option<nat>, marker: bool)
    requires MayGo(pr, token, last, move) && !OverArtifact(last)
    requires move.TryLock? || move.TakeMutex? || move.CreateFolders? || move.LookForMarker? || move.WriteMarker?
             || move.RestOfInit? || move.StartInput? || move.ReturnFromInit?
    ensures Goes(pr, token, last, move, lock, marker)
  {
    hide FollowsArtifact, PlaceAfter;
  }

  lemma RunGoes(pr: Proc, token: bool, last: Option<Deed>, move: Move, lock: Option<nat>, marker: bool)
    requires MayGo(pr, token, last, move) && !OverArtifact(last)
    requires move.Fire? || move.RecordGreeting? || move.CommitToken? || move.StartCapture? || move.Quit? || move.Finish?
             || move.Leave? || move.Crash?
    ensures Goes(pr, token, last, move, lock, marker)
  {
    hide FollowsArtifact, PlaceAfter;
  }

  lemma MoveGoes(pr: Proc, token: bool, last: Option<Deed>, move: Move, lock: Option<nat>, marker: bool)
    requires MayGo(pr, token, last, move)
    ensures Goes(pr, token, last, move, lock, marker)
  {
    hide MayGo, Goes;
    if move.DeleteNext? {
      DeleteGoes(pr, token, last, move, lock, marker);
    } else if OverArtifact(last) {
      AfterArtifactGoes(pr, token, last, move, lock, marker);
    } else if move.Fire? || move.RecordGreeting? || move.CommitToken? || move.StartCapture?
              || move.Quit? || move.Finish? || move.Leave? || move.Crash? {
      RunGoes(pr, token, last, move, lock, marker);
    } else {
      StartGoes(pr, token, last, move, lock, marker);
    }
  }

  lemma InputNeedsToken(pr: Proc, move: Move, lock: Option<nat>, marker: bool)
    requires CanMove(pr, move) && Placed(pr)
    ensures DeedOf(pr, move, lock, marker) == InputStarted && pr.validation ==> Token in pr.deeds
  {
  }

  lemma MoveFollows(pr: Proc, move: Move, lock: Option<nat>, marker: bool)
    requires CanMove(pr, move) && Placed(pr) && pr.pc == Place(pr.validation, pr.deeds)
    ensures var d := DeedOf(pr, move, lock, marker);
            && Follows(pr.validation, pr.completed, pr.deeds, d)
            && Target(pr, move, lock) == Place(pr.validation, pr.deeds + [d])
  {
    var d := DeedOf(pr, move, lock, marker);
    LastMore(pr.deeds, d);
    assert Last(pr.deeds) == Some(Token) ==> Token in pr.deeds;
    InputNeedsToken(pr, move, lock, marker);
    hide DeedOf, Target, FollowsOn, PlaceOn, CanMove, Last;
    MoveGoes(pr, Token in pr.deeds, Last(pr.deeds), move, lock, marker);
  }

  lemma NewProcIsPlaced(validation: bool, completed: bool)
    ensures Sound(Proc(validation, !validation && completed, Locking, []))
  {
  }

  lemma ProcStep(s: State, act: Act)
    requires ProcInv(s) && CanAct(s, act)
    ensures ProcInv(After(s, act))
  {
    hide Permitted, Proper, Follows, Place, Target, DeedOf, Placed;
    if act.Appear? {
      NewProcIsPlaced(act.validation, Completed(s.folder));
    }
    if act.Do? {
      var pr := s.procs[act.p];
      MoveIsPermitted(pr, act.move, s.lock, s.marker);
      MoveFollows(pr, act.move, s.lock, s.marker);
      ProperMore(pr.validation, pr.completed, pr.deeds, DeedOf(pr, act.move, s.lock, s.marker));
    }
  }

  /** A token in the folder was put there by some process. */
  ghost predicate TokenInv(s: State) {
    HealthyToken in s.folder.present ==> exists p :: p in s.procs && Token in s.procs[p].deeds
  }

  lemma TokenStep(s: State, act: Act)
    requires TokenInv(s) && CanAct(s, act)
    ensures TokenInv(After(s, act))
  {
    var t := After(s, act);
    if HealthyToken in t.folder.present {
      if HealthyToken in s.folder.present {
        var p :| p in s.procs && Token in s.procs[p].deeds;
        assert p in t.procs && Token in t.procs[p].deeds;
      } else {
        assert act.Do? && Token in t.procs[act.p].deeds;
      }
    }
  }

  lemma {:induction false} ProcsHold(s: State, acts: seq<Act>, t: State)
    requires ProcInv(s) && History(s, acts, t)
    ensures ProcInv(t)
    decreases |acts|
  {
    if acts != [] {
      ProcStep(s, acts[0]);
      ProcsHold(After(s, acts[0]), acts[1..], t);
    }
  }

  lemma {:induction false} TokenHolds(s: State, acts: seq<Act>, t: State)
    requires TokenInv(s) && History(s, acts, t)
    ensures TokenInv(t)
    decreases |acts|
  {
    if acts != [] {
      TokenStep(s, acts[0]);
      TokenHolds(After(s, acts[0]), acts[1..], t);
    }
  }

  lemma {:induction false} ProperAt(validation: bool, completed: bool, deeds: seq<Deed>, i: nat)
    requires Proper(validation, completed, deeds) && i < |deeds|
    ensures Follows(validation, completed, deeds[..i], deeds[i]) && Permitted(validation, deeds[..i], deeds[i])
    decreases |deeds|
  {
    if i < |deeds| - 1 {
      ProperAt(validation, completed, deeds[..|deeds| - 1], i);
      assert deeds[..|deeds| - 1][..i] == deeds[..i];
    }
  }

  /** A token is committed in a validation run only, after `init` succeeded, the window elapsed and
      the greeting was recorded, in this order. */
  lemma TokenComesLast(s: State, acts: seq<Act>, t: State, p: nat, i: nat)
    returns (greeted: nat, elapsed: nat, ready: nat)
    requires Boot(s) && History(s, acts, t) && p in t.procs && i < |t.procs[p].deeds| && t.procs[p].deeds[i] == Token
    ensures t.procs[p].validation && ready < elapsed < greeted < i
    ensures t.procs[p].deeds[ready] == InitDone && t.procs[p].deeds[elapsed] == WindowElapsed
    ensures t.procs[p].deeds[greeted] == Greeting
  {
    ProcsHold(s, acts, t);
    var v, c, deeds := t.procs[p].validation, t.procs[p].completed, t.procs[p].deeds;
    ProperAt(v, c, deeds, i);
    greeted :| 0 <= greeted < i && deeds[greeted] == Greeting;
    ProperAt(v, c, deeds, greeted);
    elapsed :| 0 <= elapsed < greeted && deeds[elapsed] == WindowElapsed;
    ProperAt(v, c, deeds, elapsed);
    ready :| 0 <= ready < elapsed && deeds[ready] == InitDone;
  }

  /** A health token in the folder means that some run got all the way to it. */
  lemma TokenMeansHealthy(s: State, acts: seq<Act>, t: State) returns (p: nat)
    requires Boot(s) && History(s, acts, t) && HealthyToken in t.folder.present
    ensures p in t.procs && t.procs[p].validation
    ensures {InitDone, WindowElapsed, Greeting, Token} <= set d | d in t.procs[p].deeds
  {
    TokenHolds(s, acts, t);
    p :| p in t.procs && Token in t.procs[p].deeds;
    var i :| 0 <= i < |t.procs[p].deeds| && t.procs[p].deeds[i] == Token;
    var greeted, elapsed, ready := TokenComesLast(s, acts, t, p, i);
  }

  /** Capture input starts at most once in any run, and in a validation run only after the token. */
  lemma InputStartsOnce(s: State, acts: seq<Act>, t: State, p: nat, i: nat)
    requires Boot(s) && History(s, acts, t) && p in t.procs && i < |t.procs[p].deeds|
    requires t.procs[p].deeds[i] == InputStarted
    ensures InputStarted !in t.procs[p].deeds[..i]
    ensures t.procs[p].validation ==> Token in t.procs[p].deeds[..i]
  {
    ProcsHold(s, acts, t);
    ProperAt(t.procs[p].validation, t.procs[p].completed, t.procs[p].deeds, i);
  }

  /** No run both publishes a token and deletes what a rollback would need. */
  lemma TokenOrDelete(s: State, acts: seq<Act>, t: State, p: nat, i: nat)
    requires Boot(s) && History(s, acts, t) && p in t.procs && i < |t.procs[p].deeds| && t.procs[p].deeds[i].Deleted?
    ensures Token !in t.procs[p].deeds && !t.procs[p].validation
  {
    ProcsHold(s, acts, t);
    ProperAt(t.procs[p].validation, t.procs[p].completed, t.procs[p].deeds, i);
  }

  /** What the record says about the first steps and the last. */
  lemma BeforeThese(validation: bool, completed: bool, before: seq<Deed>, d: Deed)
    requires Follows(validation, completed, before, d)
    ensures before == [] ==> d in {Locked, LockDenied, Died}
    ensures before != [] ==> before[|before| - 1] !in {LockDenied, Left, Died}
    ensures before != [] && before[|before| - 1] == MutexRefused ==> d in {Left, Died}
    ensures d in {Locked, LockDenied} ==> before == []
    ensures d in {MutexRefused, Left} ==> before != []
    ensures d == MutexRefused ==> before[|before| - 1] == Locked
    ensures d == Left ==> before[|before| - 1] in {MutexRefused, Unmarked, UnmarkRefused}
  {
  }

  lemma {:induction false} TurnedShape(validation: bool, completed: bool, deeds: seq<Deed>)
    requires Proper(validation, completed, deeds)
    ensures LockDenied in deeds ==> deeds == [LockDenied]
    ensures Locked !in deeds ==> deeds in {[], [LockDenied], [Died]}
    ensures MutexRefused in deeds ==>
              deeds in {[Locked, MutexRefused], [Locked, MutexRefused, Left], [Locked, MutexRefused, Died]}
    ensures deeds != [] && deeds[|deeds| - 1] == Locked ==> deeds == [Locked]
  {
    hide Permitted, Follows;
    if deeds != [] {
      var before, d := deeds[..|deeds| - 1], deeds[|deeds| - 1];
      assert deeds == before + [d];
      TurnedShape(validation, completed, before);
      BeforeThese(validation, completed, before, d);
      assert [Locked] + [MutexRefused] == [Locked, MutexRefused];
      assert [Locked, MutexRefused] + [Left] == [Locked, MutexRefused, Left];
      assert [Locked, MutexRefused] + [Died] == [Locked, MutexRefused, Died];
      assert before == [] ==> deeds == [d];
    }
  }

  /** A start that is turned away does nothing at all: without the lock it does nothing, and where
      the mutex is taken it holds the lock and gives it up. */
  lemma TurnedAwayDidNothing(s: State, acts: seq<Act>, t: State, p: nat)
    requires Boot(s) && History(s, acts, t) && p in t.procs
    ensures LockDenied in t.procs[p].deeds ==> t.procs[p].deeds == [LockDenied]
    ensures Locked !in t.procs[p].deeds ==> t.procs[p].deeds in {[], [LockDenied], [Died]}
    ensures MutexRefused in t.procs[p].deeds ==>
              t.procs[p].deeds in {[Locked, MutexRefused], [Locked, MutexRefused, Left], [Locked, MutexRefused, Died]}
  {
    ProcsHold(s, acts, t);
    TurnedShape(t.procs[p].validation, t.procs[p].completed, t.procs[p].deeds);
  }

  /** `p` was refused the mutex. */
  predicate TurnedAway(pr: Proc) {
    || (pr.pc == Refused && pr.deeds == [Locked, MutexRefused])
    || (pr.pc == Gone && pr.deeds in {[Locked, MutexRefused, Left], [Locked, MutexRefused, Died]})
  }

  lemma {:induction false} RefusedLeavesQuietly(s: State, acts: seq<Act>, t: State, p: nat)
    requires History(s, acts, t) && p in s.procs && TurnedAway(s.procs[p])
    ensures p in t.procs && TurnedAway(t.procs[p])
    decreases |acts|
  {
    if acts != [] {
      var u := After(s, acts[0]);
      assert [Locked, MutexRefused] + [Left] == [Locked, MutexRefused, Left];
      assert [Locked, MutexRefused] + [Died] == [Locked, MutexRefused, Died];
      assert p in u.procs && TurnedAway(u.procs[p]);
      RefusedLeavesQuietly(u, acts[1..], t, p);
    }
  }

  /** The record may go on so now: the lock is free or not, and the marker there or not, as `d` says. */
  predicate Agrees(d: Deed, lock: Option<nat>, marker: bool) {
    match d
    case Locked => lock == None
    case LockDenied => lock != None
    case Found(m) => m == marker
    case _ => true
  }

  /** The step that puts `d` on record. */
  function MoveFor(pc: Pc, d: Deed): Move {
    match d
    case Locked => TryLock
    case LockDenied => TryLock
    case MutexTaken => TakeMutex(true)
    case MutexRefused => TakeMutex(false)
    case FoldersMade => CreateFolders(true)
    case FoldersRefused => CreateFolders(false)
    case Found(_) => LookForMarker
    case Wrote => WriteMarker(true)
    case WriteRefused => WriteMarker(false)
    case InitReady => RestOfInit(true)
    case InitFailed => RestOfInit(false)
    case InputStarted => if pc == Arming then StartInput else StartCapture
    case InitDone => ReturnFromInit
    case WindowElapsed => Fire
    case Greeting => RecordGreeting
    case Token => CommitToken(true)
    case TokenRefused => CommitToken(false)
    case Deleted(_) => DeleteNext(true)
    case Kept(_) => DeleteNext(false)
    case QuitAsked => Quit
    case Unmarked => Finish(true)
    case UnmarkRefused => Finish(false)
    case Left => Leave
    case Died => Crash
  }

  predicate CanDo(pr: Proc, d: Deed, lock: Option<nat>, marker: bool) {
    CanMove(pr, MoveFor(pr.pc, d)) && DeedOf(pr, MoveFor(pr.pc, d), lock, marker) == d
  }

  predicate Wanted(pr: Proc, token: bool, last: Option<Deed>, d: Deed, lock: Option<nat>, marker: bool) {
    && pr.pc == PlaceOn(pr.validation, token, last)
    && FollowsOn(pr.validation, pr.completed, token, last, d) && Agrees(d, lock, marker)
  }

  lemma NextArtifactIsPossible(pr: Proc, token: bool, last: Option<Deed>, d: Deed, lock: Option<nat>, marker: bool)
    requires Wanted(pr, token, last, d, lock, marker) && OverArtifact(Some(d))
    ensures CanDo(pr, d, lock, marker)
  {
    assert NextOf(UpdaterLog) == UpdaterLog;
    hide NextOf, IndexOf;
    if OverArtifact(last) {
      OrderIs(IndexOf(last.value.artifact));
    } else {
      OrderIs(0);
    }
  }

  lemma EndOfCleanUpIsPossible(pr: Proc, token: bool, last: Option<Deed>, d: Deed, lock: Option<nat>, marker: bool)
    requires Wanted(pr, token, last, d, lock, marker) && OverArtifact(last) && !OverArtifact(Some(d))
    ensures CanDo(pr, d, lock, marker)
  {
    hide NextOf, IndexOf;
  }

  lemma RestIsPossible(pr: Proc, token: bool, last: Option<Deed>, d: Deed, lock: Option<nat>, marker: bool)
    requires Wanted(pr, token, last, d, lock, marker) && !OverArtifact(last) && !OverArtifact(Some(d))
    ensures CanDo(pr, d, lock, marker)
  {
    hide FollowsArtifact, PlaceAfter;
  }

  lemma FollowingIsPossible(pr: Proc, d: Deed, lock: Option<nat>, marker: bool)
    requires pr.pc == Place(pr.validation, pr.deeds)
    requires Follows(pr.validation, pr.completed, pr.deeds, d) && Agrees(d, lock, marker)
    ensures CanMove(pr, MoveFor(pr.pc, d)) && DeedOf(pr, MoveFor(pr.pc, d), lock, marker) == d
  {
    hide DeedOf, FollowsOn, PlaceOn, CanMove, Last, MoveFor, Agrees, OverArtifact;
    var token, last := Token in pr.deeds, Last(pr.deeds);
    if OverArtifact(Some(d)) {
      NextArtifactIsPossible(pr, token, last, d, lock, marker);
    } else if OverArtifact(last) {
      EndOfCleanUpIsPossible(pr, token, last, d, lock, marker);
    } else {
      RestIsPossible(pr, token, last, d, lock, marker);
    }
  }

  lemma DeedAgrees(pr: Proc, move: Move, lock: Option<nat>, marker: bool)
    requires CanMove(pr, move)
    ensures Agrees(DeedOf(pr, move, lock, marker), lock, marker)
  {
  }

  /** In every history, what a process can do next is exactly what follows in `main` on what it did last,
      given the lock and the marker: nothing can be skipped, and nothing is out of reach. */
  lemma NextIsExact(s: State, acts: seq<Act>, t: State, p: nat, d: Deed)
    requires Idle(s) && History(s, acts, t) && p in t.procs
    ensures (exists move :: CanMove(t.procs[p], move) && DeedOf(t.procs[p], move, t.lock, t.marker) == d)
       <==> Follows(t.procs[p].validation, t.procs[p].completed, t.procs[p].deeds, d) && Agrees(d, t.lock, t.marker)
  {
    ProcsHold(s, acts, t);
    hide Follows, Place, Placed, Proper, CanMove, DeedOf, Agrees, MoveFor;
    var pr := t.procs[p];
    if Follows(pr.validation, pr.completed, pr.deeds, d) && Agrees(d, t.lock, t.marker) {
      FollowingIsPossible(pr, d, t.lock, t.marker);
    }
    forall move | CanMove(pr, move) && DeedOf(pr, move, t.lock, t.marker) == d
      ensures Follows(pr.validation, pr.completed, pr.deeds, d) && Agrees(d, t.lock, t.marker)
    {
      MoveFollows(pr, move, t.lock, t.marker);
      DeedAgrees(pr, move, t.lock, t.marker);
    }
  }

  // -- whose marker it is ----------------------------------------------------------------------------

  /** What `p` did, in order. */
  function Of(log: seq<Mark>, p: nat): seq<Deed> {
    if log == [] then []
    else
      var before, m := log[..|log| - 1], log[|log| - 1];
      if m.pid == p then Of(before, p) + [m.deed] else Of(before, p)
  }

  ghost predicate RecordInv(s: State) {
    && (forall p :: p in s.procs ==> s.procs[p].deeds == Of(s.log, p))
    && (forall p :: p !in s.procs ==> Of(s.log, p) == [])
  }

  lemma RecordStep(s: State, act: Act)
    requires RecordInv(s) && CanAct(s, act)
    ensures RecordInv(After(s, act))
  {
    if act.Do? {
      hide Target, CanMove, FolderAfter, LockAfter, MarkerAfter;
      var t := After(s, act);
      assert t.log[..|t.log| - 1] == s.log;
      assert forall p :: Of(t.log, p) == if p == act.p then Of(s.log, p) + [t.log[|s.log|].deed] else Of(s.log, p);
    }
  }

  lemma {:induction false} RecordHolds(s: State, acts: seq<Act>, t: State)
    requires RecordInv(s) && History(s, acts, t)
    ensures RecordInv(t)
    decreases |acts|
  {
    hide RecordInv;
    if acts != [] {
      RecordStep(s, acts[0]);
      RecordHolds(After(s, acts[0]), acts[1..], t);
    }
  }

  lemma {:induction false} OfGrows(log: seq<Mark>, k: nat, p: nat)
    requires k <= |log|
    ensures Of(log[..k], p) <= Of(log, p)
    ensures k < |log| && log[k].pid == p ==>
              |Of(log[..k], p)| < |Of(log, p)| && Of(log, p)[|Of(log[..k], p)|] == log[k].deed
    decreases |log|
  {
    if k == |log| {
      assert log[..k] == log;
    } else {
      var before := log[..|log| - 1];
      OfGrows(before, k, p);
      assert before[..k] == log[..k];
    }
  }

  /** Each deed on record follows on what its process had done until then. */
  lemma FollowsAt(s: State, acts: seq<Act>, t: State, k: nat) returns (validation: bool, completed: bool)
    requires Idle(s) && History(s, acts, t) && k < |t.log|
    ensures Follows(validation, completed, Of(t.log[..k], t.log[k].pid), t.log[k].deed)
  {
    hide Follows, Placed, Place, History;
    var p := t.log[k].pid;
    ProcsHold(s, acts, t);
    RecordHolds(s, acts, t);
    OfGrows(t.log, k, p);
    validation, completed := t.procs[p].validation, t.procs[p].completed;
    var n := |Of(t.log[..k], p)|;
    ProperAt(validation, completed, t.procs[p].deeds, n);
    assert t.procs[p].deeds[..n] == Of(t.log[..k], p);
  }

  lemma {:induction false} LastOf(log: seq<Mark>, p: nat) returns (m: nat)
    requires Of(log, p) != []
    ensures m < |log| && log[m] == Mark(p, Of(log, p)[|Of(log, p)| - 1])
    ensures forall k :: m < k < |log| ==> log[k].pid != p
  {
    var last := |log| - 1;
    if log[last].pid == p {
      m := last;
    } else {
      m := LastOf(log[..last], p);
    }
  }

  /** The last mark of a process before its mark at `k`, if that is not its first. */
  lemma MarkBefore(s: State, acts: seq<Act>, t: State, k: nat) returns (m: nat)
    requires Idle(s) && History(s, acts, t) && k < |t.log| && t.log[k].deed in {MutexRefused, Left}
    ensures m < k && t.log[m].pid == t.log[k].pid
    ensures t.log[k].deed == MutexRefused ==> t.log[m].deed == Locked
    ensures t.log[k].deed == Left ==> t.log[m].deed in {MutexRefused, Unmarked, UnmarkRefused}
    ensures forall n :: m < n < k ==> t.log[n].pid != t.log[k].pid
  {
    hide Follows, History, Of;
    var v, c := FollowsAt(s, acts, t, k);
    BeforeThese(v, c, Of(t.log[..k], t.log[k].pid), t.log[k].deed);
    m := LastOf(t.log[..k], t.log[k].pid);
    assert forall n :: m < n < k ==> t.log[..k][n] == t.log[n];
  }

  /** A process takes the lock before it does anything else. */
  lemma LockedFirst(s: State, acts: seq<Act>, t: State, l: nat, j: nat)
    requires Idle(s) && History(s, acts, t) && j < l < |t.log| && t.log[l].deed == Locked
    ensures t.log[j].pid != t.log[l].pid
  {
    hide Follows, History;
    var v, c := FollowsAt(s, acts, t, l);
    BeforeThese(v, c, Of(t.log[..l], t.log[l].pid), Locked);
    OfGrows(t.log[..l], j, t.log[l].pid);
    assert t.log[..l][j] == t.log[j];
  }

  /** An orderly exit deals with the marker: a process that wrote it and left has in between removed it,
      or been refused that. */
  lemma LeavingUnmarks(s: State, acts: seq<Act>, t: State, j: nat, k: nat) returns (m: nat)
    requires Idle(s) && History(s, acts, t) && j < k < |t.log|
    requires t.log[j].deed == Wrote && t.log[k] == Mark(t.log[j].pid, Left)
    ensures j < m < k && t.log[m].pid == t.log[j].pid && t.log[m].deed in {Unmarked, UnmarkRefused}
  {
    hide History, Idle;
    m := MarkBefore(s, acts, t, k);
    if t.log[m].deed == MutexRefused {
      var l := MarkBefore(s, acts, t, m);
      assert j < l;
      LockedFirst(s, acts, t, l, j);
    }
  }

  /** The crash marker, over every history of any number of processes. Only the holder of the lock
      touches it. `init` finds it exactly if it was written and not removed since; then the process
      that wrote it was another one, and it died, or was refused the removal as it left. */
  lemma MarkerTellsOfADeath(s: State, acts: seq<Act>, t: State, i: nat, marker: bool)
    requires Boot(s) && History(s, acts, t) && i < |t.log| && t.log[i].deed == Found(marker)
    ensures HolderOf(t.log[..i]) == Some(t.log[i].pid)
    ensures marker <==> exists j :: WrittenAt(t.log[..i], j)
    ensures forall j: nat :: WrittenAt(t.log[..i], j) ==>
              && t.log[j].pid != t.log[i].pid
              && exists k :: j < k < i && t.log[k].pid == t.log[j].pid && t.log[k].deed in {Died, UnmarkRefused}
  {
    hide History, LockInv, Follows;
    LockHolds(s, acts, t);
    InvIsOrderly(t);
    OrderlyAt(t.log, i);
    MarkerIsWritten(t.log[..i]);
    forall j: nat | WrittenAt(t.log[..i], j)
      ensures t.log[j].pid != t.log[i].pid
      ensures exists k :: j < k < i && t.log[k].pid == t.log[j].pid && t.log[k].deed in {Died, UnmarkRefused}
    {
      var q := t.log[j].pid;
      OrderlyAt(t.log, j);
      assert t.log[..i][j] == Mark(q, Wrote);
      var k := HandedOver(t.log, j, i, q);
      assert k != j;
      if t.log[k].deed == Left {
        var m := LeavingUnmarks(s, acts, t, j, k);
        assert t.log[..i][m] == t.log[m];
      }
    }
  }

  // -- the clean-up, over every history without a new update ------------------------------------------

  predicate NoUpdate(acts: seq<Act>) {
    forall act :: act in acts ==> !act.Updater?
  }

  /** All that was done, by whomever. */
  function Done(log: seq<Mark>): set<Deed> {
    set m | m in log :: m.deed
  }

  lemma DoneMore(log: seq<Mark>, m: Mark)
    ensures Done(log + [m]) == Done(log) + {m.deed}
  {
    forall d | d in Done(log) + {m.deed} ensures d in Done(log + [m]) {
      if d == m.deed {
        assert m in log + [m];
      } else {
        var x :| x in log && x.deed == d;
        assert x in log + [m];
      }
    }
  }

  predicate DealtWith(log: seq<Mark>, a: Artifact) {
    Deleted(a) in Done(log) || Kept(a) in Done(log)
  }

  /** How many artifacts this process has dealt with. */
  function Reached(pr: Proc): nat {
    match pr.pc
    case Cleaning(k) => k
    case Running(fired) => if fired && !pr.validation then ARTIFACTS else 0
    case _ => 0
  }

  /** Whether the token is there after what was done, if it was there at first or not. */
  function TokenThere(first: bool, log: seq<Mark>): bool {
    if log == [] then first
    else if log[|log| - 1].deed == Token then true
    else log[|log| - 1].deed != Deleted(HealthyToken) && TokenThere(first, log[..|log| - 1])
  }

  /** The folder is what was there when nobody ran, without what was deleted since. */
  ghost predicate FolderInv(f: Folder, s: State) {
    && s.folder.text == f.text
    && (forall a :: a != HealthyToken ==> (a in s.folder.present <==> a in f.present && Deleted(a) !in Done(s.log)))
    && (HealthyToken in s.folder.present && Deleted(HealthyToken) in Done(s.log) ==> Token in Done(s.log))
    && (HealthyToken in s.folder.present ==> HealthyToken in f.present || Token in Done(s.log))
    && (HealthyToken in s.folder.present <==> TokenThere(HealthyToken in f.present, s.log))
  }

  ghost predicate ReachInv(s: State) {
    && (forall p, k :: p in s.procs && 0 <= k < Reached(s.procs[p]) && k < ARTIFACTS ==> DealtWith(s.log, ORDER[k]))
    && (Deleted(PhaseFile) in Done(s.log) ==> forall k :: 0 <= k < 7 ==> DealtWith(s.log, ORDER[k]))
  }

  lemma FolderStep(f: Folder, s: State, act: Act)
    requires FolderInv(f, s) && CanAct(s, act) && !act.Updater?
    ensures FolderInv(f, After(s, act))
  {
    if act.Do? {
      var d := DeedOf(s.procs[act.p], act.move, s.lock, s.marker);
      DoneMore(s.log, Mark(act.p, d));
      assert After(s, act).log == s.log + [Mark(act.p, d)] && After(s, act).log[..|s.log|] == s.log;
      assert After(s, act).folder == FolderAfter(s.folder, d);
    }
  }

  /** A process gets further with the artifacts only by dealing with the next one. */
  lemma MoveReaches(pr: Proc, move: Move, lock: Option<nat>, marker: bool)
    requires CanMove(pr, move) && Placed(pr)
    ensures var next, d := pr.(pc := Target(pr, move, lock)), DeedOf(pr, move, lock, marker);
            && (Reached(next) > Reached(pr) ==>
                  Reached(pr) < ARTIFACTS && Reached(next) == Reached(pr) + 1
                  && d in {Deleted(ORDER[Reached(pr)]), Kept(ORDER[Reached(pr)])})
            && (d.Deleted? ==> Reached(pr) < ARTIFACTS && d.artifact == ORDER[Reached(pr)])
  {
  }

  lemma OrderIsDistinct()
    ensures forall j, k :: 0 <= j < k < ARTIFACTS ==> ORDER[j] != ORDER[k]
    ensures ORDER[6] == HealthyToken && ORDER[7] == PhaseFile && ORDER[8] == TransactionJson
  {
  }

  lemma ReachStep(s: State, act: Act)
    requires ReachInv(s) && ProcInv(s) && CanAct(s, act) && !act.Updater?
    ensures ReachInv(After(s, act))
  {
    hide Placed, Place, Proper, Target, DeedOf, CanMove, Done, FolderAfter, LockAfter, MarkerAfter;
    hide Completed, Interrupted;
    var t := After(s, act);
    if act.Do? {
      var pr := s.procs[act.p];
      var d := DeedOf(pr, act.move, s.lock, s.marker);
      MoveReaches(pr, act.move, s.lock, s.marker);
      OrderIsDistinct();
      DoneMore(s.log, Mark(act.p, d));
      assert Reached(t.procs[act.p]) == Reached(pr.(pc := Target(pr, act.move, s.lock)));
      assert t.log == s.log + [Mark(act.p, d)];
    }
  }

  lemma {:induction false} CleaningHolds(f: Folder, s: State, acts: seq<Act>, t: State)
    requires FolderInv(f, s) && ReachInv(s) && ProcInv(s) && History(s, acts, t) && NoUpdate(acts)
    ensures FolderInv(f, t) && ReachInv(t) && ProcInv(t)
    decreases |acts|
  {
    hide FolderInv, ReachInv, ProcInv;
    if acts != [] {
      FolderStep(f, s, acts[0]);
      ReachStep(s, acts[0]);
      ProcStep(s, acts[0]);
      CleaningHolds(f, After(s, acts[0]), acts[1..], t);
    }
  }

  lemma FromIdle(s: State, acts: seq<Act>, t: State)
    requires Idle(s) && History(s, acts, t) && NoUpdate(acts)
    ensures FolderInv(s.folder, t) && ReachInv(t) && ProcInv(t)
  {
    CleaningHolds(s.folder, s, acts, t);
  }

  /** However processes race, wherever they die and whatever removals fail, no later start is judged
      interrupted; and while the phase file is there, any start decides to clean up again. */
  lemma NeverInterrupted(s: State, acts: seq<Act>, t: State, p: nat)
    requires Idle(s) && History(s, acts, t) && NoUpdate(acts) && !Interrupted(s.folder)
    ensures !Interrupted(t.folder)
    ensures Completed(s.folder) && PhaseFile in t.folder.present && p !in t.procs ==>
              CanAct(t, Appear(p, false)) && After(t, Appear(p, false)).procs[p].completed
  {
    FromIdle(s, acts, t);
  }

  /** The gate: a start that is no validation run goes on exactly if the update before it is over, and
      cleans up exactly if it was judged healthy or rolled back. */
  lemma StartGate(s: State, p: nat)
    requires p !in s.procs
    ensures CanAct(s, Appear(p, false))
       <==> SwapManifest !in s.folder.present
            && (PhaseFile in s.folder.present ==> s.folder.text in {"", "healthy", "rolled_back"})
    ensures CanAct(s, Appear(p, false)) ==>
              After(s, Appear(p, false)).procs[p].completed
                == (PhaseFile in s.folder.present && s.folder.text in {"healthy", "rolled_back"})
    ensures CanAct(s, Appear(p, true)) && !After(s, Appear(p, true)).procs[p].completed
  {
  }

  lemma {:induction false} TokenThereAt(first: bool, log: seq<Mark>, i: nat)
    requires i < |log| && log[i].deed == Token
    requires forall k :: i < k < |log| ==> log[k].deed != Deleted(HealthyToken)
    ensures TokenThere(first, log)
  {
    if i < |log| - 1 {
      TokenThereAt(first, log[..|log| - 1], i);
    }
  }

  /** A committed token stays in the folder until it is deleted. */
  lemma TokenIsThere(s: State, acts: seq<Act>, t: State, i: nat)
    requires Idle(s) && History(s, acts, t) && NoUpdate(acts) && i < |t.log| && t.log[i].deed == Token
    requires forall k :: i < k < |t.log| ==> t.log[k].deed != Deleted(HealthyToken)
    ensures HealthyToken in t.folder.present
  {
    FromIdle(s, acts, t);
    TokenThereAt(HealthyToken in s.folder.present, t.log, i);
  }

  /** Once the phase file is gone, all that can be there is what would not go, the transaction file,
      the log, and a token committed since. */
  lemma LeftForGood(s: State, acts: seq<Act>, t: State, a: Artifact)
    requires Idle(s) && History(s, acts, t) && NoUpdate(acts)
    requires PhaseFile in s.folder.present && PhaseFile !in t.folder.present && a in t.folder.present
    ensures a in {TransactionJson, UpdaterLog} || Kept(a) in Done(t.log) || (a == HealthyToken && Token in Done(t.log))
  {
    FromIdle(s, acts, t);
    OrderIsDistinct();
    if a !in {TransactionJson, UpdaterLog} {
      assert DealtWith(t.log, ORDER[IndexOf(a)]);
    }
  }

  /** With any number of crashes, but no failed removal and no new token, only `transaction.json`
      can be stranded. */
  lemma CrashesStrandOnlyTheTransaction(s: State, acts: seq<Act>, t: State)
    requires Idle(s) && History(s, acts, t) && NoUpdate(acts) && PhaseFile in s.folder.present
    requires Token !in Done(t.log) && forall a :: Kept(a) !in Done(t.log)
    ensures PhaseFile in t.folder.present || t.folder.present <= {TransactionJson, UpdaterLog}
  {
    if PhaseFile !in t.folder.present {
      forall a | a in t.folder.present ensures a in {TransactionJson, UpdaterLog} {
        LeftForGood(s, acts, t, a);
      }
    }
  }

  /** A process that is through with its clean-up has left nothing but the log, what would not go,
      and a token committed since. */
  lemma RetryFinishes(s: State, acts: seq<Act>, t: State, p: nat, a: Artifact)
    requires Idle(s) && History(s, acts, t) && NoUpdate(acts)
    requires p in t.procs && t.procs[p].pc == Running(true) && !t.procs[p].validation && a in t.folder.present
    ensures a == UpdaterLog || Kept(a) in Done(t.log) || (a == HealthyToken && Token in Done(t.log))
  {
    FromIdle(s, acts, t);
    OrderIsDistinct();
    if a != UpdaterLog {
      assert DealtWith(t.log, ORDER[IndexOf(a)]);
    }
  }

  // -- what is left for good -----------------------------------------------------------------------------

  /** This process decided to clean up and has artifact `n` still before it. */
  predicate MayReach(pr: Proc, n: nat) {
    && pr.completed && !pr.validation
    && (pr.pc in {Locking, Owning, Creating, Checking, Marking, Preparing, Arming, Returning, Running(false)}
        || (pr.pc.Cleaning? && pr.pc.k <= n))
  }

  /** Nobody will get to artifact `n`. */
  ghost predicate OutOfReach(s: State, n: nat) {
    PhaseFile !in s.folder.present && forall p :: p in s.procs ==> !MayReach(s.procs[p], n)
  }

  lemma MoveStaysOutOfReach(pr: Proc, move: Move, lock: Option<nat>, marker: bool, n: nat)
    requires CanMove(pr, move) && Placed(pr) && !MayReach(pr, n) && n < ARTIFACTS
    ensures !MayReach(pr.(pc := Target(pr, move, lock)), n)
    ensures DeedOf(pr, move, lock, marker) != Deleted(ORDER[n])
  {
    OrderIsDistinct();
  }

  lemma StaysOutOfReach(s: State, act: Act, n: nat)
    requires OutOfReach(s, n) && ProcInv(s) && CanAct(s, act) && !act.Updater? && n < ARTIFACTS
    requires ORDER[n] in s.folder.present
    ensures OutOfReach(After(s, act), n) && ORDER[n] in After(s, act).folder.present
  {
    hide Placed, Proper, Target, DeedOf, CanMove;
    if act.Do? {
      MoveStaysOutOfReach(s.procs[act.p], act.move, s.lock, s.marker, n);
    }
  }

  lemma {:induction false} OutOfReachStays(s: State, acts: seq<Act>, t: State, n: nat)
    requires OutOfReach(s, n) && ProcInv(s) && History(s, acts, t) && NoUpdate(acts) && n < ARTIFACTS
    requires ORDER[n] in s.folder.present
    ensures ORDER[n] in t.folder.present
    decreases |acts|
  {
    hide OutOfReach, ProcInv;
    if acts != [] {
      StaysOutOfReach(s, acts[0], n);
      ProcStep(s, acts[0]);
      OutOfReachStays(After(s, acts[0]), acts[1..], t, n);
    }
  }

  /** The way of a start that meets no trouble. */
  function Onward(pc: Pc): Move {
    match pc
    case Locking => TryLock
    case Owning => TakeMutex(true)
    case Creating => CreateFolders(true)
    case Checking => LookForMarker
    case Marking => WriteMarker(true)
    case Preparing => RestOfInit(true)
    case Arming => StartInput
    case Returning => ReturnFromInit
    case Running(_) => Fire
    case _ => DeleteNext(true)
  }

  /** Steps to artifact `n` on that way. */
  function Distance(pc: Pc, n: nat): nat {
    match pc
    case Locking => n + 10
    case Owning => n + 9
    case Creating => n + 8
    case Checking => n + 7
    case Marking => n + 6
    case Preparing => n + 5
    case Arming => n + 4
    case Returning => n + 3
    case Running(_) => n + 2
    case Cleaning(k) => if k <= n then n + 1 - k else 0
    case _ => 0
  }

  /** One such step: it deletes artifact `n`, or comes closer to it; it may delete another before `n`. */
  lemma OnwardMoves(p: nat, pr: Proc, lock: Option<nat>, marker: bool, n: nat)
    requires MayReach(pr, n) && n < ARTIFACTS && lock in {None, Some(p)} && (Owns(pr.pc) <==> lock == Some(p))
    ensures CanMove(pr, Onward(pr.pc)) && LockNext(p, pr, Onward(pr.pc), lock, marker) == Some(p)
    ensures var pc, d := Target(pr, Onward(pr.pc), lock), DeedOf(pr, Onward(pr.pc), lock, marker);
            && d != Token
            && (d.Deleted? ==> exists k :: 0 <= k <= n && d.artifact == ORDER[k])
            && if pr.pc == Cleaning(n) then d == Deleted(ORDER[n])
               else MayReach(pr.(pc := pc), n) && Distance(pc, n) < Distance(pr.pc, n)
  {
  }

  lemma OnwardGoes(s: State, p: nat, n: nat)
    requires OwnerInv(s) && p in s.procs && MayReach(s.procs[p], n) && n < ARTIFACTS && s.lock in {None, Some(p)}
    ensures CanAct(s, Do(p, Onward(s.procs[p].pc)))
    ensures var t := After(s, Do(p, Onward(s.procs[p].pc)));
            && t.procs == s.procs[p := t.procs[p]] && t.lock == Some(p)
            && (forall m :: n < m < ARTIFACTS && ORDER[m] in s.folder.present ==> ORDER[m] in t.folder.present)
            && if s.procs[p].pc == Cleaning(n) then ORDER[n] !in t.folder.present
               else MayReach(t.procs[p], n) && Distance(t.procs[p].pc, n) < Distance(s.procs[p].pc, n)
  {
    hide Target, DeedOf, CanMove, Onward, Distance, Owns;
    var pr := s.procs[p];
    var move := Onward(pr.pc);
    OnwardMoves(p, pr, s.lock, s.marker, n);
    OrderIsDistinct();
    var d, t := DeedOf(pr, move, s.lock, s.marker), After(s, Do(p, move));
    assert t.folder == FolderAfter(s.folder, d);
  }

  /** A process that may get to artifact `n`, and is not kept from the lock, may get there with all
      others as they are, and with nothing behind `n` touched. */
  lemma {:induction false} GetsThere(s: State, p: nat, n: nat) returns (acts: seq<Act>, t: State)
    requires OwnerInv(s) && p in s.procs && MayReach(s.procs[p], n) && n < ARTIFACTS && s.lock in {None, Some(p)}
    ensures NoUpdate(acts) && History(s, acts, t) && ORDER[n] !in t.folder.present && OwnerInv(t)
    ensures p in t.procs && t.procs == s.procs[p := t.procs[p]] && t.lock == Some(p)
    ensures forall m :: n < m < ARTIFACTS && ORDER[m] in s.folder.present ==> ORDER[m] in t.folder.present
    decreases Distance(s.procs[p].pc, n)
  {
    hide OwnerInv, MayReach, Onward, Distance, CanAct;
    var act := Do(p, Onward(s.procs[p].pc));
    OnwardGoes(s, p, n);
    var u := After(s, act);
    OwnerStep(s, p, act.move);
    if s.procs[p].pc == Cleaning(n) {
      acts, t := [act], u;
      assert History(u, [], u) && acts[1..] == [];
    } else {
      var more;
      more, t := GetsThere(u, p, n);
      acts := [act] + more;
      assert acts[1..] == more;
    }
  }

  /** If another process is in the way, it may die first. */
  lemma MayRemove(s: State, p: nat, n: nat) returns (acts: seq<Act>, t: State)
    requires OwnerInv(s) && p in s.procs && MayReach(s.procs[p], n) && n < ARTIFACTS
    ensures NoUpdate(acts) && History(s, acts, t) && ORDER[n] !in t.folder.present
  {
    if s.lock in {None, Some(p)} {
      acts, t := GetsThere(s, p, n);
    } else {
      var act := Do(s.lock.value, Crash);
      var u := After(s, act);
      OwnerStep(s, s.lock.value, Crash);
      var more;
      more, t := GetsThere(u, p, n);
      acts := [act] + more;
      assert acts[1..] == more;
    }
  }

  lemma ActKeepsOwners(s: State, act: Act)
    requires OwnerInv(s) && CanAct(s, act)
    ensures OwnerInv(After(s, act))
  {
    if act.Do? {
      OwnerStep(s, act.p, act.move);
    }
  }

  lemma IdleIsSound(s: State)
    requires Idle(s)
    ensures OwnerInv(s) && ProcInv(s)
  {
  }

  lemma NoneMayReach(s: State, n: nat)
    requires PhaseFile !in s.folder.present && forall p :: p in s.procs ==> !MayReach(s.procs[p], n)
    ensures OutOfReach(s, n)
  {
  }

  lemma {:induction false} OwnersHold(s: State, acts: seq<Act>, t: State)
    requires OwnerInv(s) && History(s, acts, t)
    ensures OwnerInv(t)
    decreases |acts|
  {
    hide OwnerInv;
    if acts != [] {
      ActKeepsOwners(s, acts[0]);
      OwnersHold(After(s, acts[0]), acts[1..], t);
    }
  }

  lemma NobodyRemoves(s: State, n: nat)
    requires OutOfReach(s, n) && ProcInv(s) && n < ARTIFACTS && ORDER[n] in s.folder.present
    ensures !exists acts, t :: NoUpdate(acts) && History(s, acts, t) && ORDER[n] !in t.folder.present
  {
    hide OutOfReach, ProcInv, History, NoUpdate;
    forall acts, t | NoUpdate(acts) && History(s, acts, t) ensures ORDER[n] in t.folder.present {
      OutOfReachStays(s, acts, t, n);
    }
  }

  lemma RemovableExactly(s: State, n: nat)
    requires OwnerInv(s) && ProcInv(s) && n < ARTIFACTS && PhaseFile !in s.folder.present
    requires ORDER[n] in s.folder.present
    ensures (exists acts, t :: NoUpdate(acts) && History(s, acts, t) && ORDER[n] !in t.folder.present)
       <==> exists p :: p in s.procs && MayReach(s.procs[p], n)
  {
    hide OwnerInv, ProcInv, MayReach, History, NoUpdate, OutOfReach;
    if p :| p in s.procs && MayReach(s.procs[p], n) {
      var acts, t := MayRemove(s, p, n);
    } else {
      NoneMayReach(s, n);
      NobodyRemoves(s, n);
    }
  }

  /** Once the phase file is gone, an artifact that is still there can yet be removed exactly if some
      process that is still alive had decided to clean up before, and has not got past it. So what
      is left when there is no such process is left for good. */
  lemma PhaseGoneForGood(start: State, past: seq<Act>, s: State, n: nat)
    requires Idle(start) && History(start, past, s)
    requires n < ARTIFACTS && PhaseFile !in s.folder.present && ORDER[n] in s.folder.present
    ensures (exists acts, t :: NoUpdate(acts) && History(s, acts, t) && ORDER[n] !in t.folder.present)
       <==> exists p :: p in s.procs && MayReach(s.procs[p], n)
  {
    hide OwnerInv, ProcInv, MayReach, History, NoUpdate, Idle;
    IdleIsSound(start);
    OwnersHold(start, past, s);
    ProcsHold(start, past, s);
    RemovableExactly(s, n);
  }

  /** Two starts that decide to clean up. */
  lemma TwoAppear(s: State) returns (acts: seq<Act>, t: State)
    requires Idle(s) && s.folder == Folder({PhaseFile, TransactionJson}, "healthy")
    ensures NoUpdate(acts) && History(s, acts, t) && OwnerInv(t) && t.lock == None && t.folder == s.folder
    ensures 0 in t.procs && 1 in t.procs
    ensures t.procs[0] == t.procs[1] == Proc(false, true, Locking, [])
  {
    acts := [Appear(0, false), Appear(1, false)];
    var a := After(s, acts[0]);
    t := After(a, acts[1]);
    assert acts[1..] == [acts[1]] && History(a, [acts[1]], t);
  }

  /** And there may be such a process: of two starts that decide to clean up, one removes the phase
      file and dies, and the other has yet to remove the transaction file. */
  lemma SecondCleanerMayBeLeft(s: State) returns (acts: seq<Act>, t: State)
    requires Idle(s) && s.folder == Folder({PhaseFile, TransactionJson}, "healthy")
    ensures NoUpdate(acts) && History(s, acts, t) && OwnerInv(t)
    ensures PhaseFile !in t.folder.present && TransactionJson in t.folder.present
    ensures 1 in t.procs && MayReach(t.procs[1], 8) && ORDER[8] == TransactionJson
  {
    hide History, OwnerInv, Idle;
    OrderIsDistinct();
    var first, b := TwoAppear(s);
    var more;
    more, t := GetsThere(b, 0, 7);
    HistoryJoins(s, first, b, more, t);
    acts := first + more;
  }

  // -- the clean-up of one process -----------------------------------------------------------------------

  /** Past its clean-up for good. */
  predicate Leaving(pc: Pc) {
    pc in {Down, Finished, Refused, Gone}
  }

  lemma {:induction false} LeavingStays(s: State, acts: seq<Act>, t: State, p: nat)
    requires History(s, acts, t) && p in s.procs && Leaving(s.procs[p].pc)
    ensures p in t.procs && Leaving(t.procs[p].pc)
    decreases |acts|
  {
    if acts != [] {
      LeavingStays(After(s, acts[0]), acts[1..], t, p);
    }
  }

  function KeptIn(log: seq<Mark>): set<Artifact> {
    set a | Kept(a) in Done(log)
  }

  predicate InCleanUp(pr: Proc) {
    !pr.validation && (pr.pc.Cleaning? || pr.pc == Running(true))
  }

  /** What happens while `p`, which holds the lock, cleans up: it goes on, is through, or leaves; the
      others change nothing. */
  lemma CleanUpStep(s: State, p: nat, act: Act)
    requires OwnerInv(s) && p in s.procs && InCleanUp(s.procs[p]) && CanAct(s, act) && !act.Updater?
    ensures var t, j := After(s, act), Reached(s.procs[p]);
            && p in t.procs
            && (Leaving(t.procs[p].pc)
                || (InCleanUp(t.procs[p]) && t.procs[p] == s.procs[p] && t.folder == s.folder
                    && s.log <= t.log && |t.log| <= |s.log| + 1
                    && (t.log != s.log ==> !t.log[|s.log|].deed.Kept?))
                || (InCleanUp(t.procs[p]) && act.Do? && act.p == p && act.move.DeleteNext?
                    && j < ARTIFACTS && Reached(t.procs[p]) == j + 1
                    && t.log == s.log + [Mark(p, if act.move.ok then Deleted(ORDER[j]) else Kept(ORDER[j]))]
                    && t.folder == if act.move.ok then s.folder.(present := s.folder.present - {ORDER[j]})
                                   else s.folder))
  {
    if act.Do? && act.p != p {
      var pr := s.procs[act.p];
      assert !Owns(pr.pc) && s.lock == Some(p);
      var m := Mark(act.p, DeedOf(pr, act.move, s.lock, s.marker));
      assert m.deed in {LockDenied, Died} && After(s, act).log == s.log + [m];
    } else if act.Do? && act.move.DeleteNext? {
      assert s.procs[p].pc.Cleaning?;
    } else if act.Do? {
      assert act.move in {Quit, Crash};
    }
  }

  lemma NotBoth(pr: Proc)
    ensures !(Leaving(pr.pc) && InCleanUp(pr))
  {
  }

  lemma NotRemovedYet(j: nat)
    requires j < ARTIFACTS
    ensures ORDER[j] !in Removed(j)
  {
    OrderIsDistinct();
  }

  lemma KeptFirst(m: Mark, log: seq<Mark>)
    ensures KeptIn([m] + log) == if m.deed.Kept? then {m.deed.artifact} + KeptIn(log) else KeptIn(log)
  {
    assert Done([m] + log) == {m.deed} + Done(log) by {
      forall d | d in {m.deed} + Done(log) ensures d in Done([m] + log) {
        if d == m.deed {
          assert m in [m] + log;
        } else {
          var x :| x in log && x.deed == d;
          assert x in [m] + log;
        }
      }
    }
  }

  lemma RemovedGrows(j: nat, k: nat)
    requires j <= k
    ensures Removed(j) <= Removed(k)
  {
  }

  lemma OneMoreGone<T>(s: set<T>, u: set<T>, t: set<T>, a: T, before: set<T>, next: set<T>, all: set<T>,
                       later: set<T>, stuck: set<T>)
    requires a !in before && next == before + {a} && next <= all && later !! next
    requires t == u - (all - next - later)
    requires (u == s - {a} && stuck == later) || (u == s && stuck == {a} + later)
    ensures t == s - (all - before - stuck) && stuck !! before
  {
  }

  /** The clean-up from artifact `j` on, whatever others do meanwhile. */
  lemma {:induction false} CleaningFrom(s: State, p: nat, acts: seq<Act>, t: State)
    requires OwnerInv(s) && NoUpdate(acts) && History(s, acts, t)
    requires p in s.procs && InCleanUp(s.procs[p]) && p in t.procs && InCleanUp(t.procs[p])
    ensures s.log <= t.log && t.folder.text == s.folder.text
    ensures var j, k, stuck := Reached(s.procs[p]), Reached(t.procs[p]), KeptIn(t.log[|s.log|..]);
            && stuck !! Removed(j)
            && j <= k && t.folder.present == s.folder.present - (Removed(k) - Removed(j) - stuck)
    decreases |acts|
  {
    hide OwnerInv, InCleanUp, CanAct, After, Removed;
    if acts == [] {
      assert t.log[|s.log|..] == [];
    } else {
      var u := After(s, acts[0]);
      CleanUpStep(s, p, acts[0]);
      ActKeepsOwners(s, acts[0]);
      if Leaving(u.procs[p].pc) {
        LeavingStays(u, acts[1..], t, p);
        NotBoth(t.procs[p]);
        assert false;
      }
      CleaningFrom(u, p, acts[1..], t);
      if u.log != s.log {
        assert t.log[|s.log|..] == [u.log[|s.log|]] + t.log[|u.log|..];
        KeptFirst(u.log[|s.log|], t.log[|u.log|..]);
      }
      if Reached(u.procs[p]) != Reached(s.procs[p]) {
        var j := Reached(s.procs[p]);
        RemovedNext(j);
        NotRemovedYet(j);
        RemovedGrows(j + 1, Reached(t.procs[p]));
        OneMoreGone(s.folder.present, u.folder.present, t.folder.present, ORDER[j], Removed(j), Removed(j + 1),
                    Removed(Reached(t.procs[p])), KeptIn(t.log[|u.log|..]), KeptIn(t.log[|s.log|..]));
      }
    }
  }

  /** The clean-up of a running process, seen after any number of removals and whatever other
      processes do meanwhile, is `CleanCompletedUpdateArtifacts` got as far. */
  lemma CleaningIsCleanup(s: State, p: nat, acts: seq<Act>, t: State)
    requires OwnerInv(s) && NoUpdate(acts) && History(s, acts, t)
    requires p in s.procs && InCleanUp(s.procs[p]) && s.procs[p].pc == Cleaning(0) && p in t.procs
    requires InCleanUp(t.procs[p])
    ensures s.log <= t.log
    ensures t.folder == Cleaned(s.folder, Reached(t.procs[p]), KeptIn(t.log[|s.log|..]))
  {
    CleaningFrom(s, p, acts, t);
    assert Removed(0) == {};
  }
}
