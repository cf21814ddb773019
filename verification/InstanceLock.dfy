/**
 The single-instance lock as a protocol of any number of processes, with the
 socket file's life cycle on top of it.

 A file is a kernel object (`serial`, never reused) with an inode number that may
 be given to another file once no link and no descriptor keeps the first one
 alive. `flock` is held on the object; `lstat` shows only the number.
 */
module InstanceLock {
  import opened Wrappers

  /** `kAcquireAttempts` */
  const ACQUIRE_ATTEMPTS: nat := 8

  datatype File = File(serial: nat, ino: nat)

  /** What the socket path names: who bound it (None for a process that takes no
      part in the protocol) and its inode number. */
  datatype Socket = Socket(maker: Option<nat>, ino: nat)

  datatype Phase =
    | Idle            // outside acquire(), no descriptor
    | Trying          // in the retry loop, before open()
    | Opened          // open() and fstat() done
    | Locked          // flock() granted, path not compared yet
    | Dropping        // the comparison failed; the descriptor closes next
    | Holding         // the lock object exists; the server may bind
    | Leaving         // teardown started: no more binding
    | LeavingMatched  // the socket path still names the recorded inode
    | SocketGone      // teardown is done with the socket path
    | ReleaseMatched  // release(): the lock path names the locked inode
    | Unlinked        // release(): the lock file is removed; close() next

  /** How far a holder's listening socket is. The identity is what the path showed right
      after the bind; it is kept through a replacement until the listener is closed. */
  datatype Binding =
    | Unbound
    | Made                // bind() done
    | Seen(ino: nat)      // the identity taken
    | Listening(ino: nat) // listen() done: clients are accepted
    | Replaced(ino: nat)  // the path was seen to name something else

  datatype Proc = Proc(phase: Phase, fd: Option<File>, attempt: nat, sock: Binding)

  datatype State = State(
    procs: seq<Proc>,
    lockPath: Option<File>,
    sockPath: Option<Socket>,
    locks: map<nat, nat>,   // kernel lock table: file serial -> process
    nextSerial: nat)

  datatype Action =
    | Start(p: nat)
    | Open(p: nat, ino: nat)        // `ino` is the number a created file gets
    | GiveUp(p: nat)                // open(), fstat() or flock() failed outright
    | Flock(p: nat)
    | Compare(p: nat)
    | RemoveStaleSocket(p: nat)
    | BindSocket(p: nat, ino: nat)
    | StatSocket(p: nat)
    | Listen(p: nat)
    | FailBind(p: nat)              // the stat or listen() failed
    | SeeReplaced(p: nat)
    | CloseReplaced(p: nat)
    | BeginTeardown(p: nat)
    | CompareSocket(p: nat)
    | UnlinkSocket(p: nat)
    | CompareLock(p: nat)
    | UnlinkLock(p: nat)
    | Close(p: nat)
    | Crash(p: nat)
    | Foreign(now: Option<Socket>)  // anyone else replaces or removes the socket

  // ---- the file system ---------------------------------------------------

  predicate HasProc(s: State, p: nat) { p < |s.procs| }

  predicate HasFd(s: State, p: nat) { p < |s.procs| && s.procs[p].fd.Some? }

  function FdOf(s: State, p: nat): File
    requires HasFd(s, p)
  {
    s.procs[p].fd.value
  }

  /** Linked at the path or open somewhere: its number cannot be given away. */
  predicate Alive(s: State, f: File) {
    s.lockPath == Some(f) || exists p | 0 <= p < |s.procs| :: s.procs[p].fd == Some(f)
  }

  predicate NumberInUse(s: State, ino: nat) {
    || (s.lockPath.Some? && s.lockPath.value.ino == ino)
    || exists p | 0 <= p < |s.procs| :: s.procs[p].fd.Some? && s.procs[p].fd.value.ino == ino
  }

  /** `pathNames`: the path exists and shows this number. */
  predicate PathNames(s: State, ino: nat) {
    s.lockPath.Some? && s.lockPath.value.ino == ino
  }

  /** `stillNames`: the path shows the recorded number. */
  predicate SocketStillNames(s: State, l: Binding) {
    (l.Listening? || l.Replaced?) && s.sockPath.Some? && s.sockPath.value.ino == l.ino
  }

  // ---- one step ----------------------------------------------------------

  function Put(s: State, p: nat, q: Proc): State
    requires HasProc(s, p)
  {
    s.(procs := s.procs[p := q])
  }

  function Enter(s: State, p: nat, phase: Phase): State
    requires HasProc(s, p)
  {
    Put(s, p, s.procs[p].(phase := phase))
  }

  /** The descriptor goes, and with it the lock it held. */
  function CloseFd(s: State, p: nat, phase: Phase, attempt: nat): State
    requires HasProc(s, p)
  {
    Put(s, p, Proc(phase, None, attempt, Unbound))
      .(locks := map k | k in s.locks && s.locks[k] != p :: s.locks[k])
  }

  function OpenFile(s: State, p: nat, ino: nat): State
    requires HasProc(s, p)
  {
    if s.lockPath.Some? then
      Put(s, p, s.procs[p].(phase := Opened, fd := s.lockPath))
    else if NumberInUse(s, ino) then
      s  // the file system never hands out a number in use
    else
      var f := File(s.nextSerial, ino);
      Put(s, p, s.procs[p].(phase := Opened, fd := Some(f)))
        .(lockPath := Some(f), nextSerial := s.nextSerial + 1)
  }

  function AfterDrop(attempt: nat): Phase {
    if attempt + 1 < ACQUIRE_ATTEMPTS then Trying else Idle
  }

  /** An action that is not enabled changes nothing, so every sequence of actions
      is a run. */
  function Step(s: State, a: Action): State {
    if a.Foreign? then
      if a.now.Some? && a.now.value.maker.Some? then s else s.(sockPath := a.now)
    else if HasProc(s, a.p) then ProcStep(s, a)
    else s
  }

  function ProcStep(s: State, a: Action): State
    requires !a.Foreign? && HasProc(s, a.p)
  {
    var p := a.p;
    var me := s.procs[p];
    match a
    case Start(_) => if me.phase == Idle then Put(s, p, Proc(Trying, None, 0, Unbound)) else s
    case Open(_, ino) => if me.phase == Trying then OpenFile(s, p, ino) else s
    case GiveUp(_) =>
      if me.phase in {Trying, Opened} then CloseFd(s, p, Idle, 0) else s
    case Flock(_) =>
      if me.phase != Opened || me.fd.None? then s
      else if me.fd.value.serial in s.locks then CloseFd(s, p, Idle, 0)  // EWOULDBLOCK
      else Enter(s, p, Locked).(locks := s.locks[me.fd.value.serial := p])
    case Compare(_) =>
      if me.phase != Locked || me.fd.None? then s
      else Enter(s, p, if PathNames(s, me.fd.value.ino) then Holding else Dropping)
    case RemoveStaleSocket(_) => if me.phase == Holding && me.sock.Unbound? then s.(sockPath := None) else s
    case BindSocket(_, ino) =>
      if me.phase == Holding && me.sock.Unbound? && s.sockPath.None?
      then Put(s, p, me.(sock := Made)).(sockPath := Some(Socket(Some(p), ino))) else s
    case StatSocket(_) =>
      if me.phase == Holding && me.sock.Made? && s.sockPath.Some?
      then Put(s, p, me.(sock := Seen(s.sockPath.value.ino))) else s
    case Listen(_) =>
      if me.phase == Holding && me.sock.Seen? then Put(s, p, me.(sock := Listening(me.sock.ino))) else s
    case FailBind(_) =>
      if me.phase == Holding && (me.sock.Made? || me.sock.Seen?) then Put(s, p, me.(sock := Unbound)) else s
    case SeeReplaced(_) =>
      if me.phase == Holding && me.sock.Listening? && !SocketStillNames(s, me.sock)
      then Put(s, p, me.(sock := Replaced(me.sock.ino))) else s
    case CloseReplaced(_) => if me.phase == Holding && me.sock.Replaced? then Put(s, p, me.(sock := Unbound)) else s
    case BeginTeardown(_) =>
      if me.phase == Holding && !me.sock.Made? && !me.sock.Seen? then Enter(s, p, Leaving) else s
    case CompareSocket(_) =>
      if me.phase != Leaving then s
      else Enter(s, p, if SocketStillNames(s, me.sock) then LeavingMatched else SocketGone)
    case UnlinkSocket(_) =>
      if me.phase == LeavingMatched then Enter(s, p, SocketGone).(sockPath := None) else s
    case CompareLock(_) =>
      if me.phase != SocketGone || me.fd.None? then s
      else Enter(s, p, if PathNames(s, me.fd.value.ino) then ReleaseMatched else Unlinked)
    case UnlinkLock(_) =>
      if me.phase == ReleaseMatched then Enter(s, p, Unlinked).(lockPath := None) else s
    case Close(_) =>
      if me.phase == Dropping then CloseFd(s, p, AfterDrop(me.attempt), me.attempt + 1)
      else if me.phase == Unlinked then CloseFd(s, p, Idle, 0)
      else s
    case Crash(_) => CloseFd(s, p, Idle, 0)
  }

  function Run(s: State, acts: seq<Action>): State
    decreases |acts|
  {
    if acts == [] then s else Run(Step(s, acts[0]), acts[1..])
  }

  /** Any number of processes, and whatever an earlier life left at both paths. */
  predicate Init(s: State) {
    && (forall p: nat :: p < |s.procs| ==> s.procs[p] == Proc(Idle, None, 0, Unbound))
    && s.locks == map[]
    && (s.lockPath.Some? ==> s.lockPath.value.serial < s.nextSerial)
  }

  // ---- what every step keeps ----------------------------------------------

  predicate HoldsLock(ph: Phase) {
    ph !in {Idle, Trying, Opened}
  }

  /** Past the comparison and the lock file not yet removed. */
  predicate Owning(ph: Phase) {
    ph in {Holding, Leaving, LeavingMatched, SocketGone, ReleaseMatched}
  }

  predicate InCharge(s: State, p: nat) {
    p < |s.procs| && Owning(s.procs[p].phase)
  }

  ghost predicate ProcOk(s: State, p: nat)
    requires HasProc(s, p)
  {
    var me := s.procs[p];
    && (me.fd.Some? <==> me.phase !in {Idle, Trying})
    && (me.fd.Some? ==> me.fd.value.serial < s.nextSerial)
    && (me.phase in {Trying, Opened, Locked, Dropping} ==> me.attempt < ACQUIRE_ATTEMPTS)
    && (HoldsLock(me.phase) ==>
          me.fd.value.serial in s.locks && s.locks[me.fd.value.serial] == p)
    && (forall k | k in s.locks && s.locks[k] == p :: HoldsLock(me.phase) && me.fd.value.serial == k)
    && (Owning(me.phase) ==> s.lockPath == me.fd)
    && (me.phase in {Dropping, Unlinked} ==> s.lockPath != me.fd)
  }

  ghost predicate NumbersDistinct(s: State) {
    forall f, g | Alive(s, f) && Alive(s, g) && (f.ino == g.ino || f.serial == g.serial) :: f == g
  }

  ghost predicate Inv(s: State) {
    && (forall p: nat | HasProc(s, p) :: ProcOk(s, p))
    && (forall k | k in s.locks :: HasProc(s, s.locks[k]))
    && (s.lockPath.Some? ==> s.lockPath.value.serial < s.nextSerial)
    && NumbersDistinct(s)
  }

  lemma InitInv(s: State)
    requires Init(s)
    ensures Inv(s)
  {
  }

  /** The path shows one number, a live number names one file, and a file has one
      lock owner: two processes cannot both be in charge. */
  lemma OneInCharge(s: State, p: nat, q: nat)
    requires Inv(s) && InCharge(s, p) && InCharge(s, q)
    ensures p == q
  {
    assert ProcOk(s, p) && ProcOk(s, q);
  }

  /** What `lstat` shows is enough: a descriptor keeps its number from reuse. */
  lemma NumberIdentifiesFile(s: State, p: nat)
    requires Inv(s) && HasFd(s, p)
    ensures PathNames(s, FdOf(s, p).ino) <==> s.lockPath == Some(FdOf(s, p))
  {
  }

  /** What a step of process `p` can do to the parts it shares with the others. */
  ghost predicate Effect(s: State, t: State, p: nat) {
    && HasProc(s, p) && |t.procs| == |s.procs| && t.procs == s.procs[p := t.procs[p]]
    && s.nextSerial <= t.nextSerial
    && LocksOfOthersKept(s, t, p)
    && (|| t.lockPath == s.lockPath
        || (t.lockPath == None && s.procs[p].phase == ReleaseMatched)
        || (s.lockPath == None && t.lockPath.Some? && t.lockPath.value.serial == s.nextSerial < t.nextSerial
            && !NumberInUse(s, t.lockPath.value.ino)))
    && t.procs[p].fd in {None, s.procs[p].fd, t.lockPath}
  }

  ghost predicate LocksOfOthersKept(s: State, t: State, p: nat) {
    && (forall k :: k in t.locks && t.locks[k] != p <==> k in s.locks && s.locks[k] != p)
    && (forall k | k in t.locks && t.locks[k] != p :: t.locks[k] == s.locks[k])
  }

  lemma StepKeepsLocksOfOthers(s: State, a: Action)
    requires !a.Foreign? && HasProc(s, a.p)
    requires s.procs[a.p].phase == Opened && s.procs[a.p].fd.Some? && s.procs[a.p].fd.value.serial in s.locks
      ==> s.locks[s.procs[a.p].fd.value.serial] != a.p
    ensures LocksOfOthersKept(s, Step(s, a), a.p)
  {
  }

  lemma StepEffect(s: State, a: Action)
    requires !a.Foreign? && HasProc(s, a.p)
    requires s.procs[a.p].phase == Opened && s.procs[a.p].fd.Some? && s.procs[a.p].fd.value.serial in s.locks
      ==> s.locks[s.procs[a.p].fd.value.serial] != a.p
    ensures Effect(s, Step(s, a), a.p)
  {
    StepKeepsLocksOfOthers(s, a);
  }

  /** A process other than the actor: its record is untouched, and the path and
      the lock it relies on survive the step. */
  lemma EffectKeepsOther(s: State, t: State, p: nat, q: nat)
    requires Inv(s) && HasProc(s, q) && p != q && Effect(s, t, p)
    ensures HasProc(t, q) && t.procs[q] == s.procs[q] && ProcOk(t, q)
  {
  }

  lemma StepKeepsOther(s: State, a: Action, q: nat)
    requires Inv(s) && HasProc(s, q) && (a.Foreign? || a.p != q)
    ensures HasProc(Step(s, a), q) && Step(s, a).procs[q] == s.procs[q]
    ensures ProcOk(Step(s, a), q)
  {
    assert ProcOk(s, q);
    if !a.Foreign? && HasProc(s, a.p) {
      assert ProcOk(s, a.p);
      StepEffect(s, a);
      EffectKeepsOther(s, Step(s, a), a.p, q);
    }
  }

  /** The calls on the socket path and its listener. */
  predicate SocketCall(a: Action) {
    || a.RemoveStaleSocket? || a.BindSocket? || a.StatSocket? || a.Listen? || a.FailBind? || a.SeeReplaced?
    || a.CloseReplaced? || a.BeginTeardown? || a.CompareSocket? || a.UnlinkSocket?
  }

  lemma ActorAtSocket(s: State, a: Action)
    requires SocketCall(a) && HasProc(s, a.p) && ProcOk(s, a.p)
    ensures HasProc(Step(s, a), a.p) && ProcOk(Step(s, a), a.p)
  {
  }

  lemma ActorAtLock(s: State, a: Action)
    requires !a.Foreign? && !SocketCall(a) && HasProc(s, a.p) && ProcOk(s, a.p)
    requires s.lockPath.Some? ==> s.lockPath.value.serial < s.nextSerial
    requires HasFd(s, a.p) ==> (PathNames(s, FdOf(s, a.p).ino) <==> s.lockPath == Some(FdOf(s, a.p)))
    ensures HasProc(Step(s, a), a.p) && ProcOk(Step(s, a), a.p)
  {
  }

  lemma StepKeepsActor(s: State, a: Action)
    requires Inv(s) && !a.Foreign? && HasProc(s, a.p)
    ensures HasProc(Step(s, a), a.p) && ProcOk(Step(s, a), a.p)
  {
    assert ProcOk(s, a.p);
    if HasFd(s, a.p) {
      NumberIdentifiesFile(s, a.p);
    }
    if SocketCall(a) {
      ActorAtSocket(s, a);
    } else {
      ActorAtLock(s, a);
    }
  }

  lemma AliveIsKnown(s: State, f: File)
    requires Inv(s) && Alive(s, f)
    ensures f.serial < s.nextSerial && NumberInUse(s, f.ino)
  {
    if s.lockPath != Some(f) {
      var p: nat :| p < |s.procs| && s.procs[p].fd == Some(f);
      assert ProcOk(s, p);
    }
  }

  /** No step links or opens a file except the one file it creates, and that one
      gets a number nobody uses. */
  lemma EffectAlive(s: State, t: State, p: nat, f: File)
    requires Effect(s, t, p) && Alive(t, f)
    ensures Alive(s, f) || (f.serial == s.nextSerial && t.lockPath == Some(f) && !NumberInUse(s, f.ino))
  {
  }

  lemma EffectKeepsNumbers(s: State, t: State, p: nat)
    requires Inv(s) && Effect(s, t, p)
    ensures NumbersDistinct(t)
  {
    forall f, g | Alive(t, f) && Alive(t, g) && (f.ino == g.ino || f.serial == g.serial) ensures f == g {
      EffectAlive(s, t, p, f);
      EffectAlive(s, t, p, g);
      if Alive(s, f) { AliveIsKnown(s, f); }
      if Alive(s, g) { AliveIsKnown(s, g); }
    }
  }

  lemma StepInv(s: State, a: Action)
    requires Inv(s)
    ensures Inv(Step(s, a))
  {
    var t := Step(s, a);
    if a.Foreign? {
      ForeignInv(s, t);
    } else if HasProc(s, a.p) {
      assert ProcOk(s, a.p);
      StepEffect(s, a);
      StepKeepsActor(s, a);
      EffectInv(s, t, a.p);
    }
  }

  lemma ForeignInv(s: State, t: State)
    requires Inv(s) && t == s.(sockPath := t.sockPath)
    ensures Inv(t)
  {
    forall q: nat | HasProc(t, q) ensures ProcOk(t, q) { assert ProcOk(s, q); }
    forall f, g | Alive(t, f) && Alive(t, g) && (f.ino == g.ino || f.serial == g.serial) ensures f == g {
      assert Alive(s, f) && Alive(s, g);
    }
  }

  lemma EffectInv(s: State, t: State, p: nat)
    requires Inv(s) && Effect(s, t, p) && ProcOk(t, p)
    ensures Inv(t)
  {
    forall q: nat | HasProc(t, q) ensures ProcOk(t, q) {
      if q != p {
        EffectKeepsOther(s, t, p, q);
      }
    }
    forall k | k in t.locks ensures HasProc(t, t.locks[k]) {
      assert t.locks[k] != p ==> k in s.locks;
    }
    EffectKeepsNumbers(s, t, p);
  }

  // ---- whole runs ---------------------------------------------------------

  lemma {:induction false} RunInv(s: State, acts: seq<Action>)
    requires Inv(s)
    ensures Inv(Run(s, acts))
    decreases |acts|
  {
    if acts != [] {
      StepInv(s, acts[0]);
      RunInv(Step(s, acts[0]), acts[1..]);
    }
  }

  lemma {:induction false} RunAppend(s: State, acts: seq<Action>, more: seq<Action>)
    ensures Run(s, acts + more) == Run(Run(s, acts), more)
    decreases |acts|
  {
    if acts == [] {
      assert acts + more == more;
    } else {
      assert (acts + more)[1..] == acts[1..] + more;
      RunAppend(Step(s, acts[0]), acts[1..], more);
    }
  }

  /** For any number of processes and any interleaving, with crashes anywhere and
      inode numbers reused, at most one process is in charge. */
  lemma MutualExclusion(s0: State, acts: seq<Action>, p: nat, q: nat)
    requires Init(s0)
    requires InCharge(Run(s0, acts), p) && InCharge(Run(s0, acts), q)
    ensures p == q
  {
    InitInv(s0);
    RunInv(s0, acts);
    OneInCharge(Run(s0, acts), p, q);
  }

  /** Among participants only the process in charge ever changes what the socket
      path names. */
  lemma OnlyHolderTouchesSocket(s0: State, acts: seq<Action>, a: Action, q: nat)
    requires Init(s0) && !a.Foreign?
    requires Step(Run(s0, acts), a).sockPath != Run(s0, acts).sockPath
    ensures InCharge(Run(s0, acts), a.p) && InCharge(Step(Run(s0, acts), a), a.p)
    ensures InCharge(Run(s0, acts), q) ==> q == a.p
  {
    if InCharge(Run(s0, acts), q) {
      MutualExclusion(s0, acts, q, a.p);
    }
  }

  predicate Uninvolved(acts: seq<Action>, q: nat) {
    forall a | a in acts :: !a.Foreign? && a.p != q
  }

  lemma StepSparesHolder(s: State, a: Action, q: nat)
    requires Inv(s) && InCharge(s, q) && !a.Foreign? && a.p != q
    ensures var t := Step(s, a);
      t.sockPath == s.sockPath && t.lockPath == s.lockPath && InCharge(t, q) && t.procs[q] == s.procs[q]
  {
    StepKeepsOther(s, a, q);
    StepInv(s, a);
    assert ProcOk(s, q) && ProcOk(Step(s, a), q);
    if InCharge(s, a.p) {
      OneInCharge(s, a.p, q);
    }
  }

  /** Whatever every other participant does, predecessors in teardown and
      contenders in acquire() included, both files of the process in charge stay
      exactly as they are. */
  lemma {:induction false} NobodyRemovesHoldersFiles(s: State, acts: seq<Action>, q: nat)
    requires Inv(s) && InCharge(s, q) && Uninvolved(acts, q)
    ensures var t := Run(s, acts);
      t.sockPath == s.sockPath && t.lockPath == s.lockPath && InCharge(t, q) && t.procs[q] == s.procs[q]
    decreases |acts|
  {
    if acts != [] {
      assert acts[0] in acts && forall a | a in acts[1..] :: a in acts;
      StepSparesHolder(s, acts[0], q);
      StepInv(s, acts[0]);
      NobodyRemovesHoldersFiles(Step(s, acts[0]), acts[1..], q);
    }
  }

  // ---- teardown order -----------------------------------------------------

  /** Teardown of a process whose recorded socket file is still at the path: the
      file is there until the unlink and gone from then on. */
  predicate TearingDown(s: State, p: nat) {
    && p < |s.procs|
    && match s.procs[p].phase
       case Leaving => SocketStillNames(s, s.procs[p].sock)
       case LeavingMatched => SocketStillNames(s, s.procs[p].sock)
       case SocketGone => s.sockPath == None
       case ReleaseMatched => s.sockPath == None
       case _ => false
  }

  lemma TearingDownStep(s: State, a: Action, p: nat)
    requires Inv(s) && TearingDown(s, p) && !a.Foreign? && a != Crash(p)
    ensures TearingDown(Step(s, a), p) || (a == UnlinkLock(p) && s.sockPath == None)
  {
    if a.p != p {
      StepSparesHolder(s, a, p);
    } else {
      assert ProcOk(s, p);
      NumberIdentifiesFile(s, p);
    }
  }

  lemma {:induction false} RunPrefix(s: State, acts: seq<Action>, k: nat)
    requires k < |acts|
    ensures Run(s, acts[..k + 1]) == Run(Step(s, acts[0]), acts[1..][..k])
  {
    assert acts[..k + 1][1..] == acts[1..][..k];
  }

  /** The step with which a server stops being in charge comes after its socket
      file is gone: nothing of it is left for a successor to trip over. */
  lemma {:induction false} SocketGoneBeforeLock(s: State, acts: seq<Action>, p: nat) returns (k: nat)
    requires Inv(s) && TearingDown(s, p)
    requires forall a | a in acts :: !a.Foreign? && a != Crash(p)
    ensures k <= |acts| && TearingDown(Run(s, acts[..k]), p)
    ensures k < |acts| ==> acts[k] == UnlinkLock(p) && Run(s, acts[..k]).sockPath == None
    decreases |acts|
  {
    k := 0;
    if acts != [] {
      assert acts[0] in acts && forall a | a in acts[1..] :: a in acts;
      TearingDownStep(s, acts[0], p);
      StepInv(s, acts[0]);
      if TearingDown(Step(s, acts[0]), p) {
        k := SocketGoneBeforeLock(Step(s, acts[0]), acts[1..], p);
        RunPrefix(s, acts, k);
        k := k + 1;
      }
    }
  }

  /** release() finds its own file at the path whenever only participants touch
      it, so an orderly release always removes the lock file. */
  lemma ReleaseFindsItsFile(s: State, p: nat)
    requires Inv(s) && HasProc(s, p) && s.procs[p].phase == SocketGone
    ensures Step(s, CompareLock(p)).procs[p] == s.procs[p].(phase := ReleaseMatched)
    ensures Step(Step(s, CompareLock(p)), UnlinkLock(p)).lockPath == None
  {
  }

  // ---- whose socket file it is -------------------------------------------

  /** A client that connects to the socket path reaches `q`: its listener is open and
      the path names the very file it bound. */
  predicate Serves(s: State, q: nat) {
    && q < |s.procs| && s.procs[q].phase == Holding && s.procs[q].sock.Listening?
    && s.sockPath == Some(Socket(Some(q), s.procs[q].sock.ino))
  }

  /** What a process has bound is what the path names, and nobody binds before it is in
      charge. */
  predicate SockOk(s: State, p: nat)
    requires HasProc(s, p)
  {
    var me := s.procs[p];
    && (me.phase in {Idle, Trying, Opened, Locked, Dropping} ==> me.sock == Unbound)
    && (me.phase in {Holding, Leaving, LeavingMatched} ==>
          match me.sock
          case Unbound => true
          case Made => s.sockPath.Some? && s.sockPath.value.maker == Some(p)
          case Seen(i) => s.sockPath == Some(Socket(Some(p), i))
          case Listening(i) => s.sockPath == Some(Socket(Some(p), i))
          case Replaced(_) => false)
    && (me.phase == LeavingMatched ==> me.sock.Listening?)
  }

  ghost predicate SockInv(s: State) {
    forall p: nat | HasProc(s, p) :: SockOk(s, p)
  }

  predicate NoForeign(acts: seq<Action>) {
    forall a | a in acts :: !a.Foreign?
  }

  lemma ActorSock(s: State, a: Action)
    requires !a.Foreign? && HasProc(s, a.p) && SockOk(s, a.p)
    ensures HasProc(Step(s, a), a.p) && SockOk(Step(s, a), a.p)
  {
  }

  lemma StepSock(s: State, a: Action)
    requires Inv(s) && SockInv(s) && !a.Foreign?
    ensures SockInv(Step(s, a))
  {
    forall q: nat | HasProc(Step(s, a), q)
      ensures SockOk(Step(s, a), q)
    {
      assert SockOk(s, q);
      if q == a.p {
        ActorSock(s, a);
      } else {
        StepKeepsOther(s, a, q);
        if InCharge(s, q) {
          StepSparesHolder(s, a, q);
        }
      }
    }
  }

  lemma {:induction false} RunSock(s: State, acts: seq<Action>)
    requires Inv(s) && SockInv(s) && NoForeign(acts)
    ensures Inv(Run(s, acts)) && SockInv(Run(s, acts))
    decreases |acts|
  {
    if acts != [] {
      assert acts[0] in acts && forall a | a in acts[1..] :: a in acts;
      StepSock(s, acts[0]);
      StepInv(s, acts[0]);
      RunSock(Step(s, acts[0]), acts[1..]);
    }
  }

  /** Among participants a teardown removes only the socket file its own process bound
      in this life. */
  lemma OnlyOwnSocketRemoved(s0: State, acts: seq<Action>, p: nat)
    requires Init(s0) && NoForeign(acts)
    requires Step(Run(s0, acts), UnlinkSocket(p)) != Run(s0, acts)
    ensures var s := Run(s0, acts);
      s.procs[p].sock.Listening? && s.sockPath == Some(Socket(Some(p), s.procs[p].sock.ino))
  {
    InitInv(s0);
    RunSock(s0, acts);
    assert SockOk(Run(s0, acts), p);
  }

  /** What a bind clears out of the way first is nobody's: no process serves then. */
  lemma StaleMeansNobodyServes(s0: State, acts: seq<Action>, p: nat, q: nat)
    requires Init(s0)
    requires Step(Run(s0, acts), RemoveStaleSocket(p)) != Run(s0, acts)
    ensures !Serves(Run(s0, acts), q)
  {
    InitInv(s0);
    RunInv(s0, acts);
    if Serves(Run(s0, acts), q) {
      OneInCharge(Run(s0, acts), p, q);
    }
  }

  // ---- what AnotherInstance means ----------------------------------------

  predicate Refused(s: State, p: nat) {
    HasFd(s, p) && s.procs[p].phase == Opened && FdOf(s, p).serial in s.locks
  }

  /** Who holds the lock a refused contender wanted. */
  function Refuser(s: State, p: nat): nat
    requires Refused(s, p)
  {
    s.locks[FdOf(s, p).serial]
  }

  /** The reasons for which a lock holder does not serve: it has not compared the path
      yet, the file it locked is no longer at the path, it is not listening yet or not
      any more, or its teardown has begun. */
  datatype Reason = NotCompared | FileRemoved | NotListening | TearingDownNow

  function ReasonOf(me: Proc): Option<Reason> {
    match me.phase
    case Locked => Some(NotCompared)
    case Dropping => Some(FileRemoved)
    case Unlinked => Some(FileRemoved)
    case Leaving => Some(TearingDownNow)
    case LeavingMatched => Some(TearingDownNow)
    case SocketGone => Some(TearingDownNow)
    case ReleaseMatched => Some(TearingDownNow)
    case _ => if me.sock.Listening? then None else Some(NotListening)
  }

  /** The refusal names a real other holder of the lock. As long as only participants
      touch the socket path, "it is serving" is true of that holder exactly when none of
      the four reasons applies; a foreign process can only add the replaced socket file as
      a fifth. One reason, the removed lock file, shows at the lock path. */
  lemma RefusalMeaning(s0: State, acts: seq<Action>, p: nat)
    requires Init(s0) && Refused(Run(s0, acts), p)
    ensures var s := Run(s0, acts); var q := Refuser(s, p);
      && q != p && HasFd(s, q) && FdOf(s, q) == FdOf(s, p) && HoldsLock(s.procs[q].phase)
      && (Serves(s, q) <==> ReasonOf(s.procs[q]) == None && s.sockPath == Some(Socket(Some(q), s.procs[q].sock.ino)))
      && (NoForeign(acts) ==> (Serves(s, q) <==> ReasonOf(s.procs[q]) == None))
      && (s.procs[q].phase != Locked ==>
            (ReasonOf(s.procs[q]) == Some(FileRemoved) <==> s.lockPath != Some(FdOf(s, p))))
      && (Serves(s, q) ==> s.lockPath == Some(FdOf(s, p)) && forall r: nat :: Serves(s, r) ==> r == q)
  {
    var s := Run(s0, acts);
    InitInv(s0);
    RunInv(s0, acts);
    RefuserKnown(s, p);
    var q := Refuser(s, p);
    assert ProcOk(s, q);
    if NoForeign(acts) {
      RunSock(s0, acts);
      assert SockOk(s, q);
    }
    forall r: nat | Serves(s, q) && Serves(s, r)
      ensures r == q
    {
      OneInCharge(s, q, r);
    }
  }

  lemma RefuserKnown(s: State, p: nat)
    requires Inv(s) && Refused(s, p)
    ensures var q := Refuser(s, p);
      q != p && HasFd(s, q) && FdOf(s, q) == FdOf(s, p) && HoldsLock(s.procs[q].phase)
  {
  }

  // ---- single calls, without the invariant -------------------------------

  lemma OpenOutcome(s: State, p: nat, ino: nat)
    requires HasProc(s, p) && s.procs[p].phase == Trying
    ensures var t := Step(s, Open(p, ino));
      || t == s
      || (t.lockPath.Some? && t.procs == s.procs[p := s.procs[p].(phase := Opened, fd := t.lockPath)]
          && t.locks == s.locks && (s.lockPath.Some? ==> t.lockPath == s.lockPath)
          && (s.lockPath.None? ==> t.lockPath.value == File(s.nextSerial, ino)))
    ensures s.lockPath.Some? || !NumberInUse(s, ino) ==> Step(s, Open(p, ino)) != s
  {
  }

  lemma FlockOutcome(s: State, p: nat)
    requires HasFd(s, p) && s.procs[p].phase == Opened
    ensures var t := Step(s, Flock(p));
      if FdOf(s, p).serial in s.locks
      then t.procs == s.procs[p := Proc(Idle, None, 0, Unbound)]
      else t == s.(procs := s.procs[p := s.procs[p].(phase := Locked)], locks := s.locks[FdOf(s, p).serial := p])
  {
  }

  lemma CompareOutcome(s: State, p: nat)
    requires HasFd(s, p) && s.procs[p].phase == Locked
    ensures Step(s, Compare(p)) ==
      s.(procs := s.procs[p := s.procs[p].(phase := if PathNames(s, FdOf(s, p).ino) then Holding else Dropping)])
  {
  }

  lemma CloseOutcome(s: State, p: nat)
    requires HasProc(s, p) && s.procs[p].phase in {Dropping, Unlinked}
    ensures Step(s, Close(p)).procs[p] ==
      if s.procs[p].phase == Dropping
      then Proc(if s.procs[p].attempt < 7 then Trying else Idle, None, s.procs[p].attempt + 1, Unbound)
      else Proc(Idle, None, 0, Unbound)
  {
  }

  lemma UnlinkOutcome(s: State, p: nat)
    requires HasProc(s, p) && s.procs[p].phase == ReleaseMatched
    ensures Step(s, UnlinkLock(p)) == s.(procs := s.procs[p := s.procs[p].(phase := Unlinked)], lockPath := None)
  {
  }

  lemma GiveUpOutcome(s: State, p: nat)
    requires HasProc(s, p) && s.procs[p].phase in {Trying, Opened}
    ensures Step(s, GiveUp(p)).procs[p] == Proc(Idle, None, 0, Unbound)
  {
  }

  // ---- progress -----------------------------------------------------------

  /** A holder that is left to bind serves: it clears the path, binds, takes the identity and
      listens. */
  lemma HolderComesToServe(s: State, p: nat, ino: nat)
    requires HasProc(s, p) && s.procs[p].phase == Holding && s.procs[p].sock.Unbound?
    ensures Serves(Step(Step(Step(Step(s, RemoveStaleSocket(p)), BindSocket(p, ino)), StatSocket(p)), Listen(p)), p)
  {
  }

  /** A process outside the protocol can take a server's path from it; the server sees that
      and closes its listener, and then it can bind again. */
  lemma ReplacedServerRebinds(s: State, p: nat, now: Option<Socket>, ino: nat)
    requires Serves(s, p) && (now.Some? ==> now.value.maker == None && now.value.ino != s.procs[p].sock.ino)
    ensures var t := Step(s, Foreign(now));
            var u := Step(Step(t, SeeReplaced(p)), CloseReplaced(p));
            && !Serves(t, p) && t.sockPath == now
            && Serves(Step(Step(Step(Step(u, RemoveStaleSocket(p)), BindSocket(p, ino)), StatSocket(p)), Listen(p)), p)
  {
    var u := Step(Step(Step(s, Foreign(now)), SeeReplaced(p)), CloseReplaced(p));
    HolderComesToServe(u, p, ino);
  }

  /** A process that crashes, in charge or not, leaves both paths as they are and no lock; if
      it was in charge, the next contender takes the file it left. */
  lemma CrashFreesLock(s: State, p: nat, q: nat, ino: nat)
    requires Inv(s) && InCharge(s, p) && HasProc(s, q) && s.procs[q].phase == Idle
    ensures var t := Step(s, Crash(p));
            && t.procs[p] == Proc(Idle, None, 0, Unbound) && t.lockPath == s.lockPath && t.sockPath == s.sockPath
            && InCharge(Step(Step(Step(Step(t, Start(q)), Open(q, ino)), Flock(q)), Compare(q)), q)
  {
    var t := Step(s, Crash(p));
    assert ProcOk(s, p);
    StepInv(s, Crash(p));
    StepKeepsOther(s, Crash(p), q);
    NextContenderAcquires(t, q, ino);
  }

  /** Whatever crashed or left before, one undisturbed attempt takes the lock as
      soon as nobody holds it on the file the path names. */
  lemma NextContenderAcquires(s: State, p: nat, ino: nat)
    requires Inv(s) && HasProc(s, p) && s.procs[p].phase == Idle
    requires if s.lockPath.Some? then s.lockPath.value.serial !in s.locks else !NumberInUse(s, ino)
    ensures InCharge(Step(Step(Step(Step(s, Start(p)), Open(p, ino)), Flock(p)), Compare(p)), p)
  {
  }

  lemma RunStep(s: State, acts: seq<Action>, a: Action)
    ensures Run(s, acts + [a]) == Step(Run(s, acts), a)
  {
    RunAppend(s, acts, [a]);
    var t := Run(s, acts);
    assert [a][1..] == [];
    assert Run(t, [a]) == Run(Step(t, a), []);
  }

  /** Two processes: 0 in charge and not yet bound, 1 about to be refused. */
  predicate Contended(s: State) {
    && |s.procs| == 2 && s.procs[0].phase == Holding && s.procs[0].sock == Unbound
    && s.lockPath.Some? && s.procs[0].fd == s.lockPath && s.lockPath.value.serial in s.locks
    && s.locks[s.lockPath.value.serial] == 0
    && s.procs[1].phase == Opened && s.procs[1].fd == s.lockPath
  }

  lemma ReachContended(s0: State) returns (acts: seq<Action>)
    requires Init(s0) && |s0.procs| == 2 && s0.lockPath == None
    ensures NoForeign(acts) && Contended(Run(s0, acts))
  {
    acts := [];
    RunStep(s0, acts, Start(0));
    acts := acts + [Start(0)];
    OpenOutcome(Run(s0, acts), 0, 7);
    RunStep(s0, acts, Open(0, 7));
    acts := acts + [Open(0, 7)];
    FlockOutcome(Run(s0, acts), 0);
    RunStep(s0, acts, Flock(0));
    acts := acts + [Flock(0)];
    CompareOutcome(Run(s0, acts), 0);
    RunStep(s0, acts, Compare(0));
    acts := acts + [Compare(0)];
    RunStep(s0, acts, Start(1));
    acts := acts + [Start(1)];
    OpenOutcome(Run(s0, acts), 1, 8);
    RunStep(s0, acts, Open(1, 8));
    acts := acts + [Open(1, 8)];
  }

  /** "It is serving" is said of a process that has not bound its socket. */
  lemma RefusedBeforeBind(s0: State) returns (acts: seq<Action>)
    requires Init(s0) && |s0.procs| == 2 && s0.lockPath == None
    ensures NoForeign(acts) && Contended(Run(s0, acts))
    ensures var s := Run(s0, acts);
      Refused(s, 1) && Refuser(s, 1) == 0 && ReasonOf(s.procs[0]) == Some(NotListening) && !Serves(s, 0)
  {
    acts := ReachContended(s0);
  }

  /** It is said of a process whose teardown has begun, the lock file still at the path. */
  lemma RefusedInTeardown(s0: State) returns (acts: seq<Action>)
    requires Init(s0) && |s0.procs| == 2 && s0.lockPath == None
    ensures NoForeign(acts)
    ensures var s := Run(s0, acts);
      && Refused(s, 1) && Refuser(s, 1) == 0 && ReasonOf(s.procs[0]) == Some(TearingDownNow) && !Serves(s, 0)
      && s.procs[0].phase == ReleaseMatched && |s.procs| == 2
      && s.lockPath == Some(FdOf(s, 1)) && InCharge(s, 0)
  {
    acts := ReachContended(s0);
    RunStep(s0, acts, BeginTeardown(0));
    acts := acts + [BeginTeardown(0)];
    RunStep(s0, acts, CompareSocket(0));
    acts := acts + [CompareSocket(0)];
    RunStep(s0, acts, CompareLock(0));
    acts := acts + [CompareLock(0)];
  }

  /** And of one that has removed the lock file: nobody is in charge at all. */
  lemma RefusedThoughNobodyServes(s0: State) returns (acts: seq<Action>)
    requires Init(s0) && |s0.procs| == 2 && s0.lockPath == None
    ensures NoForeign(acts)
    ensures var s := Run(s0, acts);
      && Refused(s, 1) && Refuser(s, 1) == 0 && ReasonOf(s.procs[0]) == Some(FileRemoved)
      && forall p: nat :: !InCharge(s, p) && !Serves(s, p)
  {
    acts := RefusedInTeardown(s0);
    UnlinkOutcome(Run(s0, acts), 0);
    RunStep(s0, acts, UnlinkLock(0));
    acts := acts + [UnlinkLock(0)];
  }

  // ---- acquire() and release() as they are written -----------------------

  datatype StartError = AnotherInstance | Failed

  /** What the kernel answers one attempt: a fault, or the number a created file
      gets. */
  datatype Answers = Answers(openFails: bool, ino: nat, flockFails: bool)

  /** The calls acquire() makes; none of them touches the socket path. */
  predicate AcquireCall(a: Action) {
    a.Start? || a.Open? || a.GiveUp? || a.Flock? || a.Compare? || a.Close?
  }

  predicate OnlyAcquireCalls(trace: seq<Action>, me: nat) {
    forall a | a in trace :: a.Foreign? || a.p != me || AcquireCall(a)
  }

  predicate InvolvesOnlyOthers(acts: seq<Action>, me: nat) {
    forall a | a in acts :: a.Foreign? || a.p != me
  }

  lemma {:induction false} OthersLeaveMeAlone(s: State, acts: seq<Action>, me: nat)
    requires Inv(s) && HasProc(s, me) && InvolvesOnlyOthers(acts, me)
    ensures HasProc(Run(s, acts), me) && Run(s, acts).procs[me] == s.procs[me]
    decreases |acts|
  {
    if acts != [] {
      assert acts[0] in acts && forall a | a in acts[1..] :: a in acts;
      StepKeepsOther(s, acts[0], me);
      StepInv(s, acts[0]);
      OthersLeaveMeAlone(Step(s, acts[0]), acts[1..], me);
    }
  }

  lemma InterleavedCall(s: State, others: seq<Action>, a: Action, me: nat)
    requires Inv(s) && HasProc(s, me) && InvolvesOnlyOthers(others, me) && !a.Foreign? && a.p == me
    ensures Inv(Run(s, others)) && HasProc(Run(s, others), me) && Run(s, others).procs[me] == s.procs[me]
    ensures Inv(Step(Run(s, others), a)) && HasProc(Step(Run(s, others), a), me)
  {
    OthersLeaveMeAlone(s, others, me);
    RunInv(s, others);
    StepInv(Run(s, others), a);
    StepKeepsActor(Run(s, others), a);
  }

  lemma NoFdNoLock(s: State, p: nat)
    requires Inv(s) && HasProc(s, p) && s.procs[p].fd == None
    ensures forall k | k in s.locks :: s.locks[k] != p
  {
  }

  /** A file that is gone from the path never comes back to it: what is there later was
      there before or is new. */
  lemma {:induction false} OnlyNewFiles(s: State, acts: seq<Action>)
    ensures s.nextSerial <= Run(s, acts).nextSerial
    ensures var f := Run(s, acts).lockPath;
      f == None || f == s.lockPath || f.value.serial >= s.nextSerial
    decreases |acts|
  {
    if acts != [] {
      OnlyNewFiles(Step(s, acts[0]), acts[1..]);
    }
  }

  /** At some moment of the run another process held the lock this one wanted. */
  ghost predicate WasRefused(s: State, trace: seq<Action>, me: nat) {
    exists k | 0 <= k <= |trace| :: Refused(Run(s, trace[..k]), me)
  }

  lemma RefusedBefore(s: State, trace: seq<Action>, a: Action, me: nat)
    ensures Refused(Run(s, trace), me) ==> WasRefused(s, trace + [a], me)
  {
    assert (trace + [a])[..|trace|] == trace;
  }

  /** The world one process makes system calls in. Between any two of its calls
      every other process may take any number of steps (`others`). */
  class World {
    var s: State
    ghost var first: State
    ghost var trace: seq<Action>

    ghost predicate Valid(me: nat)
      reads this
    {
      Inv(s) && HasProc(s, me) && s == Run(first, trace)
    }

    constructor (s0: State)
      requires Inv(s0)
      ensures s == s0 && first == s0 && trace == []
    {
      s, first, trace := s0, s0, [];
    }

    /** The other processes run, then one call of this process. */
    method Call(me: nat, others: seq<Action>, a: Action)
      requires Valid(me) && InvolvesOnlyOthers(others, me) && !a.Foreign? && a.p == me
      modifies this
      ensures Valid(me) && first == old(first) && trace == old(trace) + others + [a]
      ensures AcquireCall(a) && OnlyAcquireCalls(old(trace), me) ==> OnlyAcquireCalls(trace, me)
      ensures HasProc(Run(old(s), others), me) && Run(old(s), others).procs[me] == old(s).procs[me]
      ensures Inv(Run(old(s), others)) && s == Step(Run(old(s), others), a)
    {
      InterleavedCall(s, others, a, me);
      RunAppend(first, trace, others);
      RunStep(first, trace + others, a);
      trace := trace + others + [a];
      s := Step(Run(s, others), a);
    }

    method OpenLockFile(me: nat, others: seq<Action>, now: Answers) returns (ok: bool)
      requires Valid(me) && InvolvesOnlyOthers(others, me) && s.procs[me].phase == Trying
      modifies this
      ensures Valid(me) && first == old(first)
      ensures OnlyAcquireCalls(old(trace), me) ==> OnlyAcquireCalls(trace, me)
      ensures ok ==> s.procs[me].phase == Opened && s.procs[me].attempt == old(s.procs[me].attempt)
      ensures !ok ==> s.procs[me] == Proc(Idle, None, 0, Unbound)
      ensures !ok ==> now.openFails || NumberInUse(Run(old(s), others), now.ino)
    {
      if !now.openFails {
        ghost var seen := Run(s, others);
        Call(me, others, Open(me, now.ino));
        OpenOutcome(seen, me, now.ino);
        ok := s.procs[me].phase == Opened;
      }
      if now.openFails || !ok {
        GiveUpNow(me, if now.openFails then others else []);
        ok := false;
      }
    }

    method GiveUpNow(me: nat, others: seq<Action>)
      requires Valid(me) && InvolvesOnlyOthers(others, me) && s.procs[me].phase in {Trying, Opened}
      modifies this
      ensures Valid(me) && first == old(first)
      ensures OnlyAcquireCalls(old(trace), me) ==> OnlyAcquireCalls(trace, me)
      ensures s.procs[me] == Proc(Idle, None, 0, Unbound)
    {
      ghost var seen := Run(s, others);
      Call(me, others, GiveUp(me));
      GiveUpOutcome(seen, me);
    }

    method LockIt(me: nat, others: seq<Action>) returns (ok: bool)
      requires Valid(me) && InvolvesOnlyOthers(others, me) && s.procs[me].phase == Opened
      modifies this
      ensures Valid(me) && first == old(first)
      ensures OnlyAcquireCalls(old(trace), me) ==> OnlyAcquireCalls(trace, me)
      ensures ok ==> s.procs[me] == old(s.procs[me]).(phase := Locked)
      ensures !ok ==> s.procs[me] == Proc(Idle, None, 0, Unbound) && WasRefused(first, trace, me)
      ensures ok <==> !Refused(Run(old(s), others), me)
    {
      ghost var seen := Run(s, others);
      RunAppend(first, trace, others);
      Call(me, others, Flock(me));
      RefusedBefore(first, old(trace) + others, Flock(me), me);
      assert ProcOk(seen, me);
      FlockOutcome(seen, me);
      ok := s.procs[me].phase == Locked;
    }

    method CompareNow(me: nat, others: seq<Action>) returns (mine: bool)
      requires Valid(me) && InvolvesOnlyOthers(others, me) && s.procs[me].phase == Locked
      modifies this
      ensures Valid(me) && first == old(first)
      ensures OnlyAcquireCalls(old(trace), me) ==> OnlyAcquireCalls(trace, me)
      ensures s.procs[me] == old(s.procs[me]).(phase := if mine then Holding else Dropping)
      ensures mine ==> InCharge(s, me) && forall q: nat :: InCharge(s, q) ==> q == me
    {
      ghost var seen := Run(s, others);
      Call(me, others, Compare(me));
      assert ProcOk(seen, me);
      CompareOutcome(seen, me);
      mine := s.procs[me].phase == Holding;
      if mine {
        forall q: nat | InCharge(s, q) ensures q == me { OneInCharge(s, q, me); }
      }
    }

    method CloseNow(me: nat, others: seq<Action>)
      requires Valid(me) && InvolvesOnlyOthers(others, me) && s.procs[me].phase in {Dropping, Unlinked}
      modifies this
      ensures Valid(me) && first == old(first)
      ensures OnlyAcquireCalls(old(trace), me) ==> OnlyAcquireCalls(trace, me)
      ensures s.procs[me] == if old(s.procs[me].phase) == Dropping
        then Proc(if old(s.procs[me].attempt) < 7 then Trying else Idle, None, old(s.procs[me].attempt) + 1, Unbound)
        else Proc(Idle, None, 0, Unbound)
      ensures s == Step(Run(old(s), others), Close(me))
    {
      ghost var seen := Run(s, others);
      Call(me, others, Close(me));
      CloseOutcome(seen, me);
    }

    /** One turn of the retry loop; None means go round again. */
    method Attempt(me: nat, now: Answers, others: seq<seq<Action>>) returns (done: Option<Result<(), StartError>>)
      requires Valid(me) && s.procs[me].phase == Trying && s.procs[me].sock == Unbound && OnlyAcquireCalls(trace, me)
      requires |others| == 4 && forall i | 0 <= i < 4 :: InvolvesOnlyOthers(others[i], me)
      modifies this
      ensures Valid(me) && first == old(first) && OnlyAcquireCalls(trace, me)
      ensures done.None? ==>
        s.procs[me] == Proc(if old(s.procs[me].attempt) < 7 then Trying else Idle, None,
                            old(s.procs[me].attempt) + 1, Unbound)
      ensures done == Some(Err(AnotherInstance)) ==> WasRefused(first, trace, me)
      ensures done == Some(Err(Failed)) ==>
        now.openFails || now.flockFails || NumberInUse(Run(old(s), others[0]), now.ino)
      ensures done.Some? && done.value.Ok? ==> s.procs[me].phase == Holding
      ensures done.Some? && done.value.Ok? ==> forall q: nat :: InCharge(s, q) <==> q == me
      ensures done.Some? && done.value.Err? ==> s.procs[me] == Proc(Idle, None, 0, Unbound)
    {
      var ok := OpenLockFile(me, others[0], now);
      if !ok {
        return Some(Err(Failed));
      }
      if now.flockFails {
        GiveUpNow(me, others[1]);
        return Some(Err(Failed));
      }
      ok := LockIt(me, others[1]);
      if !ok {
        return Some(Err(AnotherInstance));
      }
      var mine := CompareNow(me, others[2]);
      if mine {
        return Some(Ok(()));
      }
      CloseNow(me, others[3]);
      done := None;
    }

    /** acquire(): on success this process is the one in charge; on any error it
        keeps no descriptor and no lock. Every system call it makes is a step of
        the protocol above, so the run theorems speak about it. */
    method Acquire(me: nat, answers: seq<Answers>, others: seq<seq<Action>>) returns (r: Result<(), StartError>)
      requires Valid(me) && s.procs[me].phase == Idle && trace == []
      requires |answers| == 8 && |others| == 32
      requires forall i | 0 <= i < |others| :: InvolvesOnlyOthers(others[i], me)
      modifies this
      ensures Valid(me) && first == old(first) && OnlyAcquireCalls(trace, me)
      ensures r.Ok? ==> s.procs[me].phase == Holding && forall q: nat :: InCharge(s, q) <==> q == me
      ensures r.Err? ==> s.procs[me].phase == Idle && s.procs[me].fd == None
      ensures r.Err? ==> forall k | k in s.locks :: s.locks[k] != me
      ensures r == Err(AnotherInstance) ==> WasRefused(first, trace, me)
    {
      Call(me, [], Start(me));
      for attempt := 0 to ACQUIRE_ATTEMPTS
        invariant Valid(me) && first == old(first) && OnlyAcquireCalls(trace, me)
        invariant s.procs[me] == Proc(if attempt < ACQUIRE_ATTEMPTS then Trying else Idle, None, attempt, Unbound)
      {
        var done := Attempt(me, answers[attempt], others[4 * attempt..4 * attempt + 4]);
        if done.Some? {
          r := done.value;
          if r.Err? { NoFdNoLock(s, me); }
          return;
        }
      }
      NoFdNoLock(s, me);
      r := Err(Failed);
    }

    method CompareLockNow(me: nat, others: seq<Action>)
      requires Valid(me) && s.procs[me].phase == SocketGone && InvolvesOnlyOthers(others, me)
      modifies this
      ensures Valid(me) && first == old(first)
      ensures s.procs[me] == old(s.procs[me]).(phase := ReleaseMatched)
    {
      ghost var seen := Run(s, others);
      Call(me, others, CompareLock(me));
      ReleaseFindsItsFile(seen, me);
    }

    method UnlinkNow(me: nat, others: seq<Action>)
      requires Valid(me) && s.procs[me].phase == ReleaseMatched && InvolvesOnlyOthers(others, me)
      modifies this
      ensures Valid(me) && first == old(first) && s.lockPath == None
      ensures s.procs[me] == old(s.procs[me]).(phase := Unlinked)
    {
      ghost var seen := Run(s, others);
      Call(me, others, UnlinkLock(me));
      UnlinkOutcome(seen, me);
    }

    /** release(): compare, unlink, close. The file it had locked is no longer at the
        path and the process holds no lock, whatever the others do in between. */
    method Release(me: nat, others: seq<seq<Action>>)
      requires Valid(me) && s.procs[me].phase == SocketGone
      requires |others| == 3 && forall i | 0 <= i < 3 :: InvolvesOnlyOthers(others[i], me)
      modifies this
      ensures Valid(me) && first == old(first)
      ensures s.procs[me] == Proc(Idle, None, 0, Unbound)
      ensures forall k | k in s.locks :: s.locks[k] != me
      ensures s.lockPath != old(s.procs[me].fd)
    {
      CompareLockNow(me, others[0]);
      UnlinkNow(me, others[1]);
      assert ProcOk(s, me);
      OnlyNewFiles(s, others[2] + [Close(me)]);
      RunStep(s, others[2], Close(me));
      CloseNow(me, others[2]);
      NoFdNoLock(s, me);
    }
  }
}
