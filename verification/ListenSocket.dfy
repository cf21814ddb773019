/**
 The listener as the servers keep it: fields updated step by step on the loop. Each
 method is proved against its function in module Listener; `os` stands for
 the process's descriptors and the file system.
 */
module ListenSocket {
  import opened Wrappers
  import opened Listener

  class ListenSocket {
    const kind: Kind
    var phase: Phase
    var os: Os
    var listenFd: int
    var acceptSource: Option<Source>
    var listenIdentity: Option<int>
    var cancelledListener: Held
    var rebindPending: bool
    var stopping: bool
    var guarded: bool
    var acceptPaused: bool
    var retryArmed: bool
    var handlersInFlight: int
    var group: int
    var closedListenFdAtCancel: int
    ghost var watch: Tally

    ghost function Value(): State
      reads this
    {
      State(kind, phase, os,
            Server(listenFd, acceptSource, listenIdentity, cancelledListener, rebindPending, stopping, guarded),
            Pause(acceptPaused, retryArmed), Flight(handlersInFlight, group),
            watch.(closedEarly := closedListenFdAtCancel))
    }

    /** Between two blocks of the loop: the life-cycle invariant, the closed-early counter
        at 0 included. */
    ghost predicate Valid()
      reads this
    {
      Inv(Value())
    }

    constructor (kind: Kind, os: Os)
      requires OsOk(os)
      ensures Valid() && Value() == Boot(kind, os)
    {
      this.kind, this.os := kind, os;
      phase, listenFd, acceptSource, listenIdentity, cancelledListener := Idle, -1, None, None, NotHeld;
      rebindPending, stopping, guarded, acceptPaused, retryArmed := false, false, false, false, false;
      handlersInFlight, group, closedListenFdAtCancel := 0, 0, 0;
      watch := Tally(0, 0, 0, 0, 0);
    }

    /** `installAcceptSource` on the listener. */
    method InstallAcceptSource(obj: int)
      modifies this`acceptSource, this`group
      ensures acceptSource == Some(Source(listenFd, obj, false)) && group == old(group) + 1
    {
      acceptSource := Some(Source(listenFd, obj, false));
      group := group + 1;
    }

    /** `bindContainerSocket` and, when `b` says it succeeds, `installAcceptSource`:
        the body of `rebindListenSocket`. */
    method RebindListenSocket(b: Bound) returns (ok: bool)
      modifies this
      ensures Value() == Rebind(old(Value()), b) && ok == Succeeds(old(Value()).os, b)
    {
      ok := Succeeds(os, b);
      if ok {
        os := Os(os.table[b.fd := b.obj], b.ino);
        listenFd, listenIdentity := b.fd, Some(b.ino);
        watch := watch.(binds := watch.binds + 1);
        rebindPending := false;
        InstallAcceptSource(b.obj);
      } else {
        os := os.(path := if b.Fails? then b.leftover else 0);
      }
    }

    /** `pauseAccepting` */
    method PauseAccepting()
      modifies this`acceptSource, this`acceptPaused, this`retryArmed
      ensures Value() == Listener.PauseAccepting(old(Value()))
    {
      if acceptSource.None? || acceptPaused {
        return;
      }
      acceptSource := Some(acceptSource.value.(suspended := true));
      acceptPaused := true;
      retryArmed := true;
    }

    /** `resumeAccepting` */
    method ResumeAccepting()
      modifies this`acceptSource, this`acceptPaused, this`watch
      ensures Value() == Resume(old(Value()))
    {
      if acceptSource.Some? && acceptPaused {
        watch := watch.(idleResumes := watch.idleResumes + if acceptSource.value.suspended then 0 else 1);
        acceptSource := Some(acceptSource.value.(suspended := false));
      }
      acceptPaused := false;
    }

    /** `cancelAcceptSource` */
    method CancelAcceptSource()
      requires acceptSource.Some?
      modifies this
      ensures Value() == CancelSource(old(Value()))
    {
      ResumeAccepting();
      cancelledListener := ObjectAt(os, listenFd);
      watch := watch.(suspendedCancels := watch.suspendedCancels + if acceptSource.value.suspended then 1 else 0);
      handlersInFlight := handlersInFlight + 1;
      acceptSource := None;
    }

    /** `checkSocketPath` */
    method CheckSocketPath(b: Bound)
      modifies this
      ensures Value() == CheckPath(old(Value()), b)
    {
      if stopping {
        return;
      }
      if rebindPending {
        if listenFd < 0 {
          var _ := RebindListenSocket(b);
        }
        return;
      }
      if acceptSource.None? || (os.path != 0 && listenIdentity == Some(os.path)) {
        return;
      }
      rebindPending := true;
      CancelAcceptSource();
    }

    /** The accepts; only what they are made on is watched. */
    ghost method AcceptAll()
      requires acceptSource.Some?
      modifies this`watch
      ensures Value() == Accepted(old(Value()))
    {
      if ObjectAt(os, listenFd) != Held(acceptSource.value.fd, acceptSource.value.obj) {
        watch := watch.(strayAccepts := watch.strayAccepts + 1);
      }
    }

    /** `onAcceptReady` once the accepts are drained, or cut short because the process is
        out of descriptors: the accepts were on the listener, and afterwards it is open
        still, its source cancelled only with a rebind pending. */
    method OnAcceptReady(exhausted: bool, b: Bound)
      requires Valid() && acceptSource.Some? && !acceptSource.value.suspended
      modifies this
      ensures Valid() && Value() == Step(old(Value()), AcceptReady(exhausted, b))
      ensures watch.strayAccepts == 0 && listenFd == old(listenFd) && listenFd in os.table
      ensures acceptSource.None? ==> rebindPending && handlersInFlight == 1
      ensures acceptPaused ==> retryArmed && exhausted && kind.AgentTransport?
    {
      StepInv(Value(), AcceptReady(exhausted, b));
      OnlyTheHandlerCloses(Value(), AcceptReady(exhausted, b));
      AcceptAll();
      if exhausted && kind.AgentTransport? {
        PauseAccepting();
      }
      CheckSocketPath(b);
    }

    /** The path guard's timer. A listener that is closed and waiting serves again exactly
        when the bind succeeds; an open one is never closed here. */
    method PathGuardTick(b: Bound)
      requires Valid() && guarded
      modifies this
      ensures Valid() && Value() == Step(old(Value()), Tick(b))
      ensures old(listenFd) < 0 ==> (acceptSource.Some? <==> Succeeds(old(os), b))
      ensures old(listenFd) >= 0 ==> listenFd == old(listenFd) && os == old(os)
    {
      StepInv(Value(), Tick(b));
      CheckSocketPath(b);
    }

    /** The retry timer, or a firing of it that was on its way when it was armed anew: the
        source runs again. */
    method RetryTimerFires(stale: bool)
      requires Valid() && phase.Up? && (stale || retryArmed)
      modifies this
      ensures Valid() && Value() == Step(old(Value()), RetryTimer(stale))
      ensures !acceptPaused && (acceptSource.Some? ==> !acceptSource.value.suspended) && watch.idleResumes == 0
    {
      StepInv(Value(), RetryTimer(stale));
      retryArmed := stale && retryArmed;
      ResumeAccepting();
    }

    /** The check of the cancel handler, and the close it alone makes. */
    method CloseListenFd()
      modifies this
      ensures Value() == CloseListen(old(Value()))
    {
      if cancelledListener.NotHeld? || cancelledListener != ObjectAt(os, listenFd) {
        closedListenFdAtCancel := closedListenFdAtCancel + 1;
      }
      cancelledListener := NotHeld;
      os := os.(table := os.table - {listenFd});
      listenFd := -1;
    }

    /** `onAcceptSourceCancelled` */
    method OnAcceptSourceCancelled(b: Bound)
      modifies this
      ensures Value() == SourceCancelled(old(Value()), b)
    {
      CloseListenFd();
      if stopping {
        return;
      }
      listenIdentity := None;
      if rebindPending {
        var _ := RebindListenSocket(b);
      }
    }

    /** The cancel handler, of either server: the listen descriptor it closes is open and
        the one recorded at the cancel, so the counter stays 0. Afterwards the listener
        serves if and only if it may and the bind succeeded, and no handler is left. */
    method CancelHandler(b: Bound)
      requires Valid() && handlersInFlight > 0
      modifies this
      ensures Valid() && Value() == Step(old(Value()), HandlerRuns(b))
      ensures closedListenFdAtCancel == 0 && handlersInFlight == 0
      ensures old(cancelledListener).Held? && old(cancelledListener) == old(ObjectAt(os, listenFd))
      ensures acceptSource.Some? <==> !stopping && Succeeds(old(os).(table := old(os).table - {old(listenFd)}), b)
      ensures acceptSource.None? ==> listenFd == -1 && (stopping || rebindPending)
    {
      StepInv(Value(), HandlerRuns(b));
      OnAcceptSourceCancelled(b);
      handlersInFlight := handlersInFlight - 1;
      group := group - 1;
    }

    /** The loop block of the destructor and of `stop`: at most one handler is left to wait
        for, and the listener is closed or about to be, by that handler. */
    method StopOnLoop()
      requires Valid() && phase.Up?
      modifies this
      ensures Valid() && Value() == Step(old(Value()), Stop)
      ensures stopping && acceptSource.None? && group == handlersInFlight <= 1
      ensures listenFd >= 0 <==> handlersInFlight == 1
    {
      StepInv(Value(), Stop);
      phase := Stopping;
      stopping := true;
      guarded := false;
      retryArmed := false;
      if acceptSource.Some? {
        CancelAcceptSource();
      }
    }

    /** What is left once the group is empty: nothing is open or in flight, and the path
        does not name our file. */
    method FinishStopping()
      requires Valid() && phase.Stopping? && group == 0
      modifies this
      ensures Valid() && Value() == Step(old(Value()), Finish)
      ensures listenFd == -1 && acceptSource.None? && handlersInFlight == 0
      ensures os.path == 0 || old(listenIdentity) != Some(os.path)
      ensures os.path == old(os).path || old(listenIdentity) == Some(old(os).path)
    {
      StepInv(Value(), Finish);
      if os.path != 0 && listenIdentity == Some(os.path) {
        os := os.(path := 0);
      }
      if kind.Prompter? {
        listenIdentity := None;
        phase := Idle;
      } else {
        phase := Gone;
      }
    }

    /** `create` and `start`, the lock already held: serving at a path of our own, or not
        started at all. */
    method StartServing(b: Bound) returns (ok: bool)
      requires Valid() && phase.Idle?
      modifies this
      ensures Valid() && Value() == Step(old(Value()), Start(b))
      ensures ok == Succeeds(old(os), b) == phase.Up?
      ensures ok ==> acceptSource.Some? && listenIdentity == Some(os.path) && listenFd in os.table
      ensures !ok ==> listenFd == -1 && acceptSource.None? && phase.Idle?
    {
      StepInv(Value(), Start(b));
      ok := RebindListenSocket(b);
      if ok {
        stopping := false;
        guarded := true;
        phase := Up;
      }
    }
  }
}
