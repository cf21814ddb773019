/**
 One connection: `enqueueSend` and `flushWrites` over its outbound queue.
 */
module Connection {
  import opened OutQueue

  /** `reading` and `writing` say whether the read and the write source exist;
      `final` is `closeWhenDrained`. */
  datatype Conn = Conn(queue: seq<Frame>, bytes: int, reading: bool, writing: bool, sawFirst: bool, wants: bool,
                       final: bool)

  /** The connection after a send, its history, the kernel's remaining answers, and
      whether it is to be closed. */
  datatype Flushed = Flushed(conn: Conn, story: Story, kernel: seq<Reply>, closing: bool)

  const NO_STORY := Story([], [], 0, 0, [])
  const NEW_CONN := Conn([], 0, true, false, false, true, false)

  function Sum(q: seq<Frame>): int {
    if q == [] then 0 else |q[0].bytes| + Sum(q[1..])
  }

  function FrameOf(m: Msg): Frame {
    Frame(m.bytes, m.fds, 0, false)
  }

  /** The front frame's progress, into the connection and its history. */
  function Progress(c: Conn, s: Story, o: Outcome): (Conn, Story)
    requires c.queue != []
  {
    (c.(queue := c.queue[0 := o.frame]), s.(trail := o.trail, part := o.frame.sent))
  }

  /** `flushWrites` */
  function Flush(c: Conn, s: Story, kernel: seq<Reply>, lim: Limits): Flushed
    decreases |c.queue|
  {
    if c.queue == [] then Flushed(c.(writing := false), s, kernel, c.final)
    else
      var o := TrySend(c.queue[0], s.done, s.trail, kernel, lim);
      var (d, t) := Progress(c, s, o);
      match o.state
      case WouldBlock => Flushed(d.(writing := true), t, o.kernel, false)
      case Error => Flushed(d, t, o.kernel, true)
      case Sent => Flush(Popped(c), t.(done := t.done + 1, part := 0), o.kernel, lim)
  }

  function Popped(c: Conn): Conn
    requires c.queue != []
  {
    c.(queue := c.queue[1..], bytes := c.bytes - |c.queue[0].bytes|)
  }

  function Pushed(c: Conn, m: Msg): Conn {
    c.(queue := c.queue + [FrameOf(m)], bytes := c.bytes + |m.bytes|)
  }

  predicate TooMuch(c: Conn) {
    c.bytes > MAX_QUEUED_BYTES || |c.queue| > MAX_QUEUED_FRAMES
  }

  /** `enqueueSend` */
  function Enqueue(c: Conn, s: Story, m: Msg, kernel: seq<Reply>, lim: Limits): Flushed {
    if TooMuch(Pushed(c, m)) then Flushed(Pushed(c, m), s.(offered := s.offered + [m]), kernel, true)
    else Flush(Pushed(c, m), s.(offered := s.offered + [m]), kernel, lim)
  }

  // ---- what every step keeps ---------------------------------------------------------

  /** Inside an operation: the stream is right and the byte count is exact. */
  predicate Mid(c: Conn, s: Story) {
    TrailOk(s) && QueueOk(c.queue, s) && c.bytes == Sum(c.queue)
  }

  /** Between operations: also within the bounds, a write source exists exactly while
      something is queued, and a connection given its final frame neither reads nor is
      drained (it would be gone). */
  predicate Settled(c: Conn, s: Story) {
    && Mid(c, s) && !TooMuch(c)
    && (c.writing <==> c.queue != [])
    && (c.final ==> c.queue != [] && !c.reading)
  }

  /** The frame being sent is the next one of the history. */
  predicate FrontIs(f: Frame, s: Story) {
    && 0 <= s.done < |s.offered|
    && f.bytes == s.offered[s.done].bytes && f.fds == s.offered[s.done].fds
    && f.sent == s.part && f.riding == LastIs(s.trail, s.done)
  }

  function Farther(f: Frame, w: nat): Frame {
    f.(sent := f.sent + w, riding := true)
  }

  lemma {:induction false} StepFront(f: Frame, s: Story, w: nat)
    requires TrailOk(s) && FrontIs(f, s) && 0 <= w <= |f.bytes| - f.sent
    ensures var t := Advance(s, w, if f.riding then [] else f.fds);
            TrailOk(t) && FrontIs(Farther(f, w), t)
  {
    StepOk(s, w, if f.riding then [] else f.fds);
  }

  predicate Sends(f: Frame, s: Story, o: Outcome) {
    && o.frame.bytes == f.bytes && o.frame.riding == LastIs(o.trail, s.done)
    && (if o.state == Sent then o.frame.sent == |f.bytes| else o.frame.fds == f.fds && o.frame.sent < |f.bytes|)
  }

  /** The send is over: nothing more was taken. */
  predicate SendingEnds(f: Frame, kernel: seq<Reply>) {
    f.sent >= |f.bytes| || kernel == [] || kernel[0].Busy? || kernel[0].Broken?
  }

  lemma {:induction false} SendingLast(f: Frame, s: Story, kernel: seq<Reply>)
    requires FrontIs(f, s) && f.sent <= |f.bytes| && SendingEnds(f, kernel)
    ensures var o := Sending(f, s.done, s.trail, kernel);
            s.(trail := o.trail, part := o.frame.sent) == s && Sends(f, s, o)
  {
  }

  lemma {:induction false} SendingAgain(f: Frame, k: int, trail: seq<Piece>, kernel: seq<Reply>)
    requires !SendingEnds(f, kernel) && kernel[0].Interrupted?
    ensures Sending(f, k, trail, kernel) == Sending(f, k, trail, kernel[1..])
  {
  }

  lemma {:induction false} SendingOk(f: Frame, s: Story, kernel: seq<Reply>)
    requires TrailOk(s) && FrontIs(f, s)
    ensures SentOk(f, s, Sending(f, s.done, s.trail, kernel))
    decreases |kernel|
  {
    FrontFits(f, s);
    if SendingEnds(f, kernel) {
      SendingLast(f, s, kernel);
    } else if kernel[0].Interrupted? {
      SendingAgain(f, s.done, s.trail, kernel);
      SendingOk(f, s, kernel[1..]);
    } else {
      var w := Taken(kernel[0].n, |f.bytes| - f.sent);
      var t := Advance(s, w, if f.riding then [] else f.fds);
      StepFront(f, s, w);
      SendingOk(Farther(f, w), t, kernel[1..]);
      SendingNext(f, s, kernel);
      SentFarther(f, s, w, Sending(Farther(f, w), t.done, t.trail, kernel[1..]));
    }
  }

  /** The outcome of a send, and the history with it. */
  predicate SentOk(f: Frame, s: Story, o: Outcome) {
    TrailOk(s.(trail := o.trail, part := o.frame.sent)) && Sends(f, s, o)
  }

  lemma {:induction false} SentFarther(f: Frame, s: Story, w: nat, o: Outcome)
    requires PositionOk(s.offered, s.done, s.part) && FrontIs(f, s) && w <= |f.bytes| - f.sent
    requires SentOk(Farther(f, w), Advance(s, w, if f.riding then [] else f.fds), o)
    ensures SentOk(f, s, o)
  {
  }

  lemma FrontFits(f: Frame, s: Story)
    requires PositionOk(s.offered, s.done, s.part) && FrontIs(f, s)
    ensures f.sent <= |f.bytes|
  {
  }

  lemma TrySendOk(c: Conn, s: Story, kernel: seq<Reply>, lim: Limits)
    requires Mid(c, s) && c.queue != []
    ensures 0 <= c.queue[0].sent <= |c.queue[0].bytes|
    ensures var o := TrySend(c.queue[0], s.done, s.trail, kernel, lim);
            var t := s.(trail := o.trail, part := o.frame.sent);
            && o.frame.bytes == c.queue[0].bytes && TrailOk(t)
            && (if o.state == Sent then o.frame.sent == |o.frame.bytes| else QueueOk(c.queue[0 := o.frame], t))
  {
    SendingOk(c.queue[0], s, kernel);
    var o := TrySend(c.queue[0], s.done, s.trail, kernel, lim);
    if |c.queue[0].fds| <= lim.frameFds && o.state != Sent {
    } else if |c.queue[0].fds| > lim.frameFds {
      assert c.queue[0 := o.frame] == c.queue;
    }
  }

  lemma SumNext(q: seq<Frame>, f: Frame)
    ensures Sum(q + [f]) == Sum(q) + |f.bytes|
  {
    if q == [] {
      assert (q + [f])[1..] == [];
    } else {
      assert (q + [f])[1..] == q[1..] + [f];
      SumNext(q[1..], f);
    }
  }

  lemma {:induction false} PushMid(c: Conn, s: Story, m: Msg)
    requires Mid(c, s)
    ensures Mid(Pushed(c, m), s.(offered := s.offered + [m]))
  {
    OfferOk(s, m);
    SumNext(c.queue, FrameOf(m));
    NothingAhead(s.offered, s.trail, s.done);
    PushQueue(c.queue, s, m);
  }

  /** No piece belongs to a frame not yet offered. */
  lemma NothingAhead(offered: seq<Msg>, trail: seq<Piece>, done: int)
    requires PiecesOk(offered, trail, done)
    ensures !LastIs(trail, |offered|)
  {
    if trail != [] {
      assert PieceOk(offered, trail, |trail| - 1);
    }
  }

  lemma PushQueue(q: seq<Frame>, s: Story, m: Msg)
    requires QueueOk(q, s) && !LastIs(s.trail, |s.offered|) && (s.done == |s.offered| ==> s.part == 0)
    ensures QueueOk(q + [FrameOf(m)], s.(offered := s.offered + [m]))
  {
  }

  lemma {:induction false} PopMid(c: Conn, s: Story, o: Outcome)
    requires Mid(c, s) && c.queue != [] && o.frame.bytes == c.queue[0].bytes && o.frame.sent == |o.frame.bytes|
    requires TrailOk(s.(trail := o.trail, part := o.frame.sent))
    ensures Mid(Popped(c), s.(trail := o.trail, done := s.done + 1, part := 0))
  {
    PopOk(s.(trail := o.trail, part := o.frame.sent));
    PopQueue(c.queue, s, o.trail);
  }

  lemma PopQueue(q: seq<Frame>, s: Story, trail: seq<Piece>)
    requires QueueOk(q, s) && q != [] && PiecesOk(s.offered, trail, s.done)
    ensures QueueOk(q[1..], s.(trail := trail, done := s.done + 1, part := 0))
  {
  }

  /** A send from (c, s) ended in r: nothing offered is lost or added, what the kernel
      took stays taken, and the connection is settled or to be closed. */
  predicate Flushes(c: Conn, s: Story, r: Flushed) {
    && TrailOk(r.story) && r.story.offered == s.offered && s.trail <= r.story.trail && s.done <= r.story.done
    && r.story.heard == s.heard
    && (!r.closing ==> Settled(r.conn, r.story))
    && r.conn.final == c.final && r.conn.reading == c.reading
  }

  predicate Ready(c: Conn, s: Story) {
    Mid(c, s) && !TooMuch(c) && (c.final ==> !c.reading)
  }

  lemma {:induction false} FlushStops(c: Conn, s: Story, kernel: seq<Reply>, lim: Limits)
    requires Ready(c, s) && c.queue != []
    requires TrySend(c.queue[0], s.done, s.trail, kernel, lim).state != Sent
    ensures Flushes(c, s, Flush(c, s, kernel, lim))
  {
    TrySendOk(c, s, kernel, lim);
    TrySendGrows(c.queue[0], s.done, s.trail, kernel, lim);
  }

  lemma {:induction false} PopReady(c: Conn, s: Story, o: Outcome)
    requires Ready(c, s) && c.queue != [] && o.frame.bytes == c.queue[0].bytes && o.frame.sent == |o.frame.bytes|
    requires TrailOk(s.(trail := o.trail, part := o.frame.sent))
    ensures Ready(Popped(c), s.(trail := o.trail, done := s.done + 1, part := 0))
  {
    PopMid(c, s, o);
    SumSmaller(c.queue);
  }

  lemma {:induction false} FlushNext(c: Conn, s: Story, kernel: seq<Reply>, lim: Limits)
    requires c.queue != [] && TrySend(c.queue[0], s.done, s.trail, kernel, lim).state == Sent
    ensures var o := TrySend(c.queue[0], s.done, s.trail, kernel, lim);
            Flush(c, s, kernel, lim)
            == Flush(Popped(c), s.(trail := o.trail, done := s.done + 1, part := 0), o.kernel, lim)
  {
  }

  lemma {:induction false} FlushOk(c: Conn, s: Story, kernel: seq<Reply>, lim: Limits)
    requires Ready(c, s)
    ensures Flushes(c, s, Flush(c, s, kernel, lim))
    decreases |c.queue|
  {
    if c.queue != [] {
      TrySendOk(c, s, kernel, lim);
      var o := TrySend(c.queue[0], s.done, s.trail, kernel, lim);
      if o.state == Sent {
        var t := s.(trail := o.trail, done := s.done + 1, part := 0);
        TrySendGrows(c.queue[0], s.done, s.trail, kernel, lim);
        PopReady(c, s, o);
        FlushOk(Popped(c), t, o.kernel, lim);
        FlushNext(c, s, kernel, lim);
        FlushesThrough(c, s, Popped(c), t, Flush(Popped(c), t, o.kernel, lim));
      } else {
        FlushStops(c, s, kernel, lim);
      }
    }
  }

  lemma FlushesThrough(c: Conn, s: Story, d: Conn, t: Story, r: Flushed)
    requires Flushes(d, t, r) && t.offered == s.offered && t.heard == s.heard && s.trail <= t.trail && s.done <= t.done
    requires d.final == c.final && d.reading == c.reading
    ensures Flushes(c, s, r)
  {
  }

  lemma SumSmaller(q: seq<Frame>)
    requires q != []
    ensures Sum(q[1..]) <= Sum(q)
  {
  }

  lemma {:induction false} SendingGrows(f: Frame, k: int, trail: seq<Piece>, kernel: seq<Reply>)
    ensures trail <= Sending(f, k, trail, kernel).trail
    decreases |kernel|
  {
    if f.sent < |f.bytes| && kernel != [] {
      if kernel[0].Interrupted? {
        SendingGrows(f, k, trail, kernel[1..]);
      } else if kernel[0].Accepted? {
        var w := Taken(kernel[0].n, |f.bytes| - f.sent);
        var p := Piece(k, f.bytes[f.sent..f.sent + w], if f.riding then [] else f.fds);
        SendingGrows(f.(sent := f.sent + w, riding := true), k, trail + [p], kernel[1..]);
      }
    }
  }

  lemma TrySendGrows(f: Frame, k: int, trail: seq<Piece>, kernel: seq<Reply>, lim: Limits)
    ensures trail <= TrySend(f, k, trail, kernel, lim).trail
  {
    SendingGrows(f, k, trail, kernel);
  }

  // ---- a send follows the kernel's answers ---------------------------------------------

  lemma UsedNext(kernel: seq<Reply>, rest: seq<Reply>)
    requires kernel != [] && |rest| <= |kernel[1..]|
    ensures Used(kernel, rest) == [kernel[0]] + Used(kernel[1..], rest)
  {
  }

  /** How the answers a send used up ended it. */
  predicate EndedBy(used: seq<Reply>, o: Outcome) {
    && (forall i | 0 <= i < |used| - 1 :: !used[i].Busy? && !used[i].Broken?)
    && match o.state
       case Sent =>
         && o.frame.sent >= |o.frame.bytes|
         && (used != [] ==> !used[|used| - 1].Busy? && !used[|used| - 1].Broken?)
       case WouldBlock =>
         o.frame.sent < |o.frame.bytes| && (if used != [] && used[|used| - 1].Busy? then true
           else o.kernel == [] && (used != [] ==> !used[|used| - 1].Broken?))
       case Error => o.frame.sent < |o.frame.bytes| && used != [] && used[|used| - 1].Broken?
  }

  lemma {:induction false} EndedEarlier(a: Reply, used: seq<Reply>, o: Outcome)
    requires EndedBy(used, o) && !a.Busy? && !a.Broken?
    ensures EndedBy([a] + used, o)
  {
  }

  /** What a send records is what the answers it used say; it uses them in order, and it
      ends for the reason the last of them gives. */
  ghost predicate Heeds(offered: seq<Msg>, kernel: seq<Reply>, heard: seq<Reply>, o: Outcome) {
    && |o.kernel| <= |kernel| && kernel == Used(kernel, o.kernel) + o.kernel
    && Explained(offered, o.trail, heard + Used(kernel, o.kernel))
    && EndedBy(Used(kernel, o.kernel), o)
  }

  lemma {:induction false} HeedsLast(f: Frame, k: int, s: Story, kernel: seq<Reply>, heard: seq<Reply>)
    requires Explained(s.offered, s.trail, heard) && SendingEnds(f, kernel)
    ensures Heeds(s.offered, kernel, heard, Sending(f, k, s.trail, kernel))
  {
    var o := Sending(f, k, s.trail, kernel);
    if f.sent >= |f.bytes| || kernel == [] {
      assert Used(kernel, o.kernel) == [] && heard + [] == heard;
    } else {
      assert Used(kernel, o.kernel) == [kernel[0]];
      ExplainedOther(s.offered, s.trail, heard, kernel[0]);
    }
  }

  function Next(f: Frame, k: int, n: nat): Piece
    requires f.sent <= |f.bytes|
  {
    var w := Taken(n, |f.bytes| - f.sent);
    Piece(k, f.bytes[f.sent..f.sent + w], if f.riding then [] else f.fds)
  }

  /** The kernel took `n`, or what was left of the frame. */
  lemma {:induction false} HeedsTaken(f: Frame, offered: seq<Msg>, trail: seq<Piece>, k: int, n: nat, heard: seq<Reply>)
    requires f.sent <= |f.bytes| && 0 <= k < |offered| && Explained(offered, trail, heard)
    requires LeftOfFrame(offered, trail, Next(f, k, n)) == |f.bytes| - f.sent
    ensures Explained(offered, trail + [Next(f, k, n)], heard + [Accepted(n)])
  {
    ExplainedTaken(offered, trail, heard, n, Next(f, k, n));
  }

  /** The send and its history so far agree with the answers heard. */
  ghost predicate Following(f: Frame, s: Story, heard: seq<Reply>) {
    TrailOk(s) && FrontIs(f, s) && Explained(s.offered, s.trail, heard)
  }

  lemma {:induction false} FollowTaken(f: Frame, s: Story, n: nat, heard: seq<Reply>)
    requires Following(f, s, heard) && f.sent < |f.bytes|
    ensures var w := Taken(n, |f.bytes| - f.sent);
            Following(Farther(f, w), Advance(s, w, if f.riding then [] else f.fds), heard + [Accepted(n)])
  {
    LeftOfFront(s, Next(f, s.done, n));
    HeedsTaken(f, s.offered, s.trail, s.done, n, heard);
    StepFront(f, s, Taken(n, |f.bytes| - f.sent));
  }

  lemma {:induction false} FollowOther(f: Frame, s: Story, a: Reply, heard: seq<Reply>)
    requires Following(f, s, heard) && !a.Accepted?
    ensures Following(f, s, heard + [a])
  {
    ExplainedOther(s.offered, s.trail, heard, a);
  }

  /** A send of one frame, for every sequence of answers. */
  lemma {:induction false} SendingHeard(f: Frame, s: Story, kernel: seq<Reply>, heard: seq<Reply>)
    requires Following(f, s, heard)
    ensures Heeds(s.offered, kernel, heard, Sending(f, s.done, s.trail, kernel))
    decreases |kernel|
  {
    if SendingEnds(f, kernel) {
      HeedsLast(f, s.done, s, kernel, heard);
    } else {
      if kernel[0].Interrupted? {
        FollowOther(f, s, kernel[0], heard);
        SendingHeard(f, s, kernel[1..], heard + [kernel[0]]);
        SendingAgain(f, s.done, s.trail, kernel);
      } else {
        var w := Taken(kernel[0].n, |f.bytes| - f.sent);
        FollowTaken(f, s, kernel[0].n, heard);
        SendingHeard(Farther(f, w), Advance(s, w, if f.riding then [] else f.fds), kernel[1..], heard + [kernel[0]]);
        SendingNext(f, s, kernel);
      }
      SendingMore(s.offered, kernel, heard, Sending(f, s.done, s.trail, kernel));
    }
  }

  lemma {:induction false} SendingNext(f: Frame, s: Story, kernel: seq<Reply>)
    requires PositionOk(s.offered, s.done, s.part) && FrontIs(f, s)
    requires f.sent < |f.bytes| && kernel != [] && kernel[0].Accepted?
    ensures var w := Taken(kernel[0].n, |f.bytes| - f.sent);
            Sending(f, s.done, s.trail, kernel)
            == Sending(Farther(f, w), s.done, Advance(s, w, if f.riding then [] else f.fds).trail, kernel[1..])
  {
  }

  /** One answer more before the rest. */
  lemma {:induction false} SendingMore(offered: seq<Msg>, kernel: seq<Reply>, heard: seq<Reply>, o: Outcome)
    requires kernel != [] && !kernel[0].Busy? && !kernel[0].Broken?
    requires Heeds(offered, kernel[1..], heard + [kernel[0]], o)
    ensures Heeds(offered, kernel, heard, o)
  {
    UsedNext(kernel, o.kernel);
    EndedEarlier(kernel[0], Used(kernel[1..], o.kernel), o);
    assert heard + [kernel[0]] + Used(kernel[1..], o.kernel) == heard + Used(kernel, o.kernel);
  }

  // ---- so does a flush -------------------------------------------------------------------

  /** A flush uses answers in order, records what they say, and stops for a reason: the
      queue is empty, the kernel is busy, or it is broken or the front frame has too many
      descriptors. It closes the connection exactly in the last case and when a final
      connection is drained. */
  ghost predicate FlushHeeds(c: Conn, kernel: seq<Reply>, heard: seq<Reply>, r: Flushed, lim: Limits) {
    && |r.kernel| <= |kernel| && kernel == Used(kernel, r.kernel) + r.kernel
    && Explained(r.story.offered, r.story.trail, heard + Used(kernel, r.kernel))
    && (if r.conn.queue == [] then r.closing == c.final
        else if r.closing then LastIsBroken(Used(kernel, r.kernel)) || |r.conn.queue[0].fds| > lim.frameFds
        else r.kernel == [] || LastIsBusy(Used(kernel, r.kernel)))
  }

  predicate LastIsBroken(used: seq<Reply>) {
    used != [] && used[|used| - 1].Broken?
  }

  predicate LastIsBusy(used: seq<Reply>) {
    used != [] && used[|used| - 1].Busy?
  }

  lemma {:induction false} TrySendHeard(c: Conn, s: Story, kernel: seq<Reply>, heard: seq<Reply>, lim: Limits)
    requires Mid(c, s) && c.queue != [] && Explained(s.offered, s.trail, heard) && |c.queue[0].fds| <= lim.frameFds
    ensures Heeds(s.offered, kernel, heard, TrySend(c.queue[0], s.done, s.trail, kernel, lim))
  {
    SendingHeard(c.queue[0], s, kernel, heard);
  }

  /** The flush ends at its front frame. */
  lemma {:induction false} FlushHeardStops(c: Conn, s: Story, kernel: seq<Reply>, heard: seq<Reply>, lim: Limits)
    requires c.queue != [] && |c.queue[0].fds| <= lim.frameFds
    requires TrySend(c.queue[0], s.done, s.trail, kernel, lim).state != Sent
    requires Heeds(s.offered, kernel, heard, TrySend(c.queue[0], s.done, s.trail, kernel, lim))
    ensures FlushHeeds(c, kernel, heard, Flush(c, s, kernel, lim), lim)
  {
  }

  lemma {:induction false} FlushHeardNothing(c: Conn, s: Story, kernel: seq<Reply>, heard: seq<Reply>, lim: Limits)
    requires (c.queue == [] || |c.queue[0].fds| > lim.frameFds) && Explained(s.offered, s.trail, heard)
    ensures FlushHeeds(c, kernel, heard, Flush(c, s, kernel, lim), lim)
  {
    assert Used(kernel, kernel) == [] && heard + [] == heard;
  }

  lemma {:induction false} FlushHeard(c: Conn, s: Story, kernel: seq<Reply>, heard: seq<Reply>, lim: Limits)
    requires Mid(c, s) && Explained(s.offered, s.trail, heard)
    ensures FlushHeeds(c, kernel, heard, Flush(c, s, kernel, lim), lim)
    decreases |c.queue|
  {
    if c.queue == [] || |c.queue[0].fds| > lim.frameFds {
      FlushHeardNothing(c, s, kernel, heard, lim);
    } else {
      var o := TrySend(c.queue[0], s.done, s.trail, kernel, lim);
      TrySendOk(c, s, kernel, lim);
      TrySendHeard(c, s, kernel, heard, lim);
      if o.state == Sent {
        var t := s.(trail := o.trail, done := s.done + 1, part := 0);
        PopMid(c, s, o);
        FlushHeard(Popped(c), t, o.kernel, heard + Used(kernel, o.kernel), lim);
        FlushNext(c, s, kernel, lim);
        FlushMore(c, kernel, o.kernel, heard, Flush(Popped(c), t, o.kernel, lim), lim);
      } else {
        FlushHeardStops(c, s, kernel, heard, lim);
      }
    }
  }

  lemma UsedThrough(kernel: seq<Reply>, mid: seq<Reply>, rest: seq<Reply>)
    requires |rest| <= |mid| <= |kernel| && kernel == Used(kernel, mid) + mid && mid == Used(mid, rest) + rest
    ensures Used(kernel, rest) == Used(kernel, mid) + Used(mid, rest) && kernel == Used(kernel, rest) + rest
  {
  }

  lemma HeardThrough(heard: seq<Reply>, a: seq<Reply>, b: seq<Reply>)
    ensures heard + a + b == heard + (a + b)
  {
  }

  /** The answers used for one frame, then those for the rest. */
  lemma {:induction false} FlushMore(c: Conn, kernel: seq<Reply>, mid: seq<Reply>, heard: seq<Reply>, r: Flushed,
                                     lim: Limits)
    requires c.queue != [] && |mid| <= |kernel| && kernel == Used(kernel, mid) + mid
    requires FlushHeeds(Popped(c), mid, heard + Used(kernel, mid), r, lim)
    ensures FlushHeeds(c, kernel, heard, r, lim)
  {
    UsedThrough(kernel, mid, r.kernel);
    HeardThrough(heard, Used(kernel, mid), Used(mid, r.kernel));
  }

  /** Offering a frame: either the connection is to be closed, or it is settled with
      that frame behind everything offered before. */
  lemma {:induction false} EnqueueOk(c: Conn, s: Story, m: Msg, kernel: seq<Reply>, lim: Limits)
    requires Ready(c, s)
    ensures Flushes(c, s.(offered := s.offered + [m]), Enqueue(c, s, m, kernel, lim))
  {
    PushMid(c, s, m);
    if !TooMuch(Pushed(c, m)) {
      FlushOk(Pushed(c, m), s.(offered := s.offered + [m]), kernel, lim);
    }
  }

  /** The bounds, by their numbers: past 4 MiB or 4096 frames the connection is to be
      closed and nothing is sent; within them an offer records what the kernel answers and
      closes only for a flush's reasons. */
  lemma {:induction false} EnqueueHeard(c: Conn, s: Story, m: Msg, kernel: seq<Reply>, heard: seq<Reply>, lim: Limits)
    requires Mid(c, s) && Explained(s.offered, s.trail, heard)
    ensures var r := Enqueue(c, s, m, kernel, lim);
            if c.bytes + |m.bytes| > 4194304 || |c.queue| + 1 > 4096
            then r.closing && r.kernel == kernel && r.story.trail == s.trail
                 && Explained(r.story.offered, r.story.trail, heard)
            else FlushHeeds(c, kernel, heard, r, lim)
  {
    PushMid(c, s, m);
    ExplainedLater(s.offered, m, s.trail, heard);
    if !TooMuch(Pushed(c, m)) {
      FlushHeard(Pushed(c, m), s.(offered := s.offered + [m]), kernel, heard, lim);
    }
  }

  lemma {:induction false} SendingWhole(f: Frame, k: int, trail: seq<Piece>, kernel: seq<Reply>)
    requires kernel != [] && kernel[0].Accepted? && kernel[0].n >= |f.bytes| - f.sent
    ensures Sending(f, k, trail, kernel).state == Sent
  {
    if f.sent < |f.bytes| {
      var w := |f.bytes| - f.sent;
      var g := f.(sent := f.sent + w, riding := true);
      var p := Piece(k, f.bytes[f.sent..f.sent + w], if f.riding then [] else f.fds);
      assert Sending(f, k, trail, kernel) == Sending(g, k, trail + [p], kernel[1..]);
    }
  }

  /** A frame with more descriptors than a message holds closes the connection, nothing of
      it sent. */
  lemma TooManyDescriptors(c: Conn, s: Story, kernel: seq<Reply>, lim: Limits)
    requires c.queue != [] && |c.queue[0].fds| > lim.frameFds
    ensures var r := Flush(c, s, kernel, lim); r.closing && r.kernel == kernel && r.story.trail == s.trail
  {
  }

  /** A front frame the kernel takes whole gets out. */
  lemma {:induction false} FrontGetsOut(c: Conn, s: Story, kernel: seq<Reply>, lim: Limits)
    requires Ready(c, s) && c.queue != [] && |c.queue[0].fds| <= lim.frameFds
    requires kernel != [] && kernel[0].Accepted? && kernel[0].n >= |c.queue[0].bytes| - c.queue[0].sent
    ensures Flush(c, s, kernel, lim).story.done > s.done
  {
    var o := TrySend(c.queue[0], s.done, s.trail, kernel, lim);
    TrySendOk(c, s, kernel, lim);
    SendingWhole(c.queue[0], s.done, s.trail, kernel);
    PopReady(c, s, o);
    FlushOk(Popped(c), s.(trail := o.trail, done := s.done + 1, part := 0), o.kernel, lim);
    FlushNext(c, s, kernel, lim);
  }

  /** The byte counter never goes below zero. */
  lemma BytesNeverNegative(c: Conn, s: Story)
    requires Mid(c, s)
    ensures 0 <= c.bytes && (c.queue != [] ==> 0 <= Popped(c).bytes)
  {
    SumNonNegative(c.queue);
    if c.queue != [] {
      SumNonNegative(c.queue[1..]);
    }
  }

  lemma SumNonNegative(q: seq<Frame>)
    ensures 0 <= Sum(q)
  {
  }
}
