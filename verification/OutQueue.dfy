/**
 One connection's outbound queue: frames are offered whole, the kernel takes them in
 pieces, and a frame's descriptors ride its first piece.
 */
module OutQueue {
  import opened Wrappers

  /** `kMaxFrameFds`; the number belongs to the wire library. */
  datatype Limits = Limits(frameFds: int)

  const MAX_QUEUED_BYTES: int := 4 * 1024 * 1024
  const MAX_QUEUED_FRAMES: int := 4096

  /** What a caller offers. */
  datatype Msg = Msg(bytes: seq<Byte>, fds: seq<int>)

  /** The same in the queue: how far it is sent, and whether a send has succeeded. */
  datatype Frame = Frame(bytes: seq<Byte>, fds: seq<int>, sent: nat, riding: bool)

  /** What one system call answers; more than was asked for counts as all of it. */
  datatype Reply = Accepted(n: nat) | Interrupted | Busy | Broken

  /** A successful send: the bytes the kernel took, the descriptors with them, and
      the frame they belong to, counted from the first ever offered. */
  datatype Piece = Piece(frame: int, data: seq<Byte>, fds: seq<int>)

  /** History of one connection: everything offered, everything the kernel took, the
      number of frames fully sent and the bytes sent of the next; and the answers the
      kernel gave to this connection's system calls, in order. */
  datatype Story = Story(offered: seq<Msg>, trail: seq<Piece>, done: int, part: int, heard: seq<Reply>)

  datatype SendState = Sent | WouldBlock | Error

  datatype Outcome = Outcome(frame: Frame, state: SendState, trail: seq<Piece>, kernel: seq<Reply>)

  function Taken(n: nat, room: nat): nat {
    if n <= room then n else room
  }

  /** The loop of `trySendFrame` for frame number `k`. */
  function Sending(f: Frame, k: int, trail: seq<Piece>, kernel: seq<Reply>): Outcome
    decreases |kernel|
  {
    if f.sent >= |f.bytes| then Outcome(f.(fds := []), Sent, trail, kernel)
    else if kernel == [] then Outcome(f, WouldBlock, trail, kernel)
    else
      match kernel[0]
      case Interrupted => Sending(f, k, trail, kernel[1..])
      case Busy => Outcome(f, WouldBlock, trail, kernel[1..])
      case Broken => Outcome(f, Error, trail, kernel[1..])
      case Accepted(n) =>
        var w := Taken(n, |f.bytes| - f.sent);
        Sending(f.(sent := f.sent + w, riding := true), k,
                trail + [Piece(k, f.bytes[f.sent..f.sent + w], if f.riding then [] else f.fds)], kernel[1..])
  }

  /** `trySendFrame`: a frame with more descriptors than the ancillary buffer holds
      fails before anything is sent. */
  function TrySend(f: Frame, k: int, trail: seq<Piece>, kernel: seq<Reply>, lim: Limits): Outcome {
    if |f.fds| > lim.frameFds then Outcome(f, Error, trail, kernel) else Sending(f, k, trail, kernel)
  }

  // ---- the stream ---------------------------------------------------------------------

  function Concat(ms: seq<Msg>): seq<Byte> {
    if ms == [] then [] else Concat(ms[..|ms| - 1]) + ms[|ms| - 1].bytes
  }

  function Data(ps: seq<Piece>): seq<Byte> {
    if ps == [] then [] else Data(ps[..|ps| - 1]) + ps[|ps| - 1].data
  }

  function Waiting(q: seq<Frame>): seq<Byte> {
    if q == [] then [] else q[0].bytes + Waiting(q[1..])
  }

  /** The unsent rest of a queue whose front may be partly sent. */
  function Unsent(q: seq<Frame>): seq<Byte>
    requires q != [] ==> 0 <= q[0].sent <= |q[0].bytes|
  {
    if q == [] then [] else q[0].bytes[q[0].sent..] + Waiting(q[1..])
  }

  predicate FirstOf(trail: seq<Piece>, i: int)
    requires 0 <= i < |trail|
  {
    forall j | 0 <= j < i :: trail[j].frame != trail[i].frame
  }

  predicate PieceOk(offered: seq<Msg>, trail: seq<Piece>, i: int)
    requires 0 <= i < |trail|
  {
    && 0 <= trail[i].frame < |offered|
    && trail[i].fds == (if FirstOf(trail, i) then offered[trail[i].frame].fds else [])
    && (FirstOf(trail, i) ==> Data(trail[..i]) == Concat(offered[..trail[i].frame]))
  }

  predicate Touched(trail: seq<Piece>, k: int) {
    exists i | 0 <= i < |trail| :: trail[i].frame == k
  }

  predicate PositionOk(offered: seq<Msg>, done: int, part: int) {
    && 0 <= done <= |offered| && 0 <= part
    && (if done < |offered| then part <= |offered[done].bytes| else part == 0)
  }

  function SoFar(offered: seq<Msg>, done: int, part: int): seq<Byte>
    requires PositionOk(offered, done, part)
  {
    Concat(offered[..done]) + (if done < |offered| then offered[done].bytes[..part] else [])
  }

  /** The pieces follow the frames' order, and each is as PieceOk says. */
  predicate PiecesOk(offered: seq<Msg>, trail: seq<Piece>, done: int) {
    && (forall i {:trigger PieceOk(offered, trail, i)} | 0 <= i < |trail| :: PieceOk(offered, trail, i))
    && (forall i | 0 <= i < |trail| :: trail[i].frame <= done)
    && (forall i, j | 0 <= i < j < |trail| :: trail[i].frame <= trail[j].frame)
  }

  predicate Covered(offered: seq<Msg>, trail: seq<Piece>, done: int)
    requires done <= |offered|
  {
    forall k | 0 <= k < done && offered[k].bytes != [] :: Touched(trail, k)
  }

  /** The kernel took the frames in order, each from its first byte; descriptors went
      with the first piece of their frame and with no other. */
  predicate TrailOk(s: Story) {
    && PositionOk(s.offered, s.done, s.part)
    && Data(s.trail) == SoFar(s.offered, s.done, s.part)
    && PiecesOk(s.offered, s.trail, s.done)
    && Covered(s.offered, s.trail, s.done)
    && (s.part > 0 ==> LastIs(s.trail, s.done))
  }

  predicate LastIs(trail: seq<Piece>, k: int) {
    trail != [] && trail[|trail| - 1].frame == k
  }

  /** The queue holds what is offered and not fully sent, and only its front frame is
      ever partly sent. */
  predicate QueueOk(q: seq<Frame>, s: Story) {
    && 0 <= s.done && |q| == |s.offered| - s.done
    && (forall i | 0 <= i < |q| :: q[i].bytes == s.offered[s.done + i].bytes && q[i].fds == s.offered[s.done + i].fds)
    && (forall i | 0 < i < |q| :: q[i].sent == 0 && !q[i].riding)
    && (q != [] ==> q[0].sent == s.part && q[0].riding == LastIs(s.trail, s.done))
  }

  // ---- what the kernel said ---------------------------------------------------------------

  /** The answers of a kernel that are used up when `rest` is left. */
  function Used(kernel: seq<Reply>, rest: seq<Reply>): seq<Reply> {
    if |rest| <= |kernel| then kernel[..|kernel| - |rest|] else []
  }

  /** Bytes of piece `p`'s frame that were still unsent when the pieces `before` it were
      out. */
  function LeftOfFrame(offered: seq<Msg>, before: seq<Piece>, p: Piece): int
    requires 0 <= p.frame < |offered|
  {
    |Concat(offered[..p.frame + 1])| - |Data(before)|
  }

  /** The pieces are what the kernel said it took: one piece for each answer that took
      something, in order, as long as that answer's number or, if less was left of the
      frame, as what was left; nothing for any other answer. */
  ghost predicate Explained(offered: seq<Msg>, trail: seq<Piece>, heard: seq<Reply>)
    decreases |heard|
  {
    if heard == [] then trail == []
    else
      var a, before := heard[|heard| - 1], heard[..|heard| - 1];
      if a.Accepted? then
        && trail != []
        && var p, rest := trail[|trail| - 1], trail[..|trail| - 1];
           && 0 <= p.frame < |offered|
           && (if a.n <= LeftOfFrame(offered, rest, p) then |p.data| == a.n
               else |p.data| == LeftOfFrame(offered, rest, p))
           && Explained(offered, rest, before)
      else Explained(offered, trail, before)
  }

  lemma {:induction false} ExplainedLater(offered: seq<Msg>, m: Msg, trail: seq<Piece>, heard: seq<Reply>)
    requires Explained(offered, trail, heard)
    ensures Explained(offered + [m], trail, heard)
    decreases |heard|
  {
    if heard != [] {
      var a, before := heard[|heard| - 1], heard[..|heard| - 1];
      if a.Accepted? {
        var p, rest := trail[|trail| - 1], trail[..|trail| - 1];
        assert (offered + [m])[..p.frame + 1] == offered[..p.frame + 1];
        ExplainedLater(offered, m, rest, before);
      } else {
        ExplainedLater(offered, m, trail, before);
      }
    }
  }

  /** Nothing is taken by an answer that takes nothing. */
  lemma {:induction false} ExplainedOther(offered: seq<Msg>, trail: seq<Piece>, heard: seq<Reply>, a: Reply)
    requires Explained(offered, trail, heard) && !a.Accepted?
    ensures Explained(offered, trail, heard + [a])
  {
    assert (heard + [a])[..|heard|] == heard;
  }

  lemma {:induction false} ExplainedTaken(offered: seq<Msg>, trail: seq<Piece>, heard: seq<Reply>, n: nat, p: Piece)
    requires Explained(offered, trail, heard) && 0 <= p.frame < |offered|
    requires if n <= LeftOfFrame(offered, trail, p) then |p.data| == n else |p.data| == LeftOfFrame(offered, trail, p)
    ensures Explained(offered, trail + [p], heard + [Accepted(n)])
  {
    assert (heard + [Accepted(n)])[..|heard|] == heard;
    assert (trail + [p])[..|trail|] == trail;
  }

  /** What is left of the front frame. */
  lemma {:induction false} LeftOfFront(s: Story, p: Piece)
    requires TrailOk(s) && s.done < |s.offered| && p.frame == s.done
    ensures LeftOfFrame(s.offered, s.trail, p) == |s.offered[s.done].bytes| - s.part
  {
    ConcatNext(s.offered, s.done);
  }

  // ---- one send --------------------------------------------------------------------------

  lemma {:induction false} ConcatNext(ms: seq<Msg>, k: int)
    requires 0 <= k < |ms|
    ensures Concat(ms[..k + 1]) == Concat(ms[..k]) + ms[k].bytes
  {
    assert ms[..k + 1][..k] == ms[..k];
  }

  lemma Extend(c: seq<Byte>, b: seq<Byte>, n: int, w: int)
    requires 0 <= n <= n + w <= |b|
    ensures (c + b[..n]) + b[n..n + w] == c + b[..n + w]
  {
  }

  lemma Regroup(c: seq<Byte>, b: seq<Byte>, n: int, w: seq<Byte>)
    requires 0 <= n <= |b|
    ensures (c + b[..n]) + (b[n..] + w) == c + (b + w)
  {
  }

  function Advance(s: Story, w: int, fds: seq<int>): Story
    requires PositionOk(s.offered, s.done, s.part) && s.done < |s.offered|
    requires 0 <= w <= |s.offered[s.done].bytes| - s.part
  {
    s.(trail := s.trail + [Piece(s.done, s.offered[s.done].bytes[s.part..s.part + w], fds)], part := s.part + w)
  }

  lemma {:induction false} StepPieces(offered: seq<Msg>, trail: seq<Piece>, done: int, p: Piece)
    requires PiecesOk(offered, trail, done) && 0 <= done < |offered| && p.frame == done
    requires p.fds == if LastIs(trail, done) then [] else offered[done].fds
    requires !LastIs(trail, done) ==> Data(trail) == Concat(offered[..done])
    ensures PiecesOk(offered, trail + [p], done)
  {
    var t := trail + [p];
    forall i | 0 <= i < |t|
      ensures PieceOk(offered, t, i)
    {
      assert t[..i] == trail[..i];
      if i < |trail| {
        assert PieceOk(offered, trail, i);
        assert FirstOf(t, i) == FirstOf(trail, i);
      } else {
        assert trail[..i] == trail;
        assert FirstOf(t, i) == !LastIs(trail, done);
      }
    }
  }

  lemma {:induction false} StepCovered(offered: seq<Msg>, trail: seq<Piece>, done: int, p: Piece)
    requires done <= |offered| && Covered(offered, trail, done)
    ensures Covered(offered, trail + [p], done)
  {
    forall k | 0 <= k < done && offered[k].bytes != []
      ensures Touched(trail + [p], k)
    {
      assert Touched(trail, k);
      var i :| 0 <= i < |trail| && trail[i].frame == k;
      assert (trail + [p])[i].frame == k;
    }
  }

  lemma {:induction false} StepData(offered: seq<Msg>, trail: seq<Piece>, done: int, part: int, p: Piece, w: int)
    requires PositionOk(offered, done, part) && done < |offered| && 0 <= w <= |offered[done].bytes| - part
    requires p.data == offered[done].bytes[part..part + w] && Data(trail) == SoFar(offered, done, part)
    ensures PositionOk(offered, done, part + w) && Data(trail + [p]) == SoFar(offered, done, part + w)
  {
    Extend(Concat(offered[..done]), offered[done].bytes, part, w);
  }

  /** Nothing of the front frame is out yet. */
  lemma {:induction false} StepStart(offered: seq<Msg>, trail: seq<Piece>, done: int)
    requires PositionOk(offered, done, 0) && Data(trail) == SoFar(offered, done, 0)
    ensures Data(trail) == Concat(offered[..done])
  {
  }

  /** The kernel takes `w` bytes of the front frame. */
  lemma {:induction false} StepOk(s: Story, w: int, fds: seq<int>)
    requires TrailOk(s) && s.done < |s.offered| && 0 <= w <= |s.offered[s.done].bytes| - s.part
    requires fds == if LastIs(s.trail, s.done) then [] else s.offered[s.done].fds
    ensures TrailOk(Advance(s, w, fds)) && LastIs(Advance(s, w, fds).trail, s.done)
  {
    var p := Piece(s.done, s.offered[s.done].bytes[s.part..s.part + w], fds);
    StepData(s.offered, s.trail, s.done, s.part, p, w);
    if s.part == 0 {
      StepStart(s.offered, s.trail, s.done);
    }
    StepPieces(s.offered, s.trail, s.done, p);
    StepCovered(s.offered, s.trail, s.done, p);
    StepAll(s, Advance(s, w, fds), p);
  }

  /** The clauses of the history after one more piece, put together. */
  lemma {:induction false} StepAll(s: Story, t: Story, p: Piece)
    requires t == s.(trail := s.trail + [p], part := t.part) && p.frame == s.done
    requires PositionOk(s.offered, s.done, t.part) && Data(s.trail + [p]) == SoFar(s.offered, s.done, t.part)
    requires PiecesOk(s.offered, s.trail + [p], s.done) && Covered(s.offered, s.trail + [p], s.done)
    ensures TrailOk(t) && LastIs(t.trail, s.done)
  {
  }

  /** The front frame is out. */
  lemma {:induction false} PopOk(s: Story)
    requires TrailOk(s) && s.done < |s.offered| && s.part == |s.offered[s.done].bytes|
    ensures TrailOk(s.(done := s.done + 1, part := 0))
  {
    var b := s.offered[s.done].bytes;
    ConcatNext(s.offered, s.done);
    assert b[..s.part] == b;
    PopCovered(s.offered, s.trail, s.done);
  }

  lemma {:induction false} PopCovered(offered: seq<Msg>, trail: seq<Piece>, done: int)
    requires 0 <= done < |offered| && Covered(offered, trail, done)
    requires offered[done].bytes != [] ==> LastIs(trail, done)
    ensures Covered(offered, trail, done + 1)
  {
    forall k | 0 <= k < done + 1 && offered[k].bytes != []
      ensures Touched(trail, k)
    {
      if k == done {
        assert trail[|trail| - 1].frame == k;
      }
    }
  }

  lemma {:induction false} OfferPieces(offered: seq<Msg>, trail: seq<Piece>, done: int, m: Msg)
    requires PiecesOk(offered, trail, done)
    ensures PiecesOk(offered + [m], trail, done)
  {
    forall i | 0 <= i < |trail|
      ensures PieceOk(offered + [m], trail, i)
    {
      assert PieceOk(offered, trail, i);
      assert (offered + [m])[..trail[i].frame] == offered[..trail[i].frame];
    }
  }

  lemma {:induction false} OfferOk(s: Story, m: Msg)
    requires TrailOk(s)
    ensures TrailOk(s.(offered := s.offered + [m]))
  {
    assert (s.offered + [m])[..s.done] == s.offered[..s.done];
    OfferPieces(s.offered, s.trail, s.done, m);
  }

  // ---- what the stream means ----------------------------------------------------------------

  lemma Reassociate(a: seq<Byte>, b: seq<Byte>, c: seq<Byte>)
    ensures (a + b) + c == a + (b + c)
  {
  }

  lemma {:induction false} WaitingIsRest(q: seq<Frame>, ms: seq<Msg>, k: int)
    requires 0 <= k <= |ms| && |q| == |ms| - k
    requires forall i | 0 <= i < |q| :: q[i].bytes == ms[k + i].bytes
    ensures Concat(ms) == Concat(ms[..k]) + Waiting(q)
    decreases |q|
  {
    if q == [] {
      assert ms[..k] == ms;
    } else {
      WaitingIsRest(q[1..], ms, k + 1);
      ConcatNext(ms, k);
      Reassociate(Concat(ms[..k]), q[0].bytes, Waiting(q[1..]));
    }
  }

  /** What the kernel took and what is still queued make up exactly the frames offered,
      in order. */
  lemma {:induction false} StreamWhole(s: Story, q: seq<Frame>)
    requires TrailOk(s) && QueueOk(q, s)
    ensures q != [] ==> 0 <= q[0].sent <= |q[0].bytes|
    ensures Data(s.trail) + Unsent(q) == Concat(s.offered)
  {
    WaitingIsRest(q, s.offered, s.done);
    if q != [] {
      Regroup(Concat(s.offered[..s.done]), q[0].bytes, s.part, Waiting(q[1..]));
    }
  }

  /** Each frame's descriptors ride one send only: the first that took anything of the
      frame, at the very byte the frame starts. Every frame that is out and has bytes
      had such a send. */
  lemma {:induction false} DescriptorsRideOnce(s: Story, i: int)
    requires TrailOk(s) && 0 <= i < |s.trail|
    ensures var k := s.trail[i].frame;
            && 0 <= k < |s.offered|
            && ((forall j | 0 <= j < i :: s.trail[j].frame != k) ==>
                  s.trail[i].fds == s.offered[k].fds && Data(s.trail[..i]) == Concat(s.offered[..k]))
            && ((exists j | 0 <= j < i :: s.trail[j].frame == k) ==> s.trail[i].fds == [])
  {
    assert PieceOk(s.offered, s.trail, i);
  }

  lemma {:induction false} SentFrameHadASend(s: Story, k: int)
    requires TrailOk(s) && 0 <= k < s.done && s.offered[k].bytes != []
    ensures exists i | 0 <= i < |s.trail| :: s.trail[i].frame == k && s.trail[i].fds == s.offered[k].fds
                                             && (forall j | 0 <= j < i :: s.trail[j].frame != k)
  {
    assert Touched(s.trail, k);
    var i :| 0 <= i < |s.trail| && s.trail[i].frame == k;
    var f := FirstSend(s.trail, k, i);
    DescriptorsRideOnce(s, f);
  }

  /** The first send of a frame at or before one that is known. */
  function FirstSend(trail: seq<Piece>, k: int, i: int): (f: int)
    requires 0 <= i < |trail| && trail[i].frame == k
    ensures 0 <= f <= i && trail[f].frame == k && forall j | 0 <= j < f :: trail[j].frame != k
    decreases i
  {
    if j :| 0 <= j < i && trail[j].frame == k then FirstSend(trail, k, j) else i
  }
}
