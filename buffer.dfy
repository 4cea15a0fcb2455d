/** The frame store shared by the capture and decoding classes of the video
    namespace: a byte buffer that is allocated at most once, together with
    the frame dimensions recorded at that allocation.

    The module has two layers. `BufferState`, `Allocate` and `Run` describe
    the store as a value and a sequence of calls on it; the class `Buffer`
    is the object itself, whose fields are updated in place, and each of
    its methods is specified by the value layer through `State()`.
 */
module Video {

  /** The message of the exception thrown on a second allocation. */
  const ReallocationMessage: string := "Cannot resize or reallocate frame."

  /** How a call to `allocateFrame` ends: it returns a boolean, or it throws. */
  datatype Outcome = Returned(ok: bool) | Threw(message: string)

  /** A value the accessors push onto the embedding runtime's stack: the raw
      frame pointer (a light user datum) or a number. */
  datatype LuaValue = LightUserData(ptr: array<bv8>) | Number(value: int)

  /** The observable state of a buffer: whether memory is held, its length
      in bytes and the recorded width, height and element size. */
  datatype BufferState = BufferState(
    hasFrame: bool,
    frameLen: nat,
    width: int,
    height: int,
    elemSize: int)

  /** The class invariant on values: the recorded dimensions are not
      negative and multiply to the length, and a buffer that holds no
      memory still has the all-zero state it was constructed with. */
  predicate Consistent(s: BufferState) {
    && s.width >= 0 && s.height >= 0 && s.elemSize >= 0
    && s.frameLen == s.width * s.height * s.elemSize
    && (!s.hasFrame ==> s.frameLen == 0 && s.width == 0 && s.height == 0 && s.elemSize == 0)
  }

  /** The state of a freshly constructed buffer. */
  function Initial(): (s: BufferState)
    ensures Consistent(s)
    ensures !s.hasFrame && s.frameLen == 0
    ensures s.width == 0 && s.height == 0 && s.elemSize == 0
  {
    BufferState(false, 0, 0, 0, 0)
  }

  /** The new state and the outcome of one `allocateFrame` call. */
  datatype Step = Step(state: BufferState, outcome: Outcome)

  /** One call of `allocateFrame(w, h, elem)` on state `s`, where `mallocOk`
      says whether the underlying allocation of `w*h*elem` bytes succeeds.
      The product is only formed when no memory is held yet, so only then
      must the arguments be non-negative (the source's `int` product is
      taken over the integers here). */
  function Allocate(s: BufferState, w: int, h: int, elem: int, mallocOk: bool): (r: Step)
    requires s.hasFrame || (w >= 0 && h >= 0 && elem >= 0)
    ensures Consistent(s) ==> Consistent(r.state)
    ensures s.hasFrame ==> r.state == s && r.outcome == Threw(ReallocationMessage)
    ensures !s.hasFrame ==> r.outcome == Returned(mallocOk)
    ensures r.outcome == Returned(true) ==>
              && r.state.hasFrame
              && r.state.frameLen == w * h * elem
              && r.state.width == w && r.state.height == h && r.state.elemSize == elem
    ensures r.outcome != Returned(true) ==> r.state == s
  {
    if s.hasFrame then
      Step(s, Threw(ReallocationMessage))
    else
      assert w * h >= 0;
      var len: nat := w * h * elem;
      if mallocOk then
        Step(BufferState(true, len, w, h, elem), Returned(true))
      else
        Step(s, Returned(false))
  }

  /** A failed allocation does not count as holding memory: the next call is
      an allocation attempt of its own, never the reallocation error. This
      is a corollary of the contract of `Allocate`, stated for two calls. */
  lemma FailedAllocationAllowsRetry(s: BufferState, w: nat, h: nat, elem: nat,
                                    w': nat, h': nat, elem': nat, mallocOk': bool)
    requires !s.hasFrame
    ensures Allocate(s, w, h, elem, false).state == s
    ensures Allocate(Allocate(s, w, h, elem, false).state, w', h', elem', mallocOk').outcome
            == Returned(mallocOk')
  {
  }

  /** A call on a buffer, as a client of the class can make it. `Run`
      leaves the state unchanged on the accessor calls; that this matches
      the class is guaranteed by `Buffer.FrameSize`, `Buffer.FrameData` and
      `Buffer.FrameInfo` having no `modifies` clause, not by the lemmas
      about `Run`. */
  datatype Call =
    | AllocateFrameCall(w: nat, h: nat, elem: nat, mallocOk: bool)
    | FrameDataCall
    | FrameSizeCall
    | FrameInfoCall

  /** The final state after a sequence of calls, and the outcomes of its
      `allocateFrame` calls in order. */
  datatype Trace = Trace(final: BufferState, outcomes: seq<Outcome>)

  function Run(s: BufferState, calls: seq<Call>): Trace
    decreases |calls|
  {
    if calls == [] then
      Trace(s, [])
    else
      match calls[0]
      case AllocateFrameCall(w, h, elem, mallocOk) =>
        var step := Allocate(s, w, h, elem, mallocOk);
        var rest := Run(step.state, calls[1..]);
        Trace(rest.final, [step.outcome] + rest.outcomes)
      case _ =>
        Run(s, calls[1..])
  }

  /** The number of allocations that succeeded in a list of outcomes. */
  function Successes(outcomes: seq<Outcome>): nat {
    if outcomes == [] then 0
    else (if outcomes[0] == Returned(true) then 1 else 0) + Successes(outcomes[1..])
  }

  /** The class invariant holds after any sequence of calls. */
  lemma {:induction false} RunKeepsConsistent(s: BufferState, calls: seq<Call>)
    requires Consistent(s)
    ensures Consistent(Run(s, calls).final)
    decreases |calls|
  {
    if calls != [] {
      match calls[0]
      case AllocateFrameCall(w, h, elem, mallocOk) =>
        RunKeepsConsistent(Allocate(s, w, h, elem, mallocOk).state, calls[1..]);
      case _ =>
        RunKeepsConsistent(s, calls[1..]);
    }
  }

  /** Once memory is held, no sequence of calls releases it or changes the
      recorded length and dimensions, and every further `allocateFrame`
      throws the reallocation error. */
  lemma {:induction false} AllocatedIsPermanent(s: BufferState, calls: seq<Call>)
    requires s.hasFrame
    ensures Run(s, calls).final == s
    ensures forall i :: 0 <= i < |Run(s, calls).outcomes| ==>
              Run(s, calls).outcomes[i] == Threw(ReallocationMessage)
    decreases |calls|
  {
    if calls != [] {
      AllocatedIsPermanent(s, calls[1..]);
    }
  }

  /** At most one allocation succeeds over the life of a buffer, none once
      memory is held, and the buffer ends up holding memory exactly when it
      did already or one allocation succeeded. */
  lemma {:induction false} AtMostOneSuccess(s: BufferState, calls: seq<Call>)
    ensures Successes(Run(s, calls).outcomes) <= (if s.hasFrame then 0 else 1)
    ensures Run(s, calls).final.hasFrame <==>
              s.hasFrame || Successes(Run(s, calls).outcomes) == 1
    decreases |calls|
  {
    if s.hasFrame {
      AllocatedIsPermanent(s, calls);
      NoSuccesses(Run(s, calls).outcomes);
    } else if calls != [] {
      match calls[0]
      case AllocateFrameCall(w, h, elem, mallocOk) =>
        var step := Allocate(s, w, h, elem, mallocOk);
        AtMostOneSuccess(step.state, calls[1..]);
        assert Run(s, calls).outcomes == [step.outcome] + Run(step.state, calls[1..]).outcomes;
        assert ([step.outcome] + Run(step.state, calls[1..]).outcomes)[1..]
               == Run(step.state, calls[1..]).outcomes;
      case _ =>
        AtMostOneSuccess(s, calls[1..]);
    }
  }

  /** Outcomes that are all the reallocation error hold no success. */
  lemma {:induction false} NoSuccesses(outcomes: seq<Outcome>)
    requires forall i :: 0 <= i < |outcomes| ==> outcomes[i] == Threw(ReallocationMessage)
    ensures Successes(outcomes) == 0
    decreases |outcomes|
  {
    if outcomes != [] {
      NoSuccesses(outcomes[1..]);
    }
  }

  /** The frame store. `frame` is the nullable byte buffer, `frameLen` its
      length, and `width`, `height`, `elemSize` the dimensions recorded when
      it was allocated. */
  class Buffer {
    var frame: array?<bv8>
    var frameLen: nat
    var width: int
    var height: int
    var elemSize: int

    /** The observable state of this buffer. */
    ghost function State(): BufferState
      reads this
    {
      BufferState(frame != null, frameLen, width, height, elemSize)
    }

    /** The object invariant: the state is consistent and the held memory
        is exactly `frameLen` bytes long. */
    ghost predicate Valid()
      reads this
    {
      Consistent(State()) && (frame != null ==> frame.Length == frameLen)
    }

    /** A new buffer holds no memory and records zero length and dimensions. */
    constructor ()
      ensures Valid()
      ensures frame == null && State() == Initial()
    {
      frame := null;
      frameLen := 0;
      width := 0;
      height := 0;
      elemSize := 0;
    }

    /** `allocateFrame(w, h, elem)`, where `mallocOk` is the outcome of the
        underlying allocation. On a buffer that holds memory it throws and
        changes nothing; otherwise it allocates `w*h*elem` bytes and, when
        that succeeds, records the length and the dimensions together. */
    method AllocateFrame(w: int, h: int, elem: int, mallocOk: bool) returns (r: Outcome)
      requires Valid()
      requires frame != null || (w >= 0 && h >= 0 && elem >= 0)
      modifies this
      ensures Valid()
      ensures State() == Allocate(old(State()), w, h, elem, mallocOk).state
      ensures r == Allocate(old(State()), w, h, elem, mallocOk).outcome
      ensures old(frame) != null ==> frame == old(frame)
      ensures old(frame) == null && mallocOk ==> fresh(frame) && frame.Length == w * h * elem
      ensures old(frame) == null && !mallocOk ==> frame == null
    {
      if frame != null {
        return Threw(ReallocationMessage);
      }
      assert w * h >= 0;
      var len: nat := w * h * elem;
      if mallocOk {
        frame := new bv8[len];
      } else {
        frame := null;
      }
      if frame != null {
        frameLen := len;
        width := w;
        height := h;
        elemSize := elem;
        return Returned(true);
      } else {
        return Returned(false);
      }
    }

    /** `frameSize()`: the length in bytes, which is zero before the
        allocation and the product of the dimensions after it. */
    method FrameSize() returns (n: nat)
      ensures n == State().frameLen
      ensures Valid() ==> n == width * height * elemSize
      ensures Valid() && frame == null ==> n == 0
    {
      n := frameLen;
    }

    /** `frameData()`: pushes nothing while no memory is held, and the frame
        pointer alone once it is; `count` is the number of values pushed.
        The pointer it yields addresses exactly `frameSize()` bytes. */
    method FrameData() returns (count: nat, pushed: seq<LuaValue>)
      ensures count == |pushed|
      ensures count == (if State().hasFrame then 1 else 0)
      ensures frame != null ==> pushed == [LightUserData(frame)]
      ensures Valid() && frame != null ==> pushed[0].ptr.Length == frameLen
    {
      if frame == null {
        return 0, [];
      }
      pushed := [LightUserData(frame)];
      count := 1;
    }

    /** `frameInfo()`: always pushes three numbers, the width, the height and
        the element size, whose product is the frame size. */
    method FrameInfo() returns (count: nat, pushed: seq<LuaValue>)
      ensures count == |pushed| == 3
      ensures pushed == [Number(State().width), Number(State().height), Number(State().elemSize)]
      ensures Valid() ==> pushed[0].value * pushed[1].value * pushed[2].value == frameLen
    {
      pushed := [Number(width), Number(height), Number(elemSize)];
      count := 3;
    }
  }

  /** A client of the class: a 640x480x4 allocation that succeeds, then a
      320x240x4 one that throws, after which the buffer still reports the
      first dimensions and size. */
  method ReallocationScenario() returns (first: Outcome, second: Outcome, info: seq<LuaValue>, size: nat)
    ensures first == Returned(true)
    ensures second == Threw(ReallocationMessage)
    ensures info == [Number(640), Number(480), Number(4)]
    ensures size == 640 * 480 * 4
  {
    var b := new Buffer();
    first := b.AllocateFrame(640, 480, 4, true);
    second := b.AllocateFrame(320, 240, 4, true);
    var count;
    count, info := b.FrameInfo();
    size := b.FrameSize();
  }

  /** A client of the class: an allocation whose memory request fails
      leaves the buffer empty, and a later one is allowed to succeed. */
  method RetryScenario() returns (first: Outcome, second: Outcome, data: nat)
    ensures first == Returned(false)
    ensures second == Returned(true)
    ensures data == 1
  {
    var b := new Buffer();
    first := b.AllocateFrame(640, 480, 4, false);
    var none, nothing := b.FrameData();
    assert none == 0 && nothing == [];
    second := b.AllocateFrame(640, 480, 4, true);
    var pointer;
    data, pointer := b.FrameData();
  }
}
