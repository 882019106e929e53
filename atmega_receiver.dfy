/**
 * The UART receive handler for Atmega frames (atmega/atmega.c) and the frame
 * store it fills. One call consumes the bytes readable during that call; the
 * flags `frame_begin` and `bytesReceived` are locals of the call, so they start
 * afresh each time, while the store and `current_frame_index` persist.
 *
 * The handler is modelled as written, including its quirks: a data byte is
 * ADDED (mod 256) to the first character of the current slot instead of being
 * stored at its position; the index wraps when it reaches
 * `ATMEGA_MAX_FRAMES_STORED - 1`, so the last slot is never written; the byte
 * counter is not reset after a committed frame; and a start or early end byte
 * inside a frame counts as data.
 */
module AtmegaReceiver {
  import opened AtmegaProtocol

  // ---------------------------------------------------------------------
  // Specification: the handler as a function of one call's bytes
  // ---------------------------------------------------------------------

  /** The state seen by the handler: its two locals, the persistent index,
      and the first character of each slot (the only column it writes). */
  datatype RxState = RxState(frameBegin: bool, bytesReceived: nat, index: nat, heads: seq<Byte>)

  predicate WellFormed(s: RxState)
  {
    |s.heads| == MaxFramesStored && s.index < MaxFramesStored - 1 && s.bytesReceived <= FrameLength
  }

  /** The state at the start of a call: locals cleared, store and index as left by earlier calls. */
  function Fresh(heads: seq<Byte>, index: nat): RxState
  {
    RxState(false, 0, index, heads)
  }

  /** The slot that follows `i` in the ring, as the commit branch computes it. */
  function NextIndex(i: nat): (j: nat)
    requires i < MaxFramesStored - 1
    ensures j < MaxFramesStored - 1 && j != i
    ensures j == 0 || j == i + 1
    ensures j == (i + 1) % (MaxFramesStored - 1)
  {
    if i + 1 == MaxFramesStored - 1 then 0 else i + 1
  }

  /** The ring visits slots 0, 1, 2, 3 in turn: four commits bring the index
      back to where it started, and no fewer do. */
  lemma NextIndexCycle(i: nat)
    requires i < MaxFramesStored - 1
    ensures NextIndex(NextIndex(NextIndex(NextIndex(i)))) == i
    ensures NextIndex(i) != i && NextIndex(NextIndex(i)) != i && NextIndex(NextIndex(NextIndex(i))) != i
    ensures NextIndex(0) == 1 && NextIndex(1) == 2 && NextIndex(2) == 3 && NextIndex(3) == 0
  {
  }

  /** The effect of one byte. */
  function Step(s: RxState, ch: Byte): (r: RxState)
    requires WellFormed(s)
    ensures WellFormed(r)
    ensures r.index != s.index <==> ch == EndByte && s.frameBegin && s.bytesReceived == FrameLength
    ensures r.bytesReceived == s.bytesReceived || r.bytesReceived == s.bytesReceived + 1
    ensures forall k :: 0 <= k < MaxFramesStored && k != s.index ==> r.heads[k] == s.heads[k]
  {
    if ch == StartByte && !s.frameBegin then
      s.(frameBegin := true)
    else if ch == EndByte && s.frameBegin && s.bytesReceived == FrameLength then
      s.(index := NextIndex(s.index), frameBegin := false)
    else if s.frameBegin && s.bytesReceived < FrameLength then
      s.(heads := s.heads[s.index := (s.heads[s.index] + ch) % 256], bytesReceived := s.bytesReceived + 1)
    else
      s
  }

  /** The effect of a sequence of bytes, one after the other. */
  function Run(s: RxState, input: seq<Byte>): (r: RxState)
    requires WellFormed(s)
    ensures WellFormed(r)
    ensures r.bytesReceived <= s.bytesReceived + |input|
    decreases |input|
  {
    if input == [] then s else Step(Run(s, input[..|input| - 1]), input[|input| - 1])
  }

  /** The state after one whole call of the handler. */
  function Receive(heads: seq<Byte>, index: nat, input: seq<Byte>): (r: RxState)
    requires |heads| == MaxFramesStored && index < MaxFramesStored - 1
    ensures WellFormed(r)
  {
    Run(Fresh(heads, index), input)
  }

  /** The sum of some bytes: what the quirky `+=` accumulates into a slot. */
  function Sum(f: seq<Byte>): nat
  {
    if f == [] then 0 else Sum(f[..|f| - 1]) + f[|f| - 1]
  }

  // ---------------------------------------------------------------------
  // Properties of the handler
  // ---------------------------------------------------------------------

  /** Running two pieces of input is running their concatenation. */
  lemma {:induction false} RunAppend(s: RxState, a: seq<Byte>, b: seq<Byte>)
    requires WellFormed(s)
    ensures Run(s, a + b) == Run(Run(s, a), b)
    decreases |b|
  {
    if b == [] {
      assert a + b == a;
    } else {
      var b' := b[..|b| - 1];
      assert (a + b)[..|a + b| - 1] == a + b';
      RunAppend(s, a, b');
    }
  }

  /** Outside a frame, bytes other than the start byte change nothing at all. */
  lemma {:induction false} NoStartByteNoChange(s: RxState, input: seq<Byte>)
    requires WellFormed(s) && !s.frameBegin
    requires forall n :: 0 <= n < |input| ==> input[n] != StartByte
    ensures Run(s, input) == s
    decreases |input|
  {
    if input != [] {
      NoStartByteNoChange(s, input[..|input| - 1]);
    }
  }

  /** Bytes arriving in a call before any start byte leave the store, the
      index and the call's counters as they were. */
  lemma PreambleChangesNothing(heads: seq<Byte>, index: nat, preamble: seq<Byte>)
    requires |heads| == MaxFramesStored && index < MaxFramesStored - 1
    requires forall n :: 0 <= n < |preamble| ==> preamble[n] != StartByte
    ensures Receive(heads, index, preamble) == Fresh(heads, index)
  {
    NoStartByteNoChange(Fresh(heads, index), preamble);
  }

  /** Inside a frame that is not yet full, every byte, a start or an end byte
      included, is data: it is added to the current slot's first character and
      counted. */
  lemma DataByteInsideFrame(s: RxState, ch: Byte)
    requires WellFormed(s) && s.frameBegin && s.bytesReceived < FrameLength
    ensures Step(s, ch) == s.(heads := s.heads[s.index := (s.heads[s.index] + ch) % 256],
                              bytesReceived := s.bytesReceived + 1)
  {
  }

  /** Once FrameLength bytes are counted, further data bytes are ignored. */
  lemma DataIgnoredWhenFull(s: RxState, ch: Byte)
    requires WellFormed(s) && s.frameBegin && s.bytesReceived == FrameLength && ch != EndByte
    ensures Step(s, ch) == s
  {
  }

  /** The end byte commits a frame only when a frame has begun and exactly
      FrameLength data bytes were counted; any other end byte leaves the index
      as it is (outside a frame it changes nothing, inside one it is data). */
  lemma EndByteCommitsOnlyFullFrame(s: RxState)
    requires WellFormed(s)
    ensures s.frameBegin && s.bytesReceived == FrameLength ==>
              Step(s, EndByte) == s.(index := NextIndex(s.index), frameBegin := false)
    ensures !(s.frameBegin && s.bytesReceived == FrameLength) ==> Step(s, EndByte).index == s.index
    ensures !s.frameBegin ==> Step(s, EndByte) == s
  {
  }

  /** The last slot of the store is never written. */
  lemma {:induction false} LastSlotNeverWritten(s: RxState, input: seq<Byte>)
    requires WellFormed(s)
    ensures Run(s, input).heads[MaxFramesStored - 1] == s.heads[MaxFramesStored - 1]
    decreases |input|
  {
    if input != [] {
      LastSlotNeverWritten(s, input[..|input| - 1]);
    }
  }

  lemma AddMod(a: int, b: int, c: int)
    ensures ((a + b) % 256 + c) % 256 == (a + (b + c)) % 256
  {
  }

  /** The state after `f` was stored as data in slot `s.index`. */
  function AfterData(s: RxState, f: seq<Byte>): RxState
    requires WellFormed(s)
  {
    s.(heads := s.heads[s.index := (s.heads[s.index] + Sum(f)) % 256],
       bytesReceived := s.bytesReceived + |f|)
  }

  /** A run of data bytes inside a frame that does not overfill it adds their
      sum to the current slot's first character and counts them. */
  lemma {:induction false} DataRun(s: RxState, f: seq<Byte>)
    requires WellFormed(s) && s.frameBegin && s.bytesReceived + |f| <= FrameLength
    ensures Run(s, f) == AfterData(s, f)
    decreases |f|
  {
    if f == [] {
      assert s.heads[s.index := s.heads[s.index] % 256] == s.heads;
    } else {
      var f', c := f[..|f| - 1], f[|f| - 1];
      DataRun(s, f');
      assert f == f' + [c];
      DataStep(s, f', c);
    }
  }

  /** One more data byte after a run of data bytes. */
  lemma DataStep(s: RxState, f: seq<Byte>, c: Byte)
    requires WellFormed(s) && s.frameBegin && s.bytesReceived + |f| < FrameLength
    ensures Step(AfterData(s, f), c) == AfterData(s, f + [c])
  {
    assert (f + [c])[..|f|] == f;
    assert Sum(f + [c]) == Sum(f) + c;
    DataByteInsideFrame(AfterData(s, f), c);
    SumStep(s.heads, s.index, Sum(f), c);
  }

  /** Adding one more byte to a slot that already holds a partial sum. */
  lemma SumStep(h: seq<Byte>, i: nat, partial: nat, c: Byte)
    requires i < |h|
    ensures var before := (h[i] + partial) % 256;
            h[i := before][i := (before + c) % 256] == h[i := (h[i] + (partial + c)) % 256]
  {
    AddMod(h[i], partial, c);
  }

  /** A whole frame received in one call, start byte, FrameLength data bytes
      and end byte, advances the index and adds the data bytes' sum to the old
      slot's first character. */
  lemma FrameCommits(heads: seq<Byte>, index: nat, f: seq<Byte>)
    requires |heads| == MaxFramesStored && index < MaxFramesStored - 1 && |f| == FrameLength
    ensures Receive(heads, index, [StartByte] + f + [EndByte]) ==
            RxState(false, FrameLength, NextIndex(index), heads[index := (heads[index] + Sum(f)) % 256])
  {
    var s := Fresh(heads, index);
    assert Run(s, [StartByte]) == s.(frameBegin := true) by {
      assert [StartByte][..0] == [];
    }
    RunAppend(s, [StartByte], f);
    DataRun(s.(frameBegin := true), f);
    RunAppend(s, [StartByte] + f, [EndByte]);
    assert [EndByte][..0] == [];
  }

  /** A frame split across two calls is never committed: the first call ends
      inside the frame and the second call's end byte arrives with the call's
      flags cleared. */
  lemma SplitFrameNotCommitted(heads: seq<Byte>, heads2: seq<Byte>, index: nat, f: seq<Byte>)
    requires |heads| == MaxFramesStored && |heads2| == MaxFramesStored
    requires index < MaxFramesStored - 1 && |f| == FrameLength
    ensures Receive(heads, index, [StartByte] + f).index == index
    ensures Receive(heads2, index, [EndByte]) == Fresh(heads2, index)
  {
    var s := Fresh(heads, index);
    assert Run(s, [StartByte]) == s.(frameBegin := true) by {
      assert [StartByte][..0] == [];
    }
    RunAppend(s, [StartByte], f);
    DataRun(s.(frameBegin := true), f);
    PreambleChangesNothing(heads2, index, [EndByte]);
  }

  /** After the first committed frame the counter stays full for the rest of
      the call: no later byte is stored as data. */
  lemma {:induction false} SaturatedAfterCommit(s: RxState, input: seq<Byte>)
    requires WellFormed(s) && s.bytesReceived == FrameLength
    ensures Run(s, input).bytesReceived == FrameLength
    ensures Run(s, input).heads == s.heads
    decreases |input|
  {
    if input != [] {
      SaturatedAfterCommit(s, input[..|input| - 1]);
    }
  }

  /** ... and each later start/end pair advances the index with no data. */
  lemma EmptyPairAdvancesAfterCommit(s: RxState)
    requires WellFormed(s) && !s.frameBegin && s.bytesReceived == FrameLength
    ensures Run(s, [StartByte, EndByte]) == s.(index := NextIndex(s.index))
  {
    assert [StartByte, EndByte][..1] == [StartByte];
    assert [StartByte][..0] == [];
    assert Run(s, [StartByte]) == s.(frameBegin := true);
  }

  /** The example frame of the protocol header is committed when received in one call. */
  lemma ExampleFrameCommits(heads: seq<Byte>, index: nat)
    requires |heads| == MaxFramesStored && index < MaxFramesStored - 1
    ensures forall n :: 0 <= n < |ExampleFrame| ==> ExampleFrame[n] as int < 256
    ensures Receive(heads, index, ToBytes(ExampleFrame)).index == NextIndex(index)
  {
    ExampleFrameShape();
    var b := ToBytes(ExampleFrame);
    var f := b[1..|b| - 1];
    assert b == [StartByte] + f + [EndByte];
    FrameCommits(heads, index, f);
  }

  // ---------------------------------------------------------------------
  // The class: the global frame store and index, and the handler
  // ---------------------------------------------------------------------

  class FrameStore {
    /** `frames[ATMEGA_MAX_FRAMES_STORED][ATMEGA_FRAME_LENGTH + 1]` */
    var frames: array2<Byte>
    /** `current_frame_index` */
    var currentFrameIndex: nat

    ghost predicate Valid()
      reads this
    {
      frames.Length0 == MaxFramesStored && frames.Length1 == FrameLength + 1 &&
      currentFrameIndex < MaxFramesStored - 1
    }

    /** The first character of every slot. */
    ghost function Heads(): (h: seq<Byte>)
      reads this, frames
      requires Valid()
      ensures |h| == MaxFramesStored
      ensures forall k :: 0 <= k < MaxFramesStored ==> h[k] == frames[k, 0]
    {
      var f := frames;
      seq(MaxFramesStored, k requires 0 <= k < f.Length0 && 0 < f.Length1 reads f => f[k, 0])
    }

    /** The zero-initialised globals: every slot empty, index 0. */
    constructor ()
      ensures Valid() && fresh(frames)
      ensures currentFrameIndex == 0
      ensures forall k, j :: 0 <= k < frames.Length0 && 0 <= j < frames.Length1 ==> frames[k, j] == 0
    {
      frames := new Byte[MaxFramesStored, FrameLength + 1]((k, j) => 0);
      currentFrameIndex := 0;
    }

    /** `atmega_receive_data`: consume the bytes readable during one call. */
    method ReceiveData(input: seq<Byte>)
      requires Valid()
      modifies this, frames
      ensures Valid() && frames == old(frames)
      ensures var r := Receive(old(Heads()), old(currentFrameIndex), input);
              currentFrameIndex == r.index && Heads() == r.heads
      ensures forall k, j :: 0 <= k < MaxFramesStored && 1 <= j <= FrameLength ==> frames[k, j] == old(frames[k, j])
    {
      ghost var start := Fresh(Heads(), currentFrameIndex);
      var frameBegin := false;
      var bytesReceived := 0;
      var n := 0;
      while n < |input|
        invariant 0 <= n <= |input|
        invariant Valid() && frames == old(frames)
        invariant Run(start, input[..n]) == RxState(frameBegin, bytesReceived, currentFrameIndex, Heads())
        invariant forall k, j :: 0 <= k < MaxFramesStored && 1 <= j <= FrameLength ==> frames[k, j] == old(frames[k, j])
      {
        var ch := input[n];
        ghost var before := RxState(frameBegin, bytesReceived, currentFrameIndex, Heads());
        if ch == StartByte && !frameBegin {
          frameBegin := true;
        } else if ch == EndByte && frameBegin && bytesReceived == FrameLength {
          currentFrameIndex := currentFrameIndex + 1;
          if currentFrameIndex == MaxFramesStored - 1 {
            currentFrameIndex := 0;
          }
          frameBegin := false;
        } else if frameBegin && bytesReceived < FrameLength {
          frames[currentFrameIndex, 0] := (frames[currentFrameIndex, 0] + ch) % 256;
          bytesReceived := bytesReceived + 1;
        }
        assert Heads() == Step(before, ch).heads;
        assert input[..n + 1][..n] == input[..n];
        n := n + 1;
      }
      assert input[..n] == input;
    }
  }
}
