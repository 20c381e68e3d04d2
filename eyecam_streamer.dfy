/** The bounded per-channel frame deques of the eye-camera streamer
    (VarjoEyeCam/EyeCamDataStreamer.cpp). Unlike the VST streamer it computes
    the excess once before trimming, and it rejects a channel index that is
    neither Left nor Right. A `std::deque` is a `seq` whose front is index 0. */
module EyeCamStreamer {
  import opened Common
  import opened Frames

  /** `que_size > capacity ? que_size - capacity : 0`. */
  function Excess(size: nat, capacity: nat): (e: nat)
    ensures e <= size
    ensures size - e <= capacity
    ensures size <= capacity <==> e == 0
  {
    if size > capacity then size - capacity else 0
  }

  /** Pops exactly `count` front elements of both deques. */
  method PopFront<D, M>(data: seq<D>, meta: seq<M>, count: nat) returns (data': seq<D>, meta': seq<M>)
    requires |data| == |meta| && count <= |data|
    ensures data' == data[count..] && meta' == meta[count..]
  {
    data', meta' := data, meta;
    var i := 0;
    while i < count
      invariant 0 <= i <= count
      invariant data' == data[i..] && meta' == meta[i..]
    {
      data', meta' := data'[1..], meta'[1..];
      i := i + 1;
    }
  }

  /** Whatever the deque held before, a push followed by the precomputed trim
      leaves the most recent `capacity` frames, in arrival order. */
  lemma TrimKeepsLatest<T>(q: seq<T>, x: T, capacity: nat)
    ensures (q + [x])[Excess(|q| + 1, capacity)..] == Latest(q + [x], capacity)
    ensures |Latest(q + [x], capacity)| == if |q| + 1 <= capacity then |q| + 1 else capacity
  {
  }

  class EyeCamStreamer {
    const flags: ChannelFlags
    const capacity: nat
    var leftData: seq<seq<byte>>
    var leftMeta: seq<Metadata>
    var rightData: seq<seq<byte>>
    var rightMeta: seq<Metadata>

    predicate Valid()
      reads this
    {
      |leftData| == |leftMeta| && |rightData| == |rightMeta|
    }

    predicate Bounded()
      reads this
    {
      |leftData| <= capacity && |rightData| <= capacity
    }

    constructor(flags: ChannelFlags, capacity: nat)
      ensures this.flags == flags && this.capacity == capacity
      ensures leftData == [] && leftMeta == [] && rightData == [] && rightMeta == []
      ensures Valid() && Bounded()
    {
      this.flags := flags;
      this.capacity := capacity;
      leftData, leftMeta, rightData, rightMeta := [], [], [], [];
    }

    /** The data-stream callback. Left and Right frames are pushed at the back
        of their channel and the excess over the capacity is dropped from the
        front, so that channel holds the latest `capacity` frames; any other
        channel index throws `runtime_error` and changes nothing. */
    method OnFrameReceived(frame: Frame) returns (outcome: Outcome)
      requires Valid()
      modifies this
      ensures Valid()
      ensures old(Bounded()) ==> Bounded()
      ensures outcome.Threw? <==> frame.metadata.channelIndex != LeftChannel && frame.metadata.channelIndex != RightChannel
      ensures outcome.Threw? ==> outcome.error.RuntimeError?
      ensures frame.metadata.channelIndex == LeftChannel ==>
        && leftData == Latest(old(leftData) + [frame.data], capacity)
        && leftMeta == Latest(old(leftMeta) + [frame.metadata], capacity)
        && rightData == old(rightData) && rightMeta == old(rightMeta)
      ensures frame.metadata.channelIndex == RightChannel ==>
        && rightData == Latest(old(rightData) + [frame.data], capacity)
        && rightMeta == Latest(old(rightMeta) + [frame.metadata], capacity)
        && leftData == old(leftData) && leftMeta == old(leftMeta)
      ensures outcome.Threw? ==>
        && leftData == old(leftData) && leftMeta == old(leftMeta)
        && rightData == old(rightData) && rightMeta == old(rightMeta)
    {
      if frame.metadata.channelIndex == LeftChannel {
        var data, meta := leftData + [frame.data], leftMeta + [frame.metadata];
        var excess := Excess(|data|, capacity);
        TrimKeepsLatest(leftData, frame.data, capacity);
        TrimKeepsLatest(leftMeta, frame.metadata, capacity);
        leftData, leftMeta := PopFront(data, meta, excess);
        outcome := Done;
      } else if frame.metadata.channelIndex == RightChannel {
        var data, meta := rightData + [frame.data], rightMeta + [frame.metadata];
        var excess := Excess(|data|, capacity);
        TrimKeepsLatest(rightData, frame.data, capacity);
        TrimKeepsLatest(rightMeta, frame.metadata, capacity);
        rightData, rightMeta := PopFront(data, meta, excess);
        outcome := Done;
      } else {
        outcome := Threw(RuntimeError("Unkown channel index"));
      }
    }

    /** `take_lframe_que`: hands over both left deques and leaves them empty. */
    method TakeLeft() returns (data: seq<seq<byte>>, meta: seq<Metadata>)
      requires Valid()
      modifies this
      ensures data == old(leftData) && meta == old(leftMeta) && |data| == |meta|
      ensures leftData == [] && leftMeta == []
      ensures rightData == old(rightData) && rightMeta == old(rightMeta)
      ensures Valid() && (old(Bounded()) ==> Bounded())
    {
      data, meta := leftData, leftMeta;
      leftData, leftMeta := [], [];
    }

    /** `take_rframe_que`: hands over both right deques and leaves them empty. */
    method TakeRight() returns (data: seq<seq<byte>>, meta: seq<Metadata>)
      requires Valid()
      modifies this
      ensures data == old(rightData) && meta == old(rightMeta) && |data| == |meta|
      ensures rightData == [] && rightMeta == []
      ensures leftData == old(leftData) && leftMeta == old(leftMeta)
      ensures Valid() && (old(Bounded()) ==> Bounded())
    {
      data, meta := rightData, rightMeta;
      rightData, rightMeta := [], [];
    }
  }
}
