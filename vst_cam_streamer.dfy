/** The bounded per-channel frame queues of the VST camera streamers
    (VarjoVSTFrame/VarjoVSTCamStreamer.cpp and its duplicate
    VarjoVSTFrame/VSTCamStreamer.cpp), and the dummy streamer that replays
    recorded frames.

    A `std::queue` is a `seq` whose front is index 0. The mutexes are left
    out: every method runs as one atomic step. */
module VstCamStreamer {
  import opened Common
  import opened Frames
  import Nv12

  /** The default `buffer_capacity` of the streamer constructors. */
  const DefaultCapacity: nat := 20

  /** How many front elements the trimming loop of `onFrameReceived` removes
      from a queue holding `size` elements. The loop compares its counter with
      `size() - capacity` evaluated afresh after every pop, so it stops half
      way: it removes the excess rounded up to half. */
  function PopCount(size: nat, capacity: nat): (k: nat)
    ensures k <= size
    ensures size <= capacity ==> k == 0
    ensures size > capacity ==> k >= 1
  {
    if size > capacity then (size - capacity + 1) / 2 else 0
  }

  /** The queue after pushing `x` onto `q` and trimming as written. */
  function Admit<T>(q: seq<T>, x: T, capacity: nat): (r: seq<T>)
    ensures |r| <= |q| + 1 && r == (q + [x])[|q| + 1 - |r|..]
  {
    (q + [x])[PopCount(|q| + 1, capacity)..]
  }

  /** The trimming loop removes exactly the excess when the excess is at most
      one, and leaves some of it in place otherwise. */
  lemma PopCountRestoresOnlySingleExcess(size: nat, capacity: nat)
    requires size > capacity
    ensures size - PopCount(size, capacity) <= capacity <==> size == capacity + 1
  {
  }

  /** From a queue within capacity, a push keeps it within capacity and holds
      the most recent `capacity` frames in arrival order; the newest frame
      survives whenever the capacity is positive. */
  lemma AdmitWithinCapacity<T>(q: seq<T>, x: T, capacity: nat)
    requires |q| <= capacity
    ensures Admit(q, x, capacity) == Latest(q + [x], capacity)
    ensures |Admit(q, x, capacity)| == if |q| < capacity then |q| + 1 else capacity
    ensures capacity > 0 ==> Admit(q, x, capacity)[|Admit(q, x, capacity)| - 1] == x
  {
    var s := q + [x];
    if |q| < capacity {
      assert PopCount(|s|, capacity) == 0;
      assert Admit(q, x, capacity) == s;
    } else {
      assert PopCount(|s|, capacity) == 1;
      assert Admit(q, x, capacity) == s[1..];
      assert Latest(s, capacity) == s[1..];
    }
  }

  /** The trimming loop over a data queue and its metadata queue, popping both
      in lockstep while the counter is below the re-evaluated excess. */
  method TrimAsWritten<D, M>(data: seq<D>, meta: seq<M>, capacity: nat) returns (data': seq<D>, meta': seq<M>)
    requires |data| == |meta|
    ensures data' == data[PopCount(|data|, capacity)..]
    ensures meta' == meta[PopCount(|data|, capacity)..]
  {
    data', meta' := data, meta;
    if |data'| > capacity {
      var i := 0;
      while i < |data'| - capacity
        invariant 0 <= i <= |data| && 2 * i <= |data| - capacity + 1
        invariant data' == data[i..] && meta' == meta[i..]
      {
        data', meta' := data'[1..], meta'[1..];
        i := i + 1;
      }
    }
  }

  /** One channel's part of the callback: push the frame's data and
      metadata, then trim both queues as written. */
  method Receive<D, M>(data: seq<D>, meta: seq<M>, x: D, m: M, capacity: nat) returns (data': seq<D>, meta': seq<M>)
    requires |data| == |meta|
    ensures data' == Admit(data, x, capacity) && meta' == Admit(meta, m, capacity)
    ensures |data'| == |meta'|
    ensures |data| <= capacity ==> |data'| <= capacity
  {
    var k := PopCount(|data| + 1, capacity);
    data', meta' := TrimAsWritten(data + [x], meta + [m], capacity);
    assert data' == (data + [x])[k..] && meta' == (meta + [m])[k..];
    assert |data'| == |data| + 1 - k == |meta'|;
    if |data| <= capacity {
      assert k <= 1;
    }
  }

  /** `VarjoVSTCamStreamer` (and the identical `VSTCamStreamer`). */
  class CamStreamer {
    const flags: ChannelFlags
    const capacity: nat
    var leftData: seq<seq<byte>>
    var leftMeta: seq<Metadata>
    var rightData: seq<seq<byte>>
    var rightMeta: seq<Metadata>

    /** Data and metadata queues of each channel have equal length. */
    predicate Valid()
      reads this
    {
      |leftData| == |leftMeta| && |rightData| == |rightMeta|
    }

    predicate Bounded()
      reads this
    {
      |leftData| <= capacity && |rightData| <= capacity
    }

    constructor(flags: ChannelFlags, capacity: nat)
      ensures this.flags == flags && this.capacity == capacity
      ensures leftData == [] && leftMeta == [] && rightData == [] && rightMeta == []
      ensures Valid() && Bounded()
    {
      this.flags := flags;
      this.capacity := capacity;
      leftData, leftMeta, rightData, rightMeta := [], [], [], [];
    }

    /** The data-stream callback: a Left frame goes to the left queues, a frame
        of any other channel to the right queues; the queue then drops its
        oldest entries by the trimming loop. The queues stay in lockstep, stay
        within capacity when they were, and the other channel is untouched. */
    method OnFrameReceived(frame: Frame)
      requires Valid()
      modifies this
      ensures Valid()
      ensures old(Bounded()) ==> Bounded()
      ensures frame.metadata.channelIndex == LeftChannel ==>
        && leftData == Admit(old(leftData), frame.data, capacity)
        && leftMeta == Admit(old(leftMeta), frame.metadata, capacity)
        && rightData == old(rightData) && rightMeta == old(rightMeta)
      ensures frame.metadata.channelIndex != LeftChannel ==>
        && rightData == Admit(old(rightData), frame.data, capacity)
        && rightMeta == Admit(old(rightMeta), frame.metadata, capacity)
        && leftData == old(leftData) && leftMeta == old(leftMeta)
    {
      if frame.metadata.channelIndex == LeftChannel {
        leftData, leftMeta := Receive(leftData, leftMeta, frame.data, frame.metadata, capacity);
      } else {
        rightData, rightMeta := Receive(rightData, rightMeta, frame.data, frame.metadata, capacity);
      }
    }

    /** `take_lframe_que`: hands over both left queues and leaves them empty. */
    method TakeLeft() returns (data: seq<seq<byte>>, meta: seq<Metadata>)
      requires Valid()
      modifies this
      ensures data == old(leftData) && meta == old(leftMeta) && |data| == |meta|
      ensures leftData == [] && leftMeta == []
      ensures rightData == old(rightData) && rightMeta == old(rightMeta)
      ensures Valid() && (old(Bounded()) ==> Bounded())
    {
      data, meta := leftData, leftMeta;
      leftData, leftMeta := [], [];
    }

    /** `take_rframe_que`: hands over both right queues and leaves them empty. */
    method TakeRight() returns (data: seq<seq<byte>>, meta: seq<Metadata>)
      requires Valid()
      modifies this
      ensures data == old(rightData) && meta == old(rightMeta) && |data| == |meta|
      ensures rightData == [] && rightMeta == []
      ensures leftData == old(leftData) && leftMeta == old(leftMeta)
      ensures Valid() && (old(Bounded()) ==> Bounded())
    {
      data, meta := rightData, rightMeta;
      rightData, rightMeta := [], [];
    }
  }

  /** The fields of `varjo_StreamConfig` the dummy streamer fills in. */
  datatype StreamConfig = StreamConfig(
    streamId: int, flags: ChannelFlags, bufferType: string, format: string,
    frameRate: int, width: nat, height: nat, rowStride: nat)

  /** The number of recorded frames the dummy streamer loads per enabled channel. */
  const RecordingCount: nat := 180

  /** `VarjoVSTDummyCamStreamer::getConfig`: a fixed 832 x 640 NV12 CPU stream
      with a 896-byte row stride at the configured frame rate. */
  function DummyConfig(flags: ChannelFlags, fps: int): (c: StreamConfig)
    ensures c.flags == flags && c.frameRate == fps && c.streamId == 1
    ensures c.format == "NV12" && c.bufferType == "CPU"
    ensures c.width <= c.rowStride && c.height % 2 == 0
  {
    StreamConfig(1, flags, "CPU", "NV12", fps, 832, 640, 896)
  }

  /** The dummy stream describes frames `remove_padding` accepts: the row
      stride covers the width, and a raw frame of the described geometry
      packs into 832 * 640 * 3 / 2 bytes. */
  lemma DummyConfigIsPackable(flags: ChannelFlags, fps: int)
    ensures var c := DummyConfig(flags, fps);
      && Nv12.RawSize(c.rowStride, c.height) == 896 * 960
      && Nv12.TightSize(c.width, c.height) == 832 * 960
      && Nv12.FilledSize(c.width, c.height) == Nv12.TightSize(c.width, c.height)
  {
    Nv12.MulIsProduct(640, 896);
    Nv12.MulIsProduct(320, 896);
    Nv12.MulIsProduct(640, 832);
    Nv12.MulIsProduct(320, 832);
  }

  /** The replay index after one worker iteration, as written:
      `(rec_idx + 1) % loaded_lframedata_.size()`. The divisor is the number of
      LEFT recordings whatever channels are enabled; `None` is the division by
      zero when no left recording is loaded. */
  function NextIndexAsWritten(recIdx: nat, leftLoaded: nat): (r: Option<nat>)
    ensures r.Some? <==> leftLoaded > 0
    ensures r.Some? ==> r.value < leftLoaded
  {
    if leftLoaded == 0 then None else Some((recIdx + 1) % leftLoaded)
  }

  /** Number of recordings the dummy constructor loads for one channel. */
  function LoadedCount(enabled: bool): (n: nat)
    ensures n == 0 <==> !enabled
  {
    if enabled then RecordingCount else 0
  }

  /** A right-only dummy streamer loads no left recording, so its first worker
      iteration divides by zero. */
  lemma RightOnlyReplayDividesByZero()
    ensures var flags := ChannelFlags(false, true);
      NextIndexAsWritten(0, LoadedCount(flags.left)) == None
  {
  }

  /** The replay index cycles through the recordings of whichever channel is
      loaded; both channels hold `RecordingCount` recordings when enabled. */
  function NextIndex(recIdx: nat): (r: nat)
    ensures r < RecordingCount
    ensures recIdx + 1 < RecordingCount ==> r == recIdx + 1
    ensures recIdx + 1 == RecordingCount ==> r == 0
  {
    (recIdx + 1) % RecordingCount
  }

  /** With left recordings loaded the corrected index is the written one. */
  lemma NextIndexAgreesWhenLeftLoaded(recIdx: nat)
    ensures NextIndexAsWritten(recIdx, LoadedCount(true)) == Some(NextIndex(recIdx))
  {
  }

  /** `VarjoVSTDummyCamStreamer`: replays recorded frames into unbounded
      queues at the configured frame rate. */
  class DummyCamStreamer {
    const flags: ChannelFlags
    const capacity: nat
    const fps: int
    const loadedLeftData: seq<seq<byte>>
    const loadedLeftMeta: seq<Metadata>
    const loadedRightData: seq<seq<byte>>
    const loadedRightMeta: seq<Metadata>
    var leftData: seq<seq<byte>>
    var leftMeta: seq<Metadata>
    var rightData: seq<seq<byte>>
    var rightMeta: seq<Metadata>
    /** The worker's `rec_idx`. */
    var recIdx: nat
    var stopWorker: bool
    /** `onFrame_thread_` is joinable: started and not yet joined. */
    var workerRunning: bool

    /** The worker runs exactly while the stop signal is down. */
    predicate Valid()
      reads this
    {
      && workerRunning == !stopWorker
      && |leftData| == |leftMeta| && |rightData| == |rightMeta|
      && |loadedLeftData| == |loadedLeftMeta| == LoadedCount(flags.left)
      && |loadedRightData| == |loadedRightMeta| == LoadedCount(flags.right)
      && recIdx < RecordingCount
    }

    /** The constructor loads `RecordingCount` recorded frames for each enabled
        channel; the file contents are the parameters `recorded*`. */
    constructor(flags: ChannelFlags, capacity: nat, fps: int,
                recordedLeftData: seq<seq<byte>>, recordedLeftMeta: seq<Metadata>,
                recordedRightData: seq<seq<byte>>, recordedRightMeta: seq<Metadata>)
      requires |recordedLeftData| == |recordedLeftMeta| == RecordingCount
      requires |recordedRightData| == |recordedRightMeta| == RecordingCount
      ensures this.flags == flags && this.capacity == capacity && this.fps == fps
      ensures loadedLeftData == (if flags.left then recordedLeftData else [])
      ensures loadedLeftMeta == (if flags.left then recordedLeftMeta else [])
      ensures loadedRightData == (if flags.right then recordedRightData else [])
      ensures loadedRightMeta == (if flags.right then recordedRightMeta else [])
      ensures leftData == [] && leftMeta == [] && rightData == [] && rightMeta == []
      ensures !workerRunning && Valid()
    {
      this.flags := flags;
      this.capacity := capacity;
      this.fps := fps;
      loadedLeftData := if flags.left then recordedLeftData else [];
      loadedLeftMeta := if flags.left then recordedLeftMeta else [];
      loadedRightData := if flags.right then recordedRightData else [];
      loadedRightMeta := if flags.right then recordedRightMeta else [];
      leftData, leftMeta, rightData, rightMeta := [], [], [], [];
      recIdx := 0;
      stopWorker := true;
      workerRunning := false;
    }

    /** `startStream`: clears the stop signal and starts the worker, which
        begins at index 0. */
    method StartStream()
      requires Valid() && !workerRunning
      modifies this
      ensures !stopWorker && workerRunning && recIdx == 0 && Valid()
      ensures leftData == old(leftData) && leftMeta == old(leftMeta)
      ensures rightData == old(rightData) && rightMeta == old(rightMeta)
    {
      stopWorker := false;
      workerRunning := true;
      recIdx := 0;
    }

    /** `stopStream`: raises the stop signal and joins the worker. `join` is
        called unconditionally, so on a streamer that was never started, or
        was stopped already, it throws `system_error` after the signal is
        raised. The queues are unchanged either way. */
    method StopStream() returns (outcome: Outcome)
      requires Valid()
      modifies this
      ensures stopWorker && !workerRunning && Valid()
      ensures outcome.Threw? <==> !old(workerRunning)
      ensures outcome.Threw? ==> outcome.error.SystemError?
      ensures recIdx == old(recIdx)
      ensures leftData == old(leftData) && leftMeta == old(leftMeta)
      ensures rightData == old(rightData) && rightMeta == old(rightMeta)
    {
      stopWorker := true;
      if !workerRunning {
        return Threw(SystemError("thread::join: invalid argument"));
      }
      workerRunning := false;
      return Done;
    }

    /** One iteration of `onFrameReceivedworker`: each enabled channel receives
        the current recording with no capacity check, then the index advances
        cyclically (by `NextIndex`; see `NextIndexAsWritten` for the divisor
        the code uses). */
    method WorkerStep()
      requires Valid() && !stopWorker
      modifies this
      ensures Valid() && !stopWorker
      ensures leftData == old(leftData) + (if flags.left then [loadedLeftData[old(recIdx)]] else [])
      ensures leftMeta == old(leftMeta) + (if flags.left then [loadedLeftMeta[old(recIdx)]] else [])
      ensures rightData == old(rightData) + (if flags.right then [loadedRightData[old(recIdx)]] else [])
      ensures rightMeta == old(rightMeta) + (if flags.right then [loadedRightMeta[old(recIdx)]] else [])
      ensures recIdx == NextIndex(old(recIdx))
    {
      if flags.left {
        leftData := leftData + [loadedLeftData[recIdx]];
        leftMeta := leftMeta + [loadedLeftMeta[recIdx]];
      }
      if flags.right {
        rightData := rightData + [loadedRightData[recIdx]];
        rightMeta := rightMeta + [loadedRightMeta[recIdx]];
      }
      recIdx := NextIndex(recIdx);
    }

    method TakeLeft() returns (data: seq<seq<byte>>, meta: seq<Metadata>)
      requires Valid()
      modifies this
      ensures data == old(leftData) && meta == old(leftMeta) && |data| == |meta|
      ensures leftData == [] && leftMeta == []
      ensures rightData == old(rightData) && rightMeta == old(rightMeta)
      ensures recIdx == old(recIdx) && stopWorker == old(stopWorker) && Valid()
    {
      data, meta := leftData, leftMeta;
      leftData, leftMeta := [], [];
    }

    method TakeRight() returns (data: seq<seq<byte>>, meta: seq<Metadata>)
      requires Valid()
      modifies this
      ensures data == old(rightData) && meta == old(rightMeta) && |data| == |meta|
      ensures rightData == [] && rightMeta == []
      ensures leftData == old(leftData) && leftMeta == old(leftMeta)
      ensures recIdx == old(recIdx) && stopWorker == old(stopWorker) && Valid()
    {
      data, meta := rightData, rightMeta;
      rightData, rightMeta := [], [];
    }
  }
}
