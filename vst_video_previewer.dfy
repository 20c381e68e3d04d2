/** The VST video previewers (VarjoVSTFrame/VarjoVSTVideoPreviewer.cpp): an
    ffplay process fed raw NV12 frames through a pipe, synchronously (Serial)
    or from a submit queue drained by a worker thread (Parallel), plus the
    options builder and the factory.

    The constructors follow the .cpp file, which takes a padding option that
    the header's declaration lacks. As for the writers, every `fwrite` appends
    one block to `written`, and the worker thread is modelled by explicit
    steps: `TakeBatch` swaps the queue out under the lock and `ShowBatch`
    shows that batch with the lock released (see BatchWorker). */
module VstVideoPreviewer {
  import opened Common
  import opened Text
  import opened Pipes
  import opened BatchWorker
  import Nv12

  /** `InputFramedataPaddingOption`. Its declaration is not part of this
      model: `WithPadding` is the enumerator the code tests, `NoPadding`
      stands for every other value. */
  datatype PaddingOption = WithPadding | NoPadding

  /** `VideoPreviewerType`, plus any other value of the underlying integer. */
  datatype PreviewerType = Serial | Parallel | PreviewerTypeCode(code: int)

  /** `VarjoVSTVideoPreviewerOptions`. */
  datatype Options = Options(
    width: nat, height: nat, rowStride: nat, pad: PaddingOption, previewerType: PreviewerType)

  /** The constructor arguments of a previewer. */
  datatype Geometry = Geometry(width: nat, height: nat, rowStride: nat, pad: PaddingOption)

  /** The ffplay words before the frame size. */
  function InputWords(): seq<string>
  {
    ["ffplay", "-hide_banner", "-loglevel", "error", "-f", "rawvideo", "-pixel_format", "nv12", "-video_size"]
  }

  /** The ffplay words after the frame size: a fixed 90 fps, wall-clock
      timestamps, no buffering, frames dropped when late. */
  function PlaybackWords(): seq<string>
  {
    ["-framerate", "90", "-use_wallclock_as_timestamps", "1", "-i", "-", "-sync", "ext",
     "-fflags", "nobuffer", "-flags", "low_delay", "-noinfbuf", "-framedrop", "-an", "-autoexit"]
  }

  /** The words of `get_ffmpegCmd`: only the frame size varies. */
  function FfplayArgs(width: nat, height: nat): (args: seq<string>)
    ensures |args| == 26
    ensures args[0] == "ffplay" && args[8] == "-video_size" && args[9] == SizeWord(width, height)
    ensures args[10] == "-framerate" && args[11] == "90"
  {
    InputWords() + [SizeWord(width, height)] + PlaybackWords()
  }

  /** `get_ffmpegCmd`: the words separated by single spaces. The command
      runs ffplay and ends with `-autoexit`, so the player quits when the
      pipe is closed. */
  function FfplayCmd(width: nat, height: nat): (cmd: string)
    ensures |cmd| >= 7 && cmd[..7] == "ffplay "
    ensures |cmd| >= 9 && cmd[|cmd| - 9..] == "-autoexit"
  {
    var args := FfplayArgs(width, height);
    JoinAsTerminated(args, " ");
    Join(args, " ")
  }

  lemma FixedWordsFreeOfSpace()
    ensures FreeOf(InputWords(), ' ') && FreeOf(PlaybackWords(), ' ')
  {
  }

  /** Splitting the command line at its spaces gives back exactly the words. */
  lemma FfplayCmdSplits(width: nat, height: nat)
    ensures SplitOn(FfplayCmd(width, height), ' ') == FfplayArgs(width, height)
  {
    FixedWordsFreeOfSpace();
    SizeWordFree(width, height, ' ');
    FreeOfConcat(InputWords(), [SizeWord(width, height)], ' ');
    FreeOfConcat(InputWords() + [SizeWord(width, height)], PlaybackWords(), ' ');
    SplitJoin(FfplayArgs(width, height), ' ');
  }

  /** The command determines the frame size and nothing else varies: the row
      stride and the padding option never reach ffplay. */
  lemma FfplayCmdInjective(w1: nat, h1: nat, w2: nat, h2: nat)
    requires FfplayCmd(w1, h1) == FfplayCmd(w2, h2)
    ensures w1 == w2 && h1 == h2
  {
    FfplayCmdSplits(w1, h1);
    FfplayCmdSplits(w2, h2);
    assert FfplayArgs(w1, h1)[9] == FfplayArgs(w2, h2)[9];
    SizeWordInjective(w1, h1, w2, h2);
  }

  /** A frame the previewer can show: with padding it must hold the padded
      planes `remove_padding` reads. */
  predicate Showable(g: Geometry, raw: seq<byte>)
  {
    g.pad == WithPadding ==> g.width <= g.rowStride && Nv12.RawSize(g.rowStride, g.height) <= |raw|
  }

  /** What the previewer sends for a frame: the frame without padding, or the
      frame itself when it is declared tight. */
  function Shown(g: Geometry, raw: seq<byte>): (r: seq<byte>)
    requires Showable(g, raw)
    ensures g.pad == WithPadding ==> |r| == Nv12.TightSize(g.width, g.height)
    ensures g.pad == NoPadding ==> r == raw
  {
    if g.pad == WithPadding then Nv12.Normalized(raw, g.width, g.height, g.rowStride) else raw
  }

  function ShownAll(g: Geometry, frames: seq<seq<byte>>): (r: seq<seq<byte>>)
    requires forall i :: 0 <= i < |frames| ==> Showable(g, frames[i])
    ensures |r| == |frames|
    ensures forall i :: 0 <= i < |frames| ==> r[i] == Shown(g, frames[i])
    ensures g.pad == NoPadding ==> r == frames
  {
    if |frames| == 0 then []
    else
      var prefix := frames[..|frames| - 1];
      assert forall i :: 0 <= i < |prefix| ==> prefix[i] == frames[i];
      ShownAll(g, prefix) + [Shown(g, frames[|frames| - 1])]
  }

  /** The worker's conversion of one taken frame into its own tight buffer:
      the returning `remove_padding` with padding, the frame itself otherwise. */
  method ShowFrame(g: Geometry, raw: seq<byte>) returns (shown: seq<byte>)
    requires Showable(g, raw)
    ensures shown == Shown(g, raw)
  {
    if g.pad == WithPadding {
      shown := Nv12.RemovePadding(raw, g.width, g.height, g.rowStride);
    } else {
      shown := raw;
    }
  }

  /** The blocks the worker writes for the frames it took, in order. */
  method ShowFrames(g: Geometry, frames: seq<seq<byte>>) returns (blocks: seq<seq<byte>>)
    requires forall i :: 0 <= i < |frames| ==> Showable(g, frames[i])
    ensures blocks == ShownAll(g, frames)
  {
    blocks := [];
    var i := 0;
    while i < |frames|
      invariant 0 <= i <= |frames|
      invariant blocks == ShownAll(g, frames[..i])
    {
      var shown := ShowFrame(g, frames[i]);
      blocks := blocks + [shown];
      assert frames[..i + 1][..i] == frames[..i];
      i := i + 1;
    }
    assert frames[..i] == frames;
  }

  /** `VarjoVSTSerialVideoPreviewer`: each submitted frame is shown at once. */
  class SerialVideoPreviewer {
    const geometry: Geometry
    var tight: array<byte>
    var pipe: Pipe
    var launched: seq<string>
    var written: seq<seq<byte>>

    predicate Valid()
      reads this, tight
    {
      (geometry.pad == WithPadding ==> Nv12.ZeroTail(tight[..], geometry.width, geometry.height))
      && !ReleasesTwice(pipe)
    }

    /** The tight buffer starts as `width * height * 3 / 2` zero bytes. */
    constructor(geometry: Geometry)
      ensures this.geometry == geometry && pipe == Null && launched == [] && written == []
      ensures tight.Length == geometry.width * geometry.height * 3 / 2
      ensures Valid()
    {
      Nv12.ThreeHalves(geometry.width, geometry.height);
      var buffer := Nv12.NewTightBuffer(geometry.width, geometry.height);
      this.geometry := geometry;
      tight := buffer;
      pipe := Null;
      launched := [];
      written := [];
    }

    /** `open`: launches ffplay; true iff the pipe opened. */
    method Open(popenSucceeds: bool) returns (isOpen: bool)
      requires Valid()
      modifies this
      ensures Valid() && tight == old(tight)
      ensures isOpen == popenSucceeds && pipe == Popen(popenSucceeds)
      ensures launched == old(launched) + [FfplayCmd(geometry.width, geometry.height)]
      ensures written == old(written)
    {
      launched := launched + [FfplayCmd(geometry.width, geometry.height)];
      pipe := Popen(popenSucceeds);
      isOpen := pipe != Null;
    }

    /** `submit_framedata_impl`: with padding the frame is packed into the
        tight buffer; otherwise the buffer is replaced by the frame. Either
        way the whole buffer is written. */
    method Submit(raw: seq<byte>)
      requires Valid() && Live(pipe) && Showable(geometry, raw)
      modifies this, tight
      ensures Valid() && pipe == old(pipe) && launched == old(launched)
      ensures written == old(written) + [Shown(geometry, raw)]
    {
      if geometry.pad == WithPadding {
        Nv12.NormalizeInto(raw, tight, geometry.width, geometry.height, geometry.rowStride);
      } else {
        tight := new byte[|raw|](i requires 0 <= i < |raw| => raw[i]);
        assert tight[..] == raw;
      }
      written := written + [tight[..]];
    }

    /** `close`, corrected to forget the pointer once `_pclose` released it. */
    method Close()
      requires Valid()
      modifies this
      ensures Valid() && pipe == ClosePipe(old(pipe)) && tight == old(tight)
      ensures written == old(written) && launched == old(launched)
    {
      pipe := ClosePipe(pipe);
    }
  }

  /** `VarjoVSTParallelVideoPreviewer`: frames are queued by `Submit` and shown
      by the worker, every one it takes, in submission order. */
  class ParallelVideoPreviewer {
    const geometry: Geometry
    var pipe: Pipe
    var launched: seq<string>
    var written: seq<seq<byte>>
    /** `frameData_submitQue_`, front at index 0. */
    var queue: seq<seq<byte>>
    /** The worker's `frameData_que_toDisplay`: the frames it swapped out and
        has not yet shown. */
    var batch: seq<seq<byte>>
    /** Whether the worker is showing `batch` with the lock released. */
    var writing: bool
    /** `stop_worker_signal_`, initially true. */
    var stop: bool
    var workerRunning: bool

    predicate Valid()
      reads this
    {
      && !ReleasesTwice(pipe)
      && (forall i :: 0 <= i < |queue| ==> Showable(geometry, queue[i]))
      && (forall i :: 0 <= i < |batch| ==> Showable(geometry, batch[i]))
      && (workerRunning ==> Live(pipe) && !stop)
      && (writing ==> workerRunning)
      && (!writing ==> batch == [])
    }

    constructor(geometry: Geometry)
      ensures this.geometry == geometry && pipe == Null && launched == [] && written == []
      ensures queue == [] && batch == [] && !writing && stop && !workerRunning
      ensures Valid()
    {
      this.geometry := geometry;
      pipe := Null;
      launched := [];
      written := [];
      queue := [];
      batch := [];
      writing := false;
      stop := true;
      workerRunning := false;
    }

    /** `open`: the base `open`, then the worker is started only if the pipe opened. */
    method Open(popenSucceeds: bool) returns (isOpen: bool)
      requires Valid() && !workerRunning
      modifies this
      ensures Valid()
      ensures isOpen == popenSucceeds && pipe == Popen(popenSucceeds)
      ensures launched == old(launched) + [FfplayCmd(geometry.width, geometry.height)]
      ensures workerRunning == isOpen && (isOpen ==> !stop) && (!isOpen ==> stop == old(stop))
      ensures written == old(written) && queue == old(queue) && batch == [] && !writing
    {
      launched := launched + [FfplayCmd(geometry.width, geometry.height)];
      pipe := Popen(popenSucceeds);
      if pipe == Null {
        return false;
      }
      stop := false;
      workerRunning := true;
      isOpen := true;
    }

    /** `submit_framedata_impl`: pushes the frame at the back of the queue. */
    method Submit(raw: seq<byte>)
      requires Valid() && Showable(geometry, raw)
      modifies this
      ensures Valid() && queue == old(queue) + [raw]
      ensures written == old(written) && pipe == old(pipe) && launched == old(launched)
      ensures batch == old(batch) && writing == old(writing)
      ensures stop == old(stop) && workerRunning == old(workerRunning)
    {
      queue := queue + [raw];
    }

    /** The display loop of the worker: every taken frame, front to back, is
        converted into the worker's own tight buffer and written. */
    method ShowAll(frames: seq<seq<byte>>)
      requires Valid() && Live(pipe)
      requires forall i :: 0 <= i < |frames| ==> Showable(geometry, frames[i])
      modifies this
      ensures Valid() && written == old(written) + ShownAll(geometry, frames)
      ensures pipe == old(pipe) && launched == old(launched) && queue == old(queue)
      ensures batch == old(batch) && writing == old(writing)
      ensures stop == old(stop) && workerRunning == old(workerRunning)
    {
      var blocks := ShowFrames(geometry, frames);
      written := written + blocks;
    }

    /** The first half of an iteration of `video_preview_worker`: woken
        because the queue is not empty, the worker swaps the whole queue out
        under the lock (the `Take` step of BatchWorker). */
    method TakeBatch()
      requires Valid() && workerRunning && !writing && |queue| > 0
      modifies this
      ensures Valid() && writing && batch == old(queue) && queue == []
      ensures written == old(written) && pipe == old(pipe) && launched == old(launched)
      ensures stop == old(stop) && workerRunning == old(workerRunning)
    {
      batch := queue;
      queue := [];
      writing := true;
    }

    /** The second half: every taken frame is shown in FIFO order, none
        skipped, with the lock released, so frames submitted meanwhile stay
        queued; the stop flag being down, the worker then waits again (the
        `Finish` step of BatchWorker). */
    method ShowBatch()
      requires Valid() && writing
      modifies this
      ensures Valid() && !writing && batch == []
      ensures written == old(written) + ShownAll(geometry, old(batch))
      ensures queue == old(queue) && pipe == old(pipe) && launched == old(launched)
      ensures stop == old(stop) && workerRunning == old(workerRunning)
    {
      var taken := batch;
      ShowAll(taken);
      batch := [];
      writing := false;
    }

    /** `close`: raises the stop flag and joins the worker. A waiting worker
        is woken, swaps out the whole queue and shows it; a worker in the
        middle of a batch finishes it and returns at its loop test, so the
        frames queued meanwhile are never shown (`FlushedAtClose`). The pipe
        is then closed, by the corrected close that forgets the pointer.
        Without a started worker, `join` throws `system_error` before the
        pipe is touched. */
    method Close() returns (outcome: Outcome)
      requires Valid()
      modifies this
      ensures Valid() && stop && !workerRunning && !writing && batch == [] && launched == old(launched)
      ensures outcome.Threw? <==> !old(workerRunning)
      ensures outcome.Threw? ==> outcome.error.SystemError?
      ensures outcome.Threw? ==> pipe == old(pipe) && queue == old(queue) && written == old(written)
      ensures outcome.Done? ==>
        && pipe == ClosePipe(old(pipe))
        && written == old(written) + ShownAll(geometry, FlushedAtClose(old(writing), old(batch), old(queue)))
        && queue == (if old(writing) then old(queue) else [])
    {
      stop := true;
      if !workerRunning {
        return Threw(SystemError("thread::join: invalid argument"));
      }
      var taken: seq<seq<byte>>;
      if writing {
        taken := batch;
      } else {
        taken := queue;
        queue := [];
      }
      assert taken == FlushedAtClose(old(writing), old(batch), old(queue));
      batch, writing, workerRunning := [], false, false;
      ShowAll(taken);
      pipe := ClosePipe(pipe);
      outcome := Done;
    }
  }

  /** `make_VarjoVSTVideoPreviewerOptions`: copies its five arguments. */
  function MakeOptions(width: nat, height: nat, rowStride: nat, pad: PaddingOption, previewerType: PreviewerType): (o: Options)
    ensures o.width == width && o.height == height && o.rowStride == rowStride
    ensures o.pad == pad && o.previewerType == previewerType
  {
    Options(width, height, rowStride, pad, previewerType)
  }

  /** What `factory_VideoPreviewerPtr` constructs. */
  datatype Previewer = SerialPreviewer(geometry: Geometry) | ParallelPreviewer(geometry: Geometry)

  /** `factory_VideoPreviewerPtr`: a Serial or Parallel previewer built from
      the options' geometry; any other type throws `runtime_error`. */
  function Factory(o: Options): (r: Result<Previewer>)
    ensures r.Ok? <==> !o.previewerType.PreviewerTypeCode?
    ensures r.Err? ==> r.error.RuntimeError?
    ensures r.Ok? ==> r.value.geometry == Geometry(o.width, o.height, o.rowStride, o.pad)
    ensures r.Ok? ==> (r.value.SerialPreviewer? <==> o.previewerType == Serial)
  {
    match o.previewerType
    case Serial => Ok(SerialPreviewer(Geometry(o.width, o.height, o.rowStride, o.pad)))
    case Parallel => Ok(ParallelPreviewer(Geometry(o.width, o.height, o.rowStride, o.pad)))
    case PreviewerTypeCode(_) => Err(RuntimeError("Unsupported Video Previewer Type"))
  }

  /** Options built by `MakeOptions` for a declared type yield a previewer of
      that type over exactly the given geometry. */
  lemma FactoryOfMadeOptions(width: nat, height: nat, rowStride: nat, pad: PaddingOption, previewerType: PreviewerType)
    requires !previewerType.PreviewerTypeCode?
    ensures var r := Factory(MakeOptions(width, height, rowStride, pad, previewerType));
      && r.Ok? && r.value.geometry == Geometry(width, height, rowStride, pad)
      && (r.value.ParallelPreviewer? <==> previewerType == Parallel)
  {
  }
}
