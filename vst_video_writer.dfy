/** The VST video writers (VarjoVSTFrame/VarjoVSTVideoWriter.cpp): an ffmpeg
    process fed raw NV12 frames through a pipe, either synchronously (Serial)
    or through a submit queue drained by a worker thread (Parallel).

    The pipe is a `Pipes.Pipe` and everything `fwrite` sends through it is
    appended to `written`, one entry per `fwrite`. The worker thread is
    modelled by explicit steps: `TakeBatch` swaps the queue out under the
    lock, and `WriteBatch` writes that batch with the lock released (see
    BatchWorker); `Close` runs what the worker still does once the stop flag
    is up. */
module VstVideoWriter {
  import opened Common
  import opened Text
  import opened Codec
  import opened Pipes
  import opened BatchWorker
  import Nv12

  /** The constructor parameters of `VarjoVSTVideoWriter`. */
  datatype Settings = Settings(
    width: nat, height: nat, rowStride: nat, codec: Codec,
    outPath: string, crf: int, framerate: int)

  /** The rate-control arguments: NVENC's constant-quality VBR on the GPU,
      x264's `veryfast` preset with a constant rate factor on the CPU. */
  function RateArgs(device: Device, crf: int): seq<string>
  {
    match device
    case GPU => ["-preset", "p1", "-rc", "vbr_hq", "-cq", IntText(crf)]
    case CPU => ["-preset", "veryfast", "-crf", IntText(crf)]
  }

  /** The input and encoder words: raw NV12 frames of the given size and rate
      read from standard input, encoded by `codec_toString(codec)`. */
  function InputArgs(s: Settings): seq<string>
  {
    ["ffmpeg", "-y", "-f", "rawvideo", "-pix_fmt", "nv12",
     "-s:v", SizeWord(s.width, s.height), "-framerate", IntText(s.framerate),
     "-i", "pipe:0", "-an", "-c:v", CodecName(s.codec)]
  }

  /** The output words: a yuv420p stream with the index at the front, written
      to the double-quoted output path. */
  function OutputArgs(outPath: string): seq<string>
  {
    ["-pix_fmt", "yuv420p", "-movflags", "+faststart", "\"" + outPath + "\""]
  }

  /** The words of the ffmpeg command line of `get_ffmpegCmd`. The third
      branch of the source (neither device) cannot be taken: `DeviceOf` is
      total over the two devices. */
  function FfmpegArgs(s: Settings): (args: seq<string>)
    ensures |args| == if DeviceOf(s.codec) == GPU then 26 else 24
    ensures args[7] == SizeWord(s.width, s.height) && args[9] == IntText(s.framerate)
    ensures args[13] == "-c:v" && args[14] == CodecName(s.codec)
    ensures DeviceOf(s.codec) == GPU ==> args[16] == "p1" && args[19] == "-cq" && args[20] == IntText(s.crf)
    ensures DeviceOf(s.codec) == CPU ==> args[16] == "veryfast" && args[17] == "-crf" && args[18] == IntText(s.crf)
    ensures args[|args| - 1] == "\"" + s.outPath + "\""
  {
    InputArgs(s) + RateArgs(DeviceOf(s.codec), s.crf) + OutputArgs(s.outPath)
  }

  /** `get_ffmpegCmd`: the words separated by single spaces. The command
      runs ffmpeg and ends with the double-quoted output path. */
  function FfmpegCmd(s: Settings): (cmd: string)
    ensures |cmd| >= 7 && cmd[..7] == "ffmpeg "
    ensures var quoted := "\"" + s.outPath + "\"";
      |quoted| <= |cmd| && cmd[|cmd| - |quoted|..] == quoted
  {
    var args := FfmpegArgs(s);
    JoinAsTerminated(args, " ");
    Join(args, " ")
  }

  lemma InputArgsFreeOfSpace(s: Settings)
    ensures FreeOf(InputArgs(s), ' ')
  {
    SizeWordFree(s.width, s.height, ' ');
    IntTextFree(s.framerate, ' ');
  }

  lemma RateArgsFreeOfSpace(device: Device, crf: int)
    ensures FreeOf(RateArgs(device, crf), ' ')
  {
    IntTextFree(crf, ' ');
  }

  lemma OutputArgsFreeOfSpace(outPath: string)
    requires ' ' !in outPath
    ensures FreeOf(OutputArgs(outPath), ' ')
  {
    assert ' ' !in "\"" + outPath + "\"";
  }

  /** Apart from the output path, no word of the command holds a space. */
  lemma ArgsFreeOfSpace(s: Settings)
    requires ' ' !in s.outPath
    ensures FreeOf(FfmpegArgs(s), ' ')
  {
    InputArgsFreeOfSpace(s);
    RateArgsFreeOfSpace(DeviceOf(s.codec), s.crf);
    OutputArgsFreeOfSpace(s.outPath);
    FreeOfConcat(InputArgs(s), RateArgs(DeviceOf(s.codec), s.crf), ' ');
    FreeOfConcat(InputArgs(s) + RateArgs(DeviceOf(s.codec), s.crf), OutputArgs(s.outPath), ' ');
  }

  /** Splitting the command line at its spaces gives back exactly the words,
      so ffmpeg sees the size, frame rate, codec and quality it was given. */
  lemma FfmpegCmdSplits(s: Settings)
    requires ' ' !in s.outPath
    ensures SplitOn(FfmpegCmd(s), ' ') == FfmpegArgs(s)
  {
    ArgsFreeOfSpace(s);
    SplitJoin(FfmpegArgs(s), ' ');
  }

  /** The command determines the frame size, frame rate, encoder, quality and
      output path (for paths without spaces): different settings never launch
      the same ffmpeg command. */
  lemma FfmpegCmdInjective(s: Settings, t: Settings)
    requires ' ' !in s.outPath && ' ' !in t.outPath
    requires Declared(s.codec) && Declared(t.codec)
    requires FfmpegCmd(s) == FfmpegCmd(t)
    ensures s.width == t.width && s.height == t.height && s.framerate == t.framerate
    ensures s.codec == t.codec && s.crf == t.crf && s.outPath == t.outPath
  {
    FfmpegCmdSplits(s);
    FfmpegCmdSplits(t);
    var a, b := FfmpegArgs(s), FfmpegArgs(t);
    assert a == b;
    SizeWordInjective(s.width, s.height, t.width, t.height);
    IntTextInjective(s.framerate, t.framerate);
    CodecNameInjective(s.codec, t.codec);
    IntTextInjective(s.crf, t.crf);
    assert a[|a| - 1][1..|a[|a| - 1]| - 1] == s.outPath;
    assert b[|b| - 1][1..|b[|b| - 1]| - 1] == t.outPath;
  }

  /** The raw bytes the member `remove_padding` spans: a luma span of
      `row_stride * height` bytes and a chroma span of half that, which
      covers every row the free function reads. */
  function SpanSize(rowStride: nat, height: nat): (n: nat)
    ensures Nv12.RawSize(rowStride, height) <= n
  {
    Nv12.MulAdd(height / 2, height / 2, rowStride);
    Nv12.MulMono(height / 2 + height / 2, height, rowStride);
    Nv12.Mul(height, rowStride) + Nv12.Mul(height, rowStride) / 2
  }

  /** A raw frame the writer can pack. */
  predicate Packable(s: Settings, raw: seq<byte>)
  {
    s.width <= s.rowStride && SpanSize(s.rowStride, s.height) <= |raw|
  }

  /** The member `remove_padding` of the writer: the same row copies as the
      free function into the writer's tight buffer, over spans that demand a
      chroma span of `row_stride * height / 2` bytes. */
  method RemovePadding(raw: seq<byte>, out: array<byte>, width: nat, height: nat, rowStride: nat)
    requires width <= rowStride && SpanSize(rowStride, height) <= |raw|
    requires Nv12.FilledSize(width, height) <= out.Length
    modifies out
    ensures out[..] == Nv12.Unpad(raw, width, height, rowStride) + old(out[..])[Nv12.FilledSize(width, height)..]
  {
    Nv12.RemovePaddingInto(raw, out, width, height, rowStride);
  }

  /** What the writer sends for each frame: the frame without padding. */
  function Packed(s: Settings, raw: seq<byte>): (r: seq<byte>)
    requires Packable(s, raw)
    ensures |r| == Nv12.TightSize(s.width, s.height)
  {
    Nv12.Normalized(raw, s.width, s.height, s.rowStride)
  }

  /** The frames of `frames`, each packed, in order. */
  function PackedAll(s: Settings, frames: seq<seq<byte>>): (r: seq<seq<byte>>)
    requires forall i :: 0 <= i < |frames| ==> Packable(s, frames[i])
    ensures |r| == |frames|
    ensures forall i :: 0 <= i < |frames| ==> r[i] == Packed(s, frames[i])
  {
    if |frames| == 0 then []
    else
      var prefix := frames[..|frames| - 1];
      assert forall i :: 0 <= i < |prefix| ==> prefix[i] == frames[i];
      PackedAll(s, prefix) + [Packed(s, frames[|frames| - 1])]
  }

  /** Packing a concatenation packs each part: the output order is the
      submission order. */
  lemma PackedAllAppend(s: Settings, a: seq<seq<byte>>, b: seq<seq<byte>>)
    requires forall i :: 0 <= i < |a| ==> Packable(s, a[i])
    requires forall i :: 0 <= i < |b| ==> Packable(s, b[i])
    ensures forall i :: 0 <= i < |a + b| ==> Packable(s, (a + b)[i])
    ensures PackedAll(s, a + b) == PackedAll(s, a) + PackedAll(s, b)
  {
    assert forall i :: 0 <= i < |a + b| ==> Packable(s, (a + b)[i]) by {
      forall i | 0 <= i < |a + b| ensures Packable(s, (a + b)[i]) {
        if i < |a| { assert (a + b)[i] == a[i]; } else { assert (a + b)[i] == b[i - |a|]; }
      }
    }
  }

  /** Packs `raw` into the tight buffer with the member `remove_padding`,
      leaving its contents equal to `Packed`. */
  method PackInto(s: Settings, raw: seq<byte>, tight: array<byte>)
    requires Packable(s, raw) && Nv12.ZeroTail(tight[..], s.width, s.height)
    modifies tight
    ensures tight[..] == Packed(s, raw) && Nv12.ZeroTail(tight[..], s.width, s.height)
  {
    ghost var before := tight[..];
    RemovePadding(raw, tight, s.width, s.height, s.rowStride);
    assert tight[..][Nv12.FilledSize(s.width, s.height)..] == before[Nv12.FilledSize(s.width, s.height)..];
  }

  /** `VarjoVSTSerialVideoWriter`: each submitted frame is packed and written
      to the pipe at once. */
  class SerialVideoWriter {
    const settings: Settings
    const tight: array<byte>
    var pipe: Pipe
    /** The commands passed to `_popen`, in order. */
    var launched: seq<string>
    /** The byte blocks written to the pipe, one per `fwrite`. */
    var written: seq<seq<byte>>

    predicate Valid()
      reads this, tight
    {
      Nv12.ZeroTail(tight[..], settings.width, settings.height) && !ReleasesTwice(pipe)
    }

    constructor(settings: Settings)
      ensures this.settings == settings && pipe == Null && launched == [] && written == []
      ensures tight.Length == settings.width * settings.height + (settings.width * settings.height) / 2
      ensures Valid()
    {
      var buffer := Nv12.NewTightBuffer(settings.width, settings.height);
      this.settings := settings;
      tight := buffer;
      pipe := Null;
      launched := [];
      written := [];
    }

    /** `open`: launches ffmpeg with `FfmpegCmd`; true iff the pipe isOpen. */
    method Open(popenSucceeds: bool) returns (isOpen: bool)
      requires Valid()
      modifies this
      ensures Valid()
      ensures isOpen == popenSucceeds && pipe == Popen(popenSucceeds)
      ensures launched == old(launched) + [FfmpegCmd(settings)]
      ensures written == old(written)
    {
      launched := launched + [FfmpegCmd(settings)];
      pipe := Popen(popenSucceeds);
      isOpen := pipe != Null;
    }

    /** `submit_frame_impl`: packs the frame and writes the whole tight buffer. */
    method Submit(raw: seq<byte>)
      requires Valid() && Live(pipe) && Packable(settings, raw)
      modifies this, tight
      ensures Valid() && pipe == old(pipe) && launched == old(launched)
      ensures written == old(written) + [Packed(settings, raw)]
    {
      PackInto(settings, raw, tight);
      written := written + [tight[..]];
    }

    /** `close`, corrected to forget the pointer once `_pclose` released it. */
    method Close()
      requires Valid()
      modifies this
      ensures Valid() && pipe == ClosePipe(old(pipe))
      ensures written == old(written) && launched == old(launched)
    {
      pipe := ClosePipe(pipe);
    }
  }

  /** `VarjoVSTParallelVideoWriter`: frames are queued by `Submit` and packed
      and written by the worker in submission order. */
  class ParallelVideoWriter {
    const settings: Settings
    const tight: array<byte>
    var pipe: Pipe
    var launched: seq<string>
    var written: seq<seq<byte>>
    /** `frameData_submitQue`, front at index 0. */
    var queue: seq<seq<byte>>
    /** The worker's `frameData_toWrite`: the frames it swapped out and has
        not yet written. */
    var batch: seq<seq<byte>>
    /** Whether the worker is writing `batch` with the lock released. */
    var writing: bool
    /** `stop_worker_signal_`, initially true. */
    var stop: bool
    /** The worker thread has been started and has not yet returned. */
    var workerRunning: bool

    predicate Valid()
      reads this, tight
    {
      && Nv12.ZeroTail(tight[..], settings.width, settings.height) && !ReleasesTwice(pipe)
      && (forall i :: 0 <= i < |queue| ==> Packable(settings, queue[i]))
      && (forall i :: 0 <= i < |batch| ==> Packable(settings, batch[i]))
      && (workerRunning ==> Live(pipe) && !stop)
      && (writing ==> workerRunning)
      && (!writing ==> batch == [])
    }

    constructor(settings: Settings, bufferSize: nat)
      ensures this.settings == settings && pipe == Null && launched == [] && written == []
      ensures queue == [] && batch == [] && !writing && stop && !workerRunning
      ensures tight.Length == settings.width * settings.height + (settings.width * settings.height) / 2
      ensures Valid()
    {
      var buffer := Nv12.NewTightBuffer(settings.width, settings.height);
      this.settings := settings;
      tight := buffer;
      pipe := Null;
      launched := [];
      written := [];
      queue := [];
      batch := [];
      writing := false;
      stop := true;
      workerRunning := false;
    }

    /** `open`: launches ffmpeg; without a pipe it returns false and starts no
        worker, otherwise it clears the stop flag and starts the worker. */
    method Open(popenSucceeds: bool) returns (isOpen: bool)
      requires Valid() && !workerRunning
      modifies this
      ensures Valid()
      ensures isOpen == popenSucceeds && pipe == Popen(popenSucceeds)
      ensures launched == old(launched) + [FfmpegCmd(settings)]
      ensures workerRunning == isOpen && (isOpen ==> !stop) && (!isOpen ==> stop == old(stop))
      ensures written == old(written) && queue == old(queue) && batch == [] && !writing
    {
      launched := launched + [FfmpegCmd(settings)];
      pipe := Popen(popenSucceeds);
      if pipe == Null {
        return false;
      }
      stop := false;
      workerRunning := true;
      isOpen := true;
    }

    /** `submit_frame_impl`: appends the frame at the back of the queue. */
    method Submit(raw: seq<byte>)
      requires Valid() && Packable(settings, raw)
      modifies this
      ensures Valid() && queue == old(queue) + [raw]
      ensures written == old(written) && pipe == old(pipe) && launched == old(launched)
      ensures batch == old(batch) && writing == old(writing)
      ensures stop == old(stop) && workerRunning == old(workerRunning)
    {
      queue := queue + [raw];
    }

    /** The inner loop of the worker: packs and writes the taken frames front to back. */
    method WriteAll(frames: seq<seq<byte>>)
      requires Valid() && Live(pipe)
      requires forall i :: 0 <= i < |frames| ==> Packable(settings, frames[i])
      modifies this, tight
      ensures Valid() && written == old(written) + PackedAll(settings, frames)
      ensures pipe == old(pipe) && launched == old(launched) && queue == old(queue)
      ensures batch == old(batch) && writing == old(writing)
      ensures stop == old(stop) && workerRunning == old(workerRunning)
    {
      var i := 0;
      while i < |frames|
        invariant 0 <= i <= |frames|
        invariant Valid() && pipe == old(pipe) && launched == old(launched) && queue == old(queue)
        invariant batch == old(batch) && writing == old(writing)
        invariant stop == old(stop) && workerRunning == old(workerRunning)
        invariant written == old(written) + PackedAll(settings, frames[..i])
      {
        PackInto(settings, frames[i], tight);
        written := written + [tight[..]];
        assert frames[..i + 1][..i] == frames[..i];
        i := i + 1;
      }
      assert frames[..i] == frames;
    }

    /** The first half of an iteration of `video_write_worker`: woken because
        the queue is not empty, the worker swaps the whole queue out under the
        lock (the `Take` step of BatchWorker). */
    method TakeBatch()
      requires Valid() && workerRunning && !writing && |queue| > 0
      modifies this
      ensures Valid() && writing && batch == old(queue) && queue == []
      ensures written == old(written) && pipe == old(pipe) && launched == old(launched)
      ensures stop == old(stop) && workerRunning == old(workerRunning)
    {
      batch := queue;
      queue := [];
      writing := true;
    }

    /** The second half: the taken frames are packed and written front to
        back with the lock released, so frames submitted meanwhile stay
        queued; the stop flag being down, the worker then waits again (the
        `Finish` step of BatchWorker). */
    method WriteBatch()
      requires Valid() && writing
      modifies this, tight
      ensures Valid() && !writing && batch == []
      ensures written == old(written) + PackedAll(settings, old(batch))
      ensures queue == old(queue) && pipe == old(pipe) && launched == old(launched)
      ensures stop == old(stop) && workerRunning == old(workerRunning)
    {
      var taken := batch;
      WriteAll(taken);
      batch := [];
      writing := false;
    }

    /** `close`: raises the stop flag and joins the worker. A waiting worker
        is woken, swaps out the whole queue and writes it; a worker in the
        middle of a batch finishes it and returns at its loop test, so the
        frames queued meanwhile are never written (`FlushedAtClose`). The
        pipe is then closed, by the corrected close that forgets the
        pointer. */
    method Close()
      requires Valid()
      modifies this, tight
      ensures Valid() && stop && !workerRunning && !writing && batch == []
      ensures pipe == ClosePipe(old(pipe)) && launched == old(launched)
      ensures old(workerRunning) ==>
        && written == old(written) + PackedAll(settings, FlushedAtClose(old(writing), old(batch), old(queue)))
        && queue == (if old(writing) then old(queue) else [])
      ensures !old(workerRunning) ==> queue == old(queue) && written == old(written)
    {
      if workerRunning {
        var taken: seq<seq<byte>>;
        if writing {
          taken := batch;
        } else {
          taken := queue;
          queue := [];
        }
        assert taken == FlushedAtClose(old(writing), old(batch), old(queue));
        batch, writing, workerRunning, stop := [], false, false, true;
        WriteAll(taken);
      }
      stop := true;
      pipe := ClosePipe(pipe);
    }
  }
}
