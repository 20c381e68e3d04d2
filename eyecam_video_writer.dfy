/** The eye-camera video writer (VarjoEyeCam/EyeCamVideoWriter.cpp): one
    ffmpeg pipe per enabled channel, gray frames, and a drain of the left
    frame queue into the left pipe.

    `open` calls `get_ffmpegCmd` with the encode options only, while the
    declared function also takes width, height, framerate and path; the class
    has no framerate or path, so `Open` takes them as parameters. The command
    is modelled with its arguments bound to the placeholders as written. */
module EyeCamVideoWriter {
  import opened Common
  import opened Text
  import opened Frames
  import opened Pipes
  import opened Encoding

  /** `EyeCam::FrameLayout`. */
  datatype FrameLayout = Contiguous | Strided

  /** The fixed words of the FFV1 command before the frame size. */
  function Ffv1InputWords(): seq<string>
  {
    ["ffmpeg", "-y", "-loglevel", "error", "-f", "rawvideo", "-pix_fmt", "gray", "-s"]
  }

  /** The fixed words between the `-r` value and the `-level` value. */
  function Ffv1CodecWords(): seq<string>
  {
    ["-i", "pipe:0", "-c:v", "ffv1", "-level"]
  }

  /** The FFV1 command as `std::format` fills it: the five placeholders take
      width and height (as `-s WxH`), framerate (`-r`), framerate again
      (`-level`) and the FFV1 level (the output file); the path is a sixth,
      unused argument. */
  function Ffv1Args(width: nat, height: nat, framerate: int, level: int): (args: seq<string>)
    ensures |args| == 24
    ensures args[9] == SizeWord(width, height) && args[11] == IntText(framerate)
    ensures args[16] == "-level" && args[17] == IntText(framerate)
    ensures args[23] == IntText(level)
  {
    Ffv1InputWords() + [SizeWord(width, height), "-r", IntText(framerate)] + Ffv1CodecWords()
    + [IntText(framerate), "-g", "1", "-pix_fmt", "gray", "-an", IntText(level)]
  }

  /** `get_ffmpegCmd`: only the FFV1 alternative yields a command; the X264
      and NVENC branches fall through to the `invalid_argument` throw. */
  function FfmpegCmd(opt: EncodeOptions, width: nat, height: nat, framerate: int, path: string): (r: Result<string>)
    ensures r.Ok? <==> opt.Ffv1?
    ensures r.Err? ==> r.error == InvalidArgument("unsupported encode options")
    ensures r.Ok? ==> r.value == Join(Ffv1Args(width, height, framerate, opt.ffv1.level), " ")
  {
    match opt
    case Ffv1(ffv1) => Ok(Join(Ffv1Args(width, height, framerate, ffv1.level), " "))
    case _ => Err(InvalidArgument("unsupported encode options"))
  }

  lemma Ffv1FixedWordsFreeOfSpace()
    ensures FreeOf(Ffv1InputWords(), ' ') && FreeOf(Ffv1CodecWords(), ' ')
  {
  }

  lemma Ffv1ArgsFreeOfSpace(width: nat, height: nat, framerate: int, level: int)
    ensures FreeOf(Ffv1Args(width, height, framerate, level), ' ')
  {
    var size := [SizeWord(width, height), "-r", IntText(framerate)];
    var output := [IntText(framerate), "-g", "1", "-pix_fmt", "gray", "-an", IntText(level)];
    Ffv1FixedWordsFreeOfSpace();
    SizeWordFree(width, height, ' ');
    IntTextFree(framerate, ' ');
    IntTextFree(level, ' ');
    assert FreeOf(size, ' ');
    assert FreeOf(output, ' ');
    FreeOfConcat(Ffv1InputWords(), size, ' ');
    FreeOfConcat(Ffv1InputWords() + size, Ffv1CodecWords(), ' ');
    FreeOfConcat(Ffv1InputWords() + size + Ffv1CodecWords(), output, ' ');
  }

  /** The output path never reaches the command. */
  lemma FfmpegCmdIgnoresPath(opt: EncodeOptions, width: nat, height: nat, framerate: int, p1: string, p2: string)
    ensures FfmpegCmd(opt, width, height, framerate, p1) == FfmpegCmd(opt, width, height, framerate, p2)
  {
  }

  /** An FFV1 command splits at its spaces into exactly its words, and it
      determines the frame size, the framerate and the level. */
  lemma FfmpegCmdInjective(width1: nat, height1: nat, framerate1: int, level1: int,
                           width2: nat, height2: nat, framerate2: int, level2: int, path1: string, path2: string)
    requires FfmpegCmd(Ffv1(Ffv1Options(level1)), width1, height1, framerate1, path1)
          == FfmpegCmd(Ffv1(Ffv1Options(level2)), width2, height2, framerate2, path2)
    ensures width1 == width2 && height1 == height2 && framerate1 == framerate2 && level1 == level2
  {
    var a1 := Ffv1Args(width1, height1, framerate1, level1);
    var a2 := Ffv1Args(width2, height2, framerate2, level2);
    Ffv1ArgsFreeOfSpace(width1, height1, framerate1, level1);
    Ffv1ArgsFreeOfSpace(width2, height2, framerate2, level2);
    SplitJoin(a1, ' ');
    SplitJoin(a2, ' ');
    assert a1 == a2;
    SizeWordInjective(width1, height1, width2, height2);
    IntTextInjective(framerate1, framerate2);
    IntTextInjective(level1, level2);
  }

  /** The left tight buffer after one frame's padding step: the contiguous
      layout moves the frame's bytes in; with the strided layout
      `remove_padding` fills it, which is not part of this model, so the model
      keeps its bytes. */
  function TightAfter(layout: FrameLayout, tight: seq<byte>, f: Frame): (t: seq<byte>)
    ensures layout == Contiguous ==> t == f.data
    ensures layout == Strided ==> t == tight
  {
    if layout == Contiguous then f.data else tight
  }

  /** The blocks `write_to_pipe` hands to `fwrite`, one per queued frame, as
      written: `Framedata framedata = std::move(f.data)` leaves `f.data` an
      empty vector, and the write reads `f.data`, so no block has a byte. */
  function MovedFromWrites(queue: seq<Frame>): (w: seq<seq<byte>>)
    ensures |w| == |queue|
    ensures forall i :: 0 <= i < |w| ==> w[i] == []
  {
    if queue == [] then [] else MovedFromWrites(queue[..|queue| - 1]) + [[]]
  }

  /** The blocks the loop evidently means to write: the tight buffer after
      each frame's padding step, one block per frame. */
  function TightWrites(layout: FrameLayout, tight: seq<byte>, queue: seq<Frame>): (w: seq<seq<byte>>)
    ensures |w| == |queue|
  {
    if queue == [] then []
    else TightWrites(layout, tight, queue[..|queue| - 1]) + [TightAfter(layout, tight, queue[|queue| - 1])]
  }

  /** With the contiguous layout the intended blocks are the frames' own
      data, in queue order; with the strided layout each is the tight buffer. */
  lemma {:induction false} TightWritesAreFrameData(layout: FrameLayout, tight: seq<byte>, queue: seq<Frame>)
    ensures layout == Contiguous ==> forall i :: 0 <= i < |queue| ==> TightWrites(layout, tight, queue)[i] == queue[i].data
    ensures layout == Strided ==> forall i :: 0 <= i < |queue| ==> TightWrites(layout, tight, queue)[i] == tight
  {
    if queue != [] {
      var init := queue[..|queue| - 1];
      TightWritesAreFrameData(layout, tight, init);
      assert forall i :: 0 <= i < |init| ==> queue[i] == init[i];
    }
  }

  /** As written, the pipe receives what was meant exactly when every meant
      block is empty: any frame with data is lost. */
  lemma MovedFromWritesLoseData(layout: FrameLayout, tight: seq<byte>, queue: seq<Frame>)
    ensures MovedFromWrites(queue) == TightWrites(layout, tight, queue)
        <==> forall i :: 0 <= i < |queue| ==> TightWrites(layout, tight, queue)[i] == []
  {
    var moved, meant := MovedFromWrites(queue), TightWrites(layout, tight, queue);
    if forall i :: 0 <= i < |queue| ==> meant[i] == [] {
      assert forall i :: 0 <= i < |queue| ==> moved[i] == meant[i];
    }
  }

  /** One queued frame with data on an open left pipe: as written the pipe
      receives one empty block, where the frame's bytes were meant. */
  lemma OneQueuedFrameWritesNothing(f: Frame, tight: seq<byte>)
    requires f.data != []
    ensures MovedFromWrites([f]) == [[]]
    ensures TightWrites(Contiguous, tight, [f]) == [f.data]
    ensures MovedFromWrites([f]) != TightWrites(Contiguous, tight, [f])
  {
    assert [f][..0] == [];
  }

  class VideoWriter {
    const flags: ChannelFlags
    const width: nat
    const height: nat
    const rowStride: nat
    const encodeOpt: EncodeOptions
    const layout: FrameLayout
    /** `lframe_que_` and `rframe_que_`, front at index 0. */
    var leftQueue: seq<Frame>
    var rightQueue: seq<Frame>
    var leftTight: seq<byte>
    var rightTight: seq<byte>
    var leftPipe: Pipe
    var rightPipe: Pipe
    /** The commands handed to `_popen`, in order. */
    var launched: seq<string>
    /** The blocks handed to `fwrite` on the left pipe, in order. */
    var leftWritten: seq<seq<byte>>

    /** The tight buffer of an enabled channel is `width * height` zero bytes
        (one gray plane); a disabled channel's buffer stays empty. */
    constructor(flags: ChannelFlags, width: nat, height: nat, rowStride: nat,
                encodeOpt: EncodeOptions, layout: FrameLayout)
      ensures this.flags == flags && this.width == width && this.height == height
      ensures this.rowStride == rowStride && this.encodeOpt == encodeOpt && this.layout == layout
      ensures leftTight == (if flags.left then Zeros(width * height) else [])
      ensures rightTight == (if flags.right then Zeros(width * height) else [])
      ensures leftQueue == [] && rightQueue == [] && leftPipe == Null && rightPipe == Null
      ensures launched == [] && leftWritten == []
    {
      this.flags := flags;
      this.width := width;
      this.height := height;
      this.rowStride := rowStride;
      this.encodeOpt := encodeOpt;
      this.layout := layout;
      leftQueue, rightQueue := [], [];
      leftTight := if flags.left then Zeros(width * height) else [];
      rightTight := if flags.right then Zeros(width * height) else [];
      leftPipe, rightPipe := Null, Null;
      launched := [];
      leftWritten := [];
    }

    /** `open`: the left pipe first, then the right. A failed left `_popen`
        returns false before the right is attempted; a non-FFV1 encoding
        throws `invalid_argument` at the first enabled channel. True iff every
        enabled channel opened. */
    method Open(framerate: int, path: string, leftSucceeds: bool, rightSucceeds: bool) returns (r: Result<bool>)
      modifies this
      ensures var cmd := FfmpegCmd(encodeOpt, width, height, framerate, path);
        && (r.Err? <==> (flags.left || flags.right) && cmd.Err?)
        && (r.Err? ==> r.error == cmd.error && leftPipe == old(leftPipe) && rightPipe == old(rightPipe)
                       && launched == old(launched))
        && (r.Ok? ==> r.value == ((flags.left ==> leftSucceeds) && (flags.right ==> rightSucceeds)))
        && (r.Ok? ==> leftPipe == (if flags.left then Popen(leftSucceeds) else old(leftPipe)))
        && (r.Ok? ==> rightPipe == (if flags.right && (flags.left ==> leftSucceeds) then Popen(rightSucceeds) else old(rightPipe)))
        && (r.Ok? ==> launched == old(launched)
                        + (if flags.left then [cmd.value] else [])
                        + (if flags.right && (flags.left ==> leftSucceeds) then [cmd.value] else []))
      ensures leftQueue == old(leftQueue) && rightQueue == old(rightQueue)
      ensures leftTight == old(leftTight) && rightTight == old(rightTight) && leftWritten == old(leftWritten)
    {
      if flags.left {
        var cmd := FfmpegCmd(encodeOpt, width, height, framerate, path);
        if cmd.Err? {
          return Err(cmd.error);
        }
        launched := launched + [cmd.value];
        leftPipe := Popen(leftSucceeds);
        if leftPipe == Null {
          return Ok(false);
        }
      }
      if flags.right {
        var cmd := FfmpegCmd(encodeOpt, width, height, framerate, path);
        if cmd.Err? {
          return Err(cmd.error);
        }
        launched := launched + [cmd.value];
        rightPipe := Popen(rightSucceeds);
        if rightPipe == Null {
          return Ok(false);
        }
      }
      return Ok(true);
    }

    /** `write_to_pipe`, as written: pops the left queue front to back until
        it is empty, with one `fwrite` per frame. `f.data` has already been
        moved into `framedata`, so each write is empty. With the contiguous
        layout the left tight buffer takes each frame's data in turn; the
        strided layout hands the emptied vector to `remove_padding`, and the
        model keeps the buffer. The right queue is never touched. */
    method WriteToPipe()
      modifies this
      ensures leftQueue == [] && rightQueue == old(rightQueue)
      ensures leftWritten == old(leftWritten) + MovedFromWrites(old(leftQueue))
      ensures leftTight == (if layout == Contiguous && |old(leftQueue)| > 0
                            then old(leftQueue)[|old(leftQueue)| - 1].data else old(leftTight))
      ensures rightTight == old(rightTight) && leftPipe == old(leftPipe) && rightPipe == old(rightPipe)
      ensures launched == old(launched)
    {
      ghost var pending := leftQueue;
      ghost var popped := 0;
      while leftQueue != []
        invariant 0 <= popped <= |pending| && leftQueue == pending[popped..]
        invariant leftWritten == old(leftWritten) + MovedFromWrites(pending[..popped])
        invariant leftTight == (if layout == Contiguous && popped > 0 then pending[popped - 1].data else old(leftTight))
        invariant rightQueue == old(rightQueue) && rightTight == old(rightTight)
        invariant leftPipe == old(leftPipe) && rightPipe == old(rightPipe) && launched == old(launched)
        decreases |leftQueue|
      {
        var f := leftQueue[0];
        var framedata := f.data;
        f := f.(data := []);
        leftQueue := leftQueue[1..];
        if layout == Contiguous {
          leftTight := framedata;
        }
        leftWritten := leftWritten + [f.data];
        assert pending[..popped + 1][..popped] == pending[..popped];
        popped := popped + 1;
      }
      assert pending[..popped] == pending;
    }

    /** `write_to_pipe` as evidently intended: each frame's padding step fills
        the tight buffer, and that buffer is what is written, so with the
        contiguous layout every queued frame's bytes reach the pipe in order. */
    method WriteTightToPipe()
      modifies this
      ensures leftQueue == [] && rightQueue == old(rightQueue)
      ensures leftWritten == old(leftWritten) + TightWrites(layout, old(leftTight), old(leftQueue))
      ensures leftTight == (if layout == Contiguous && |old(leftQueue)| > 0
                            then old(leftQueue)[|old(leftQueue)| - 1].data else old(leftTight))
      ensures rightTight == old(rightTight) && leftPipe == old(leftPipe) && rightPipe == old(rightPipe)
      ensures launched == old(launched)
    {
      ghost var pending, tight0, written0 := leftQueue, leftTight, leftWritten;
      ghost var popped := 0;
      while leftQueue != []
        invariant 0 <= popped <= |pending| && leftQueue == pending[popped..]
        invariant leftWritten == written0 + TightWrites(layout, tight0, pending[..popped])
        invariant leftTight == (if layout == Contiguous && popped > 0 then pending[popped - 1].data else tight0)
        invariant rightQueue == old(rightQueue) && rightTight == old(rightTight)
        invariant leftPipe == old(leftPipe) && rightPipe == old(rightPipe) && launched == old(launched)
        decreases |leftQueue|
      {
        var f := leftQueue[0];
        leftQueue := leftQueue[1..];
        if layout == Contiguous {
          leftTight := f.data;
        }
        assert pending[..popped + 1][..popped] == pending[..popped];
        assert TightAfter(layout, tight0, f) == leftTight;
        leftWritten := leftWritten + [leftTight];
        popped := popped + 1;
      }
      assert pending[..popped] == pending;
    }
  }
}
