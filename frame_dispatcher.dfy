/** The VST frame dispatcher (VarjoVSTFrame/VarjoVSTFrameDispatcher.cpp):
    its constructor decides which sinks exist, and `dispatch` does nothing.

    The previewers are created with the three arguments the header declares
    (width, height, row stride); the .cpp constructor also takes a padding
    option, which this call does not supply. */
module FrameDispatcher {
  import opened Common
  import opened Codec
  import VstVideoWriter

  /** `VarjoVSTFramedataDispatcherOptions`. */
  datatype Options = Options(
    width: nat, height: nat, rowStride: nat,
    writerOption: bool, previewerOption: bool,
    writerCodec: Codec, writerOutPath: string, writerCrf: int, writerFramerate: int,
    writerParallelWriteOption: bool, writerBufferSize: nat,
    previewParallelOption: bool)

  /** The writer the constructor builds, with its constructor arguments. */
  datatype WriterChoice =
    | SerialWriter(settings: VstVideoWriter.Settings)
    | ParallelWriter(settings: VstVideoWriter.Settings, bufferSize: nat)

  /** The previewer the constructor builds, with its constructor arguments. */
  datatype PreviewerChoice =
    | SerialPreviewer(width: nat, height: nat, rowStride: nat)
    | ParallelPreviewer(width: nat, height: nat, rowStride: nat)

  /** The writer settings taken from the options. */
  function WriterSettings(o: Options): (s: VstVideoWriter.Settings)
    ensures s.width == o.width && s.height == o.height && s.rowStride == o.rowStride
    ensures s.codec == o.writerCodec && s.outPath == o.writerOutPath
    ensures s.crf == o.writerCrf && s.framerate == o.writerFramerate
  {
    VstVideoWriter.Settings(o.width, o.height, o.rowStride, o.writerCodec, o.writerOutPath, o.writerCrf, o.writerFramerate)
  }

  /** A writer exists iff `writer_option`; it is parallel (with the buffer
      size) iff `writer_parallel_write_option`. */
  function WriterFor(o: Options): (w: Option<WriterChoice>)
    ensures w.Some? <==> o.writerOption
    ensures w.Some? ==> w.value.settings == WriterSettings(o)
    ensures w.Some? ==> (w.value.ParallelWriter? <==> o.writerParallelWriteOption)
    ensures w.Some? && w.value.ParallelWriter? ==> w.value.bufferSize == o.writerBufferSize
  {
    if !o.writerOption then None
    else if o.writerParallelWriteOption then Some(ParallelWriter(WriterSettings(o), o.writerBufferSize))
    else Some(SerialWriter(WriterSettings(o)))
  }

  /** A previewer exists only when both `writer_option` and
      `previewer_option` hold (its branch is nested in the writer's); it is
      parallel iff `preview_parallel_option`, and its row stride is always 0. */
  function PreviewerFor(o: Options): (p: Option<PreviewerChoice>)
    ensures p.Some? <==> o.writerOption && o.previewerOption
    ensures p.Some? ==> p.value.width == o.width && p.value.height == o.height && p.value.rowStride == 0
    ensures p.Some? ==> (p.value.ParallelPreviewer? <==> o.previewParallelOption)
  {
    if !o.writerOption || !o.previewerOption then None
    else if o.previewParallelOption then Some(ParallelPreviewer(o.width, o.height, 0))
    else Some(SerialPreviewer(o.width, o.height, 0))
  }

  /** Asking for a previewer alone yields no sink at all. */
  lemma PreviewerNeedsWriter(o: Options)
    ensures PreviewerFor(o).Some? ==> WriterFor(o).Some?
    ensures !o.writerOption ==> WriterFor(o) == None && PreviewerFor(o) == None
  {
  }

  class FramedataDispatcher {
    var writer: Option<WriterChoice>
    var previewer: Option<PreviewerChoice>

    constructor(options: Options)
      ensures writer == WriterFor(options) && previewer == PreviewerFor(options)
    {
      var w: Option<WriterChoice> := None;
      var p: Option<PreviewerChoice> := None;
      if options.writerOption {
        if options.writerParallelWriteOption {
          w := Some(ParallelWriter(WriterSettings(options), options.writerBufferSize));
        } else {
          w := Some(SerialWriter(WriterSettings(options)));
        }
        if options.previewerOption {
          if options.previewParallelOption {
            p := Some(ParallelPreviewer(options.width, options.height, 0));
          } else {
            p := Some(SerialPreviewer(options.width, options.height, 0));
          }
        }
      }
      writer := w;
      previewer := p;
    }

    /** `dispatch`: its body is empty, so no sink receives anything. */
    method Dispatch(framedata: seq<byte>)
      ensures writer == old(writer) && previewer == old(previewer)
    {
    }
  }
}
