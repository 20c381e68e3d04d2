/** The VST data logger (VarjoVSTFrame/DataLogger.cpp): it normalises each
    submitted frame into its tight buffer and forwards the result to the
    video writer and to the previewer, whichever is present.

    `VideoWriterOptions` and `factory_VideoWriterPtr` are not part of this
    model: an installed writer is represented by the options it was built
    from. The calls the logger makes on its sinks are recorded, in order, in
    `calls`. No member of the class installs a previewer (`open_previewer` is
    commented out of the declaration), so the previewer is always absent. */
module DataLogger {
  import opened Common
  import opened Frames
  import opened VstVideoPreviewer
  import Nv12

  /** The options a writer is built from, as an opaque token. */
  datatype WriterOptions = WriterOptions(token: string)

  /** One call of the logger on a sink. */
  datatype SinkCall =
    | WriterSubmit(frame: Frame)
    | PreviewerSubmit(data: seq<byte>)
    | WriterClose
    | PreviewerClose

  /** `close` as written: `video_writer_->close()`, then
      `video_previewer_->close()`, each through a pointer that may be null.
      `None` stands for the null dereference, otherwise the calls made. */
  function CloseAsWritten(writerPresent: bool, previewerPresent: bool): (r: Option<seq<SinkCall>>)
    ensures r.Some? <==> writerPresent && previewerPresent
    ensures r.Some? ==> r.value == [WriterClose, PreviewerClose]
  {
    if !writerPresent || !previewerPresent then None else Some([WriterClose, PreviewerClose])
  }

  /** The calls the corrected close makes: each present sink is closed,
      writer first. */
  function CloseCalls(writerPresent: bool, previewerPresent: bool): (r: seq<SinkCall>)
    ensures |r| == (if writerPresent then 1 else 0) + (if previewerPresent then 1 else 0)
    ensures WriterClose in r <==> writerPresent
    ensures PreviewerClose in r <==> previewerPresent
    ensures writerPresent && previewerPresent ==> r == [WriterClose, PreviewerClose]
  {
    (if writerPresent then [WriterClose] else []) + (if previewerPresent then [PreviewerClose] else [])
  }

  /** Since the previewer is never installed, `close` as written always
      dereferences a null pointer, with or without a writer. */
  lemma CloseAsWrittenFaultsWithoutPreviewer(writerPresent: bool)
    ensures CloseAsWritten(writerPresent, false).None?
    ensures CloseCalls(writerPresent, false) == (if writerPresent then [WriterClose] else [])
  {
  }

  /** Where the code as written is defined, the corrected close makes the
      same calls. */
  lemma CloseAgreesWhenBothPresent(writerPresent: bool, previewerPresent: bool)
    requires CloseAsWritten(writerPresent, previewerPresent).Some?
    ensures CloseAsWritten(writerPresent, previewerPresent).value == CloseCalls(writerPresent, previewerPresent)
  {
  }

  /** The frame handed to the writer: the original metadata with the tight
      bytes. */
  function Forwarded(g: Geometry, frame: Frame): (f: Frame)
    requires Showable(g, frame.data)
    ensures f.metadata == frame.metadata && f.data == Shown(g, frame.data)
    ensures g.pad == NoPadding ==> f == frame
  {
    Frame(frame.metadata, Shown(g, frame.data))
  }

  /** The calls one submitted frame causes: the writer first, then the
      previewer, each only if present. */
  function SubmitCalls(g: Geometry, frame: Frame, writerPresent: bool, previewerPresent: bool): (r: seq<SinkCall>)
    requires Showable(g, frame.data)
    ensures |r| == (if writerPresent then 1 else 0) + (if previewerPresent then 1 else 0)
    ensures writerPresent ==> r[0] == WriterSubmit(Forwarded(g, frame))
    ensures previewerPresent ==> r[|r| - 1] == PreviewerSubmit(Shown(g, frame.data))
    ensures !writerPresent && !previewerPresent ==> r == []
  {
    (if writerPresent then [WriterSubmit(Forwarded(g, frame))] else [])
    + (if previewerPresent then [PreviewerSubmit(Shown(g, frame.data))] else [])
  }

  class DataLogger {
    const geometry: Geometry
    var tight: array<byte>
    var writer: Option<WriterOptions>
    var previewerPresent: bool
    var calls: seq<SinkCall>

    predicate Valid()
      reads this, tight
    {
      geometry.pad == WithPadding ==> Nv12.ZeroTail(tight[..], geometry.width, geometry.height)
    }

    /** The tight buffer starts as `width * height * 3 / 2` zero bytes; no
        sink is present. */
    constructor(width: nat, height: nat, rowStride: nat, pad: PaddingOption)
      ensures geometry == Geometry(width, height, rowStride, pad)
      ensures tight.Length == width * height * 3 / 2
      ensures writer == None && !previewerPresent && calls == []
      ensures Valid()
    {
      Nv12.ThreeHalves(width, height);
      var buffer := Nv12.NewTightBuffer(width, height);
      geometry := Geometry(width, height, rowStride, pad);
      tight := buffer;
      writer := None;
      previewerPresent := false;
      calls := [];
    }

    /** `open_writer`: throws `runtime_error` if a writer is present, and
        installs one otherwise. */
    method OpenWriter(opt: WriterOptions) returns (outcome: Outcome)
      requires Valid()
      modifies this
      ensures Valid() && tight == old(tight) && calls == old(calls)
      ensures previewerPresent == old(previewerPresent)
      ensures outcome.Threw? <==> old(writer).Some?
      ensures outcome.Threw? ==> outcome.error == RuntimeError("Video writer is already opened.") && writer == old(writer)
      ensures outcome.Done? ==> writer == Some(opt)
    {
      if writer.Some? {
        return Threw(RuntimeError("Video writer is already opened."));
      }
      writer := Some(opt);
      outcome := Done;
    }

    /** `submit_frame_impl`: with padding the frame is packed into the tight
        buffer, otherwise the buffer adopts the frame's bytes; the tight bytes
        then go to the writer and to the previewer, each only if present, in
        that order. */
    method Submit(frame: Frame)
      requires Valid() && Showable(geometry, frame.data)
      modifies this, tight
      ensures Valid() && writer == old(writer) && previewerPresent == old(previewerPresent)
      ensures tight[..] == Shown(geometry, frame.data)
      ensures calls == old(calls) + SubmitCalls(geometry, frame, writer.Some?, previewerPresent)
    {
      if geometry.pad == WithPadding {
        Nv12.NormalizeInto(frame.data, tight, geometry.width, geometry.height, geometry.rowStride);
      } else {
        tight := new byte[|frame.data|](i requires 0 <= i < |frame.data| => frame.data[i]);
        assert tight[..] == frame.data;
      }
      if writer.Some? {
        calls := calls + [WriterSubmit(Frame(frame.metadata, tight[..]))];
      }
      if previewerPresent {
        calls := calls + [PreviewerSubmit(tight[..])];
      }
    }

    /** `close`, corrected to close only the sinks that are present (writer
        first) and then leave both absent. */
    method Close()
      requires Valid()
      modifies this
      ensures Valid() && tight == old(tight)
      ensures writer == None && !previewerPresent
      ensures calls == old(calls) + CloseCalls(old(writer).Some?, old(previewerPresent))
    {
      if writer.Some? {
        calls := calls + [WriterClose];
        writer := None;
      }
      if previewerPresent {
        calls := calls + [PreviewerClose];
        previewerPresent := false;
      }
    }
  }
}
