/** The VST metadata writers (VarjoVSTFrame/VarjoVSTMetadataWriter.cpp and
    .hpp): a CSV file with a header row and one line per frame metadata
    record, written synchronously (Serial) or by a worker from a FIFO queue
    (Parallel). The file is the text `out`; opening it succeeding or failing
    is an input. Every printed value is an opaque token (see Frames), except
    the channel index and the timestamp, which are integers. */
module MetadataWriter {
  import opened Common
  import opened Text
  import opened Frames
  import opened FilesystemUtil

  /** The 84 string literals of `column_names_`, in order. There is no comma
      between them, so C++ concatenates them into one literal. */
  function ColumnLiterals(): seq<string>
  {
    [
    "streamFrame.type", "streamframe.id", "streamFrame.frameNumber", "streamFrame.channels",
    "streamFrame.dataFlags", "streamFrame.hmdPose.value[0]", "streamFrame.hmdPose.value[1]",
    "streamFrame.hmdPose.value[2]", "streamFrame.hmdPose.value[3]", "streamFrame.hmdPose.value[4]",
    "streamFrame.hmdPose.value[5]", "streamFrame.hmdPose.value[6]", "streamFrame.hmdPose.value[7]",
    "streamFrame.hmdPose.value[8]", "streamFrame.hmdPose.value[9]", "streamFrame.hmdPose.value[10]",
    "streamFrame.hmdPose.value[11]", "streamFrame.hmdPose.value[12]", "streamFrame.hmdPose.value[13]",
    "streamFrame.hmdPose.value[14]", "streamFrame.hmdPose.value[15]",
    "streamFrame.metadata.distortedColor.timestamp", "streamFrame.metadata.distortedColor.ev",
    "streamFrame.metadata.distortedColor.exposuretime",
    "streamFrame.metadata.distortedColor.whiteBalanceTemperature",
    "streamFrame.metadata.distortedColor.wbNormalizationData.whiteBalanceColorGains[0]",
    "streamFrame.metadata.distortedColor.wbNormalizationData.whiteBalanceColorGains[1]",
    "streamFrame.metadata.distortedColor.wbNormalizationData.whiteBalanceColorGains[2]",
    "streamFrame.metadata.distortedColor.wbNormalizationData.invCCM.value[0]",
    "streamFrame.metadata.distortedColor.wbNormalizationData.invCCM.value[1]",
    "streamFrame.metadata.distortedColor.wbNormalizationData.invCCM.value[2]",
    "streamFrame.metadata.distortedColor.wbNormalizationData.invCCM.value[3]",
    "streamFrame.metadata.distortedColor.wbNormalizationData.invCCM.value[4]",
    "streamFrame.metadata.distortedColor.wbNormalizationData.invCCM.value[5]",
    "streamFrame.metadata.distortedColor.wbNormalizationData.invCCM.value[6]",
    "streamFrame.metadata.distortedColor.wbNormalizationData.invCCM.value[7]",
    "streamFrame.metadata.distortedColor.wbNormalizationData.invCCM.value[8]",
    "streamFrame.metadata.distortedColor.wbNormalizationData.ccm.value[0]",
    "streamFrame.metadata.distortedColor.wbNormalizationData.ccm.value[1]",
    "streamFrame.metadata.distortedColor.wbNormalizationData.ccm.value[2]",
    "streamFrame.metadata.distortedColor.wbNormalizationData.ccm.value[3]",
    "streamFrame.metadata.distortedColor.wbNormalizationData.ccm.value[4]",
    "streamFrame.metadata.distortedColor.wbNormalizationData.ccm.value[5]",
    "streamFrame.metadata.distortedColor.wbNormalizationData.ccm.value[6]",
    "streamFrame.metadata.distortedColor.wbNormalizationData.ccm.value[7]",
    "streamFrame.metadata.distortedColor.wbNormalizationData.ccm.value[8]",
    "streamFrame.metadata.distortedColor.cameraCalibrationConstant", "channelIndex", "timestamp",
    "extrinsics.value[0]", "extrinsics.value[1]", "extrinsics.value[2]", "extrinsics.value[3]",
    "extrinsics.value[4]", "extrinsics.value[5]", "extrinsics.value[6]", "extrinsics.value[7]",
    "extrinsics.value[8]", "extrinsics.value[9]", "extrinsics.value[10]", "extrinsics.value[11]",
    "extrinsics.value[12]", "extrinsics.value[13]", "extrinsics.value[14]", "extrinsics.value[15]",
    "intrinsics.model", "intrinsics.principalPointX", "intrinsics.principalPointY",
    "intrinsics.focalLengthX", "intrinsics.focalLengthY", "intrinsics.distortionCoefficients[0]",
    "intrinsics.distortionCoefficients[1]", "intrinsics.distortionCoefficients[2]",
    "intrinsics.distortionCoefficients[3]", "intrinsics.distortionCoefficients[4]",
    "intrinsics.distortionCoefficients[5]", "intrinsics.distortionCoefficients[6]",
    "intrinsics.distortionCoefficients[7]", "bufferMetadata.format", "bufferMetadata.type",
    "bufferMetadata.byteSize", "bufferMetadata.rowStride", "bufferMetadata.width", "bufferMetadata.height"
    ]
  }

  /** `column_names_` as initialised: one element, the concatenation of all
      84 literals. */
  function ColumnNames(): (names: seq<string>)
    ensures |names| == 1
  {
    [
    "streamFrame.type" + "streamframe.id" + "streamFrame.frameNumber" + "streamFrame.channels" +
    "streamFrame.dataFlags" + "streamFrame.hmdPose.value[0]" + "streamFrame.hmdPose.value[1]" +
    "streamFrame.hmdPose.value[2]" + "streamFrame.hmdPose.value[3]" + "streamFrame.hmdPose.value[4]" +
    "streamFrame.hmdPose.value[5]" + "streamFrame.hmdPose.value[6]" + "streamFrame.hmdPose.value[7]" +
    "streamFrame.hmdPose.value[8]" + "streamFrame.hmdPose.value[9]" + "streamFrame.hmdPose.value[10]" +
    "streamFrame.hmdPose.value[11]" + "streamFrame.hmdPose.value[12]" + "streamFrame.hmdPose.value[13]" +
    "streamFrame.hmdPose.value[14]" + "streamFrame.hmdPose.value[15]" +
    "streamFrame.metadata.distortedColor.timestamp" + "streamFrame.metadata.distortedColor.ev" +
    "streamFrame.metadata.distortedColor.exposuretime" +
    "streamFrame.metadata.distortedColor.whiteBalanceTemperature" +
    "streamFrame.metadata.distortedColor.wbNormalizationData.whiteBalanceColorGains[0]" +
    "streamFrame.metadata.distortedColor.wbNormalizationData.whiteBalanceColorGains[1]" +
    "streamFrame.metadata.distortedColor.wbNormalizationData.whiteBalanceColorGains[2]" +
    "streamFrame.metadata.distortedColor.wbNormalizationData.invCCM.value[0]" +
    "streamFrame.metadata.distortedColor.wbNormalizationData.invCCM.value[1]" +
    "streamFrame.metadata.distortedColor.wbNormalizationData.invCCM.value[2]" +
    "streamFrame.metadata.distortedColor.wbNormalizationData.invCCM.value[3]" +
    "streamFrame.metadata.distortedColor.wbNormalizationData.invCCM.value[4]" +
    "streamFrame.metadata.distortedColor.wbNormalizationData.invCCM.value[5]" +
    "streamFrame.metadata.distortedColor.wbNormalizationData.invCCM.value[6]" +
    "streamFrame.metadata.distortedColor.wbNormalizationData.invCCM.value[7]" +
    "streamFrame.metadata.distortedColor.wbNormalizationData.invCCM.value[8]" +
    "streamFrame.metadata.distortedColor.wbNormalizationData.ccm.value[0]" +
    "streamFrame.metadata.distortedColor.wbNormalizationData.ccm.value[1]" +
    "streamFrame.metadata.distortedColor.wbNormalizationData.ccm.value[2]" +
    "streamFrame.metadata.distortedColor.wbNormalizationData.ccm.value[3]" +
    "streamFrame.metadata.distortedColor.wbNormalizationData.ccm.value[4]" +
    "streamFrame.metadata.distortedColor.wbNormalizationData.ccm.value[5]" +
    "streamFrame.metadata.distortedColor.wbNormalizationData.ccm.value[6]" +
    "streamFrame.metadata.distortedColor.wbNormalizationData.ccm.value[7]" +
    "streamFrame.metadata.distortedColor.wbNormalizationData.ccm.value[8]" +
    "streamFrame.metadata.distortedColor.cameraCalibrationConstant" + "channelIndex" + "timestamp" +
    "extrinsics.value[0]" + "extrinsics.value[1]" + "extrinsics.value[2]" + "extrinsics.value[3]" +
    "extrinsics.value[4]" + "extrinsics.value[5]" + "extrinsics.value[6]" + "extrinsics.value[7]" +
    "extrinsics.value[8]" + "extrinsics.value[9]" + "extrinsics.value[10]" + "extrinsics.value[11]" +
    "extrinsics.value[12]" + "extrinsics.value[13]" + "extrinsics.value[14]" + "extrinsics.value[15]" +
    "intrinsics.model" + "intrinsics.principalPointX" + "intrinsics.principalPointY" +
    "intrinsics.focalLengthX" + "intrinsics.focalLengthY" + "intrinsics.distortionCoefficients[0]" +
    "intrinsics.distortionCoefficients[1]" + "intrinsics.distortionCoefficients[2]" +
    "intrinsics.distortionCoefficients[3]" + "intrinsics.distortionCoefficients[4]" +
    "intrinsics.distortionCoefficients[5]" + "intrinsics.distortionCoefficients[6]" +
    "intrinsics.distortionCoefficients[7]" + "bufferMetadata.format" + "bufferMetadata.type" +
    "bufferMetadata.byteSize" + "bufferMetadata.rowStride" + "bufferMetadata.width" + "bufferMetadata.height"
    ]
  }

  /** The header row: every element of `column_names_` followed by ",", then
      the line end. (Its properties are stated by lemmas rather than in an
      `ensures`, which every use on the literal column names would unfold.) */
  function HeaderText(names: seq<string>): string
  {
    Terminated(names, ",") + "\n"
  }

  /** The header row ends with the line end; read back as CSV, a header of
      comma-free names gives the names, followed by one empty column for the
      trailing comma. */
  lemma HeaderTextParses(names: seq<string>)
    requires FreeOf(names, ',')
    ensures var h := HeaderText(names);
      && |h| >= 1 && h[|h| - 1] == '\n'
      && SplitOn(h[..|h| - 1], ',') == names + [""]
  {
    var h := HeaderText(names);
    assert h[..|h| - 1] == Terminated(names, [',']);
    TerminatedSplits(names, ',');
  }

  /** Because `column_names_` has one element, the header row is a single
      column: the concatenated names and one comma. */
  lemma HeaderIsOneColumn()
    ensures HeaderText(ColumnNames()) == ColumnNames()[0] + ",\n"
  {
    SingleNameHeader(ColumnNames());
  }

  lemma SingleNameHeader(names: seq<string>)
    requires |names| == 1
    ensures HeaderText(names) == names[0] + ",\n"
  {
    assert Terminated(names[1..], ",") == "";
    AppendAssociates(names[0], ",", "\n");
  }

  /** The literals name as many columns as a metadata line has fields. */
  lemma ColumnLiteralsCountFields(m: Metadata)
    requires WellFormed(m)
    ensures |ColumnLiterals()| == |Fields(m)| == 84
  {
  }

  /** The stream-frame part of a line: 5 identifiers, the 16 pose values, 4
      colour scalars, 3 white-balance gains, 9 inverse-CCM and 9 CCM values
      and the calibration constant. */
  function StreamFields(m: Metadata): (r: seq<string>)
    requires WellFormed(m)
    ensures |r| == 47
  {
    var f := m.streamFrame;
    var c := f.color;
    [f.streamType, f.id, f.frameNumber, f.channels, f.dataFlags] + f.hmdPose
    + [c.timestamp, c.ev, c.exposureTime, c.whiteBalanceTemperature] + c.colorGains
    + c.invCcm + c.ccm + [c.cameraCalibrationConstant]
  }

  /** The camera part of a line: 16 extrinsics values, 5 intrinsics scalars,
      8 distortion coefficients and the 6 buffer fields. */
  function CameraFields(m: Metadata): (r: seq<string>)
    requires WellFormed(m)
    ensures |r| == 35
  {
    var k := m.intrinsics;
    var b := m.buffer;
    m.extrinsics + [k.model, k.principalPointX, k.principalPointY, k.focalLengthX, k.focalLengthY]
    + k.distortion + [b.format, b.bufferType, b.byteSize, b.rowStride, b.width, b.height]
  }

  /** The fields `write_metadata_line` prints, in order. */
  function Fields(m: Metadata): (r: seq<string>)
    requires WellFormed(m)
    ensures |r| == 84
    ensures r[..47] == StreamFields(m) && r[49..] == CameraFields(m)
    ensures r[47] == IntText(m.channelIndex) && r[48] == IntText(m.timestamp)
  {
    StreamFields(m) + [IntText(m.channelIndex), IntText(m.timestamp)] + CameraFields(m)
  }

  /** One metadata line: the fields separated by commas, no trailing comma,
      then the line end. */
  function MetadataLine(m: Metadata): (line: string)
    requires WellFormed(m)
    ensures |line| >= 1 && line[|line| - 1] == '\n'
  {
    Join(Fields(m), ",") + "\n"
  }

  /** When no token holds a comma, a line has exactly 83 commas and splitting
      it at them gives back the 84 fields: the line is unambiguous. */
  lemma MetadataLineParses(m: Metadata)
    requires WellFormed(m) && FreeOf(Fields(m), ',')
    ensures var line := MetadataLine(m);
      && line[|line| - 1] == '\n'
      && SplitOn(line[..|line| - 1], ',') == Fields(m)
      && Count(line[..|line| - 1], ',') == 83
  {
    var line := MetadataLine(m);
    assert line[..|line| - 1] == Join(Fields(m), [',']);
    SplitJoin(Fields(m), ',');
    JoinSeparatorCount(Fields(m), ',');
  }

  predicate AllWellFormed(ms: seq<Metadata>)
  {
    forall i :: 0 <= i < |ms| ==> WellFormed(ms[i])
  }

  lemma AllWellFormedAppend(a: seq<Metadata>, b: seq<Metadata>)
    requires AllWellFormed(a) && AllWellFormed(b)
    ensures AllWellFormed(a + b)
  {
    forall i | 0 <= i < |a + b| ensures WellFormed((a + b)[i]) {
      if i < |a| { assert (a + b)[i] == a[i]; } else { assert (a + b)[i] == b[i - |a|]; }
    }
  }

  /** The lines of several records, in order: empty exactly when there is
      no record, and otherwise ending with a line end. */
  function Lines(ms: seq<Metadata>): (text: string)
    requires AllWellFormed(ms)
    ensures text == [] <==> ms == []
    ensures ms != [] ==> text[|text| - 1] == '\n'
  {
    if |ms| == 0 then "" else Lines(ms[..|ms| - 1]) + MetadataLine(ms[|ms| - 1])
  }

  /** One more record adds its line at the end. */
  lemma LinesSnoc(ms: seq<Metadata>, i: nat)
    requires i < |ms| && AllWellFormed(ms)
    ensures Lines(ms[..i + 1]) == Lines(ms[..i]) + MetadataLine(ms[i])
  {
    assert ms[..i + 1][..i] == ms[..i];
  }

  /** Writing two batches one after the other gives the lines of the whole
      sequence: splitting the work across worker steps changes nothing. */
  lemma {:induction false} LinesAppend(a: seq<Metadata>, b: seq<Metadata>)
    requires AllWellFormed(a) && AllWellFormed(b)
    ensures AllWellFormed(a + b)
    ensures Lines(a + b) == Lines(a) + Lines(b)
    decreases |b|
  {
    AllWellFormedAppend(a, b);
    if |b| == 0 {
      assert a + b == a;
    } else {
      var front := b[..|b| - 1];
      LinesAppend(a, front);
      assert (a + b)[..|a + b| - 1] == a + front;
      assert (a + b)[|a + b| - 1] == b[|b| - 1];
      AppendAssociates(Lines(a), Lines(front), MetadataLine(b[|b| - 1]));
    }
  }

  /** `write_metadata_line`: each field but the last is written followed by
      a comma, then the last field and the line end. */
  method WriteMetadataLine(out: string, m: Metadata) returns (out': string)
    requires WellFormed(m)
    ensures out' == out + MetadataLine(m)
  {
    var fields := Fields(m);
    out' := out;
    var i := 0;
    while i < |fields| - 1
      invariant 0 <= i <= |fields| - 1
      invariant out' == out + Terminated(fields[..i], ",")
    {
      TerminatedAppend(fields[..i], fields[i], ",");
      assert fields[..i + 1] == fields[..i] + [fields[i]];
      AppendAssociates(out, Terminated(fields[..i], ","), fields[i]);
      AppendAssociates(out, Terminated(fields[..i], ",") + fields[i], ",");
      out' := out' + fields[i] + ",";
      i := i + 1;
    }
    JoinAsTerminated(fields, ",");
    AppendAssociates(out, Terminated(fields[..i], ","), fields[i]);
    AppendAssociates(out, Join(fields, ","), "\n");
    out' := out' + fields[i] + "\n";
  }

  /** The drain loop of the parallel worker: the records are popped from the
      front of the queue and written one by one. */
  method WriteLines(out: string, queue: seq<Metadata>) returns (out': string)
    requires AllWellFormed(queue)
    ensures out' == out + Lines(queue)
  {
    out' := out;
    var rest := queue;
    var popped := 0;
    while rest != []
      invariant 0 <= popped <= |queue| && rest == queue[popped..]
      invariant out' == out + Lines(queue[..popped])
      decreases |rest|
    {
      var m := rest[0];
      rest := rest[1..];
      ghost var written := Lines(queue[..popped]);
      out' := WriteMetadataLine(out', m);
      LinesSnoc(queue, popped);
      AppendAssociates(out, written, MetadataLine(m));
      popped := popped + 1;
    }
    assert queue[..popped] == queue;
  }

  /** The header loop of the constructor. */
  method WriteHeader(names: seq<string>) returns (out: string)
    ensures out == HeaderText(names)
  {
    out := "";
    var i := 0;
    while i < |names|
      invariant 0 <= i <= |names|
      invariant out == Terminated(names[..i], ",")
    {
      TerminatedAppend(names[..i], names[i], ",");
      assert names[..i + 1] == names[..i] + [names[i]];
      out := out + names[i] + ",";
      i := i + 1;
    }
    assert names[..i] == names;
    out := out + "\n";
  }

  /** The opening part of the constructor: the path is made conflict-free,
      and a file that cannot be opened throws `runtime_error` naming it. */
  method OpenOutput(existing: set<FilePath>, outPath: FilePath, openSucceeds: bool) returns (r: Result<FilePath>)
    ensures r.Ok? <==> openSucceeds
    ensures r.Ok? ==> IsResolution(existing, outPath, r.value) && r.value !in existing
    ensures r.Err? ==> exists p :: (IsResolution(existing, outPath, p)
      && r.error == RuntimeError("Failed to open output metadata file: " + PathText(p)))
  {
    var path := SolveFilenameConflict(existing, outPath);
    if !openSucceeds {
      return Err(RuntimeError("Failed to open output metadata file: " + PathText(path)));
    }
    r := Ok(path);
  }

  /** `VarjoVSTSerialMetadataWriter`: each submitted record is written at once. */
  class SerialMetadataWriter {
    const path: FilePath
    /** `column_names_`. */
    const columnNames: seq<string>
    var out: string

    /** The constructor once the file is open: the header row is written. */
    constructor(path: FilePath)
      ensures this.path == path && columnNames == ColumnNames() && out == HeaderText(columnNames)
    {
      var names := ColumnNames();
      var header := WriteHeader(names);
      this.path := path;
      columnNames := names;
      out := header;
    }

    /** `submit_metadata_impl`: writes exactly one line for the record. */
    method Submit(m: Metadata)
      requires WellFormed(m)
      modifies this
      ensures out == old(out) + MetadataLine(m)
    {
      out := WriteMetadataLine(out, m);
    }
  }

  /** The constructor of the serial writer, with its throw. */
  method NewSerialMetadataWriter(existing: set<FilePath>, outPath: FilePath, openSucceeds: bool)
    returns (r: Result<SerialMetadataWriter>)
    ensures r.Ok? <==> openSucceeds
    ensures r.Ok? ==> (fresh(r.value) && r.value.columnNames == ColumnNames()
      && r.value.out == HeaderText(r.value.columnNames)
      && IsResolution(existing, outPath, r.value.path) && r.value.path !in existing)
    ensures r.Err? ==> r.error.RuntimeError?
  {
    var file := OpenOutput(existing, outPath, openSucceeds);
    if file.Err? {
      return Err(file.error);
    }
    var w := new SerialMetadataWriter(file.value);
    r := Ok(w);
  }

  /** `VarjoVSTParallelMetadataWriter`: records are queued by `Submit` and
      written by the worker, front to back. */
  class ParallelMetadataWriter {
    const path: FilePath
    /** `column_names_`. */
    const columnNames: seq<string>
    var out: string
    /** `metadata_queue_`, front at index 0. */
    var queue: seq<Metadata>
    /** `stop_writer_`: initialised true, cleared by the constructor. */
    var stop: bool
    var workerRunning: bool

    predicate Valid()
      reads this
    {
      AllWellFormed(queue)
    }

    /** The constructor once the file is open: the header row is written,
        `stop_writer_` is cleared and the worker started. */
    constructor(path: FilePath)
      ensures this.path == path && columnNames == ColumnNames() && out == HeaderText(columnNames)
      ensures queue == [] && !stop && workerRunning && Valid()
    {
      var names := ColumnNames();
      var header := WriteHeader(names);
      this.path := path;
      columnNames := names;
      out := header;
      queue := [];
      stop := false;
      workerRunning := true;
    }

    /** `submit_metadata_impl`: pushes the record at the back of the queue. */
    method Submit(m: Metadata)
      requires Valid() && WellFormed(m)
      modifies this
      ensures Valid() && queue == old(queue) + [m]
      ensures out == old(out) && stop == old(stop) && workerRunning == old(workerRunning)
    {
      queue := queue + [m];
    }

    /** One pass of `writer_worker` after its wait: records are popped from
        the front and written until the queue is empty. */
    method WorkerStep()
      requires Valid() && workerRunning
      modifies this
      ensures Valid() && queue == [] && out == old(out) + Lines(old(queue))
      ensures stop == old(stop) && workerRunning == old(workerRunning)
    {
      var pending := queue;
      queue := [];
      out := WriteLines(out, pending);
    }
  }

  /** The constructor of the parallel writer, with its throw. */
  method NewParallelMetadataWriter(existing: set<FilePath>, outPath: FilePath, openSucceeds: bool)
    returns (r: Result<ParallelMetadataWriter>)
    ensures r.Ok? <==> openSucceeds
    ensures r.Ok? ==> (fresh(r.value) && r.value.columnNames == ColumnNames()
      && r.value.out == HeaderText(r.value.columnNames) && r.value.queue == []
      && r.value.workerRunning && !r.value.stop
      && IsResolution(existing, outPath, r.value.path) && r.value.path !in existing)
    ensures r.Err? ==> r.error.RuntimeError?
  {
    var file := OpenOutput(existing, outPath, openSucceeds);
    if file.Err? {
      return Err(file.error);
    }
    var w := new ParallelMetadataWriter(file.value);
    r := Ok(w);
  }
}
