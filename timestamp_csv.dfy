/** The timestamp CSV writers (VarjoTimestamp/TimestampCsvWriter.cpp and
    .hpp): a header row and one line per timestamp record, written at once
    (Serial) or by a worker from a FIFO queue (Parallel).

    The two writer kinds share the base class `DataCsvWriter` and differ in
    `open`, `close` and the submit paths; they are modelled as one class whose
    constant `parallel` selects the overriding behaviour. The file is the text
    `out`; whether the file opens is an input. The rendering of the system
    clock reading (UTC and local, `%Y-%m-%d_%H:%M:%S.mmm`) depends on the
    operating system's clock and time zone and is a parameter. */
module TimestampCsv {
  import opened Common
  import opened Text
  import opened FilesystemUtil

  /** `TimestampData`: the vendor timestamp, its Unix conversion (both in
      nanoseconds), and the system clock reading. */
  datatype TimestampData = TimestampData(varjoTimestamp: int, varjoTimestampUnix: int, systemTimestamp: int)

  /** How a system clock reading is printed, in UTC and in local time. */
  datatype TimeFormat = TimeFormat(utc: int -> string, local: int -> string)

  /** A field that cannot break the CSV structure. */
  predicate PlainField(s: string)
  {
    ',' !in s && '\n' !in s
  }

  /** The date-time renderings hold digits, '-', '_', ':' and '.', so no
      comma and no line end. */
  ghost predicate PlainFormat(fmt: TimeFormat)
  {
    forall t :: PlainField(fmt.utc(t)) && PlainField(fmt.local(t))
  }

  /** `header_`, including the misspelled last name: four names, none of
      which holds a comma. */
  function HeaderNames(): (names: seq<string>)
    ensures |names| == 4 && FreeOf(names, ',')
  {
    ["varjo_timestamp", "varjo_timestamp_unix", "system_timestamp_utc", "sytem_timestamp_local"]
  }

  /** The header row: the names separated by commas, then the line end.
      Unlike the metadata header, no comma precedes the line end. */
  function Header(): (h: string)
    ensures |h| >= 2 && h[|h| - 1] == '\n' && h[|h| - 2] != ','
  {
    Join(HeaderNames(), ",") + "\n"
  }

  /** The header row has four columns: three commas, and splitting at them
      gives the names back. */
  lemma HeaderParses()
    ensures var h := Header();
      && h[|h| - 1] == '\n'
      && SplitOn(h[..|h| - 1], ',') == HeaderNames()
      && Count(h[..|h| - 1], ',') == 3
  {
    var h := Header();
    assert FreeOf(HeaderNames(), ',');
    assert h[..|h| - 1] == Join(HeaderNames(), [',']);
    SplitJoin(HeaderNames(), ',');
    JoinSeparatorCount(HeaderNames(), ',');
  }

  /** The four fields `write_line` prints, in order. */
  function LineFields(d: TimestampData, fmt: TimeFormat): (r: seq<string>)
    ensures |r| == 4
    ensures r[0] == IntText(d.varjoTimestamp) && r[1] == IntText(d.varjoTimestampUnix)
    ensures r[2] == fmt.utc(d.systemTimestamp) && r[3] == fmt.local(d.systemTimestamp)
  {
    [IntText(d.varjoTimestamp), IntText(d.varjoTimestampUnix), fmt.utc(d.systemTimestamp), fmt.local(d.systemTimestamp)]
  }

  /** One record's line: it starts with the vendor timestamp and ends with
      a line end. */
  function Line(d: TimestampData, fmt: TimeFormat): (line: string)
    ensures var first := IntText(d.varjoTimestamp);
      |first| < |line| && line[..|first|] == first
    ensures line[|line| - 1] == '\n'
  {
    Join(LineFields(d, fmt), ",") + "\n"
  }

  /** With a plain rendering, a line has exactly three commas, and splitting
      it at them gives the four fields back. */
  lemma LineParses(d: TimestampData, fmt: TimeFormat)
    requires PlainFormat(fmt)
    ensures var line := Line(d, fmt);
      && line[|line| - 1] == '\n'
      && SplitOn(line[..|line| - 1], ',') == LineFields(d, fmt)
      && Count(line[..|line| - 1], ',') == 3
  {
    var fields := LineFields(d, fmt);
    IntTextFree(d.varjoTimestamp, ',');
    IntTextFree(d.varjoTimestampUnix, ',');
    assert PlainField(fmt.utc(d.systemTimestamp)) && PlainField(fmt.local(d.systemTimestamp));
    assert FreeOf(fields, ',');
    var line := Line(d, fmt);
    assert line[..|line| - 1] == Join(fields, [',']);
    SplitJoin(fields, ',');
    JoinSeparatorCount(fields, ',');
  }

  /** A line determines the vendor timestamp and its Unix conversion. */
  lemma LineDeterminesTimestamps(d1: TimestampData, d2: TimestampData, fmt: TimeFormat)
    requires PlainFormat(fmt) && Line(d1, fmt) == Line(d2, fmt)
    ensures d1.varjoTimestamp == d2.varjoTimestamp && d1.varjoTimestampUnix == d2.varjoTimestampUnix
  {
    LineParses(d1, fmt);
    LineParses(d2, fmt);
    assert LineFields(d1, fmt) == LineFields(d2, fmt);
    IntTextInjective(d1.varjoTimestamp, d2.varjoTimestamp);
    IntTextInjective(d1.varjoTimestampUnix, d2.varjoTimestampUnix);
  }

  /** The lines of a batch, in order: empty exactly when the batch is, and
      otherwise ending with a line end. */
  function Lines(ds: seq<TimestampData>, fmt: TimeFormat): (text: string)
    ensures text == [] <==> ds == []
    ensures ds != [] ==> text[|text| - 1] == '\n'
  {
    if |ds| == 0 then "" else Lines(ds[..|ds| - 1], fmt) + Line(ds[|ds| - 1], fmt)
  }

  lemma LinesSnoc(ds: seq<TimestampData>, i: nat, fmt: TimeFormat)
    requires i < |ds|
    ensures Lines(ds[..i + 1], fmt) == Lines(ds[..i], fmt) + Line(ds[i], fmt)
  {
    assert ds[..i + 1][..i] == ds[..i];
  }

  /** Writing two batches one after the other writes the lines of the whole
      sequence: how the records are split into batches does not matter. */
  lemma {:induction false} LinesAppend(a: seq<TimestampData>, b: seq<TimestampData>, fmt: TimeFormat)
    ensures Lines(a + b, fmt) == Lines(a, fmt) + Lines(b, fmt)
    decreases |b|
  {
    if |b| == 0 {
      assert a + b == a;
    } else {
      var front := b[..|b| - 1];
      LinesAppend(a, front, fmt);
      assert (a + b)[..|a + b| - 1] == a + front;
      assert (a + b)[|a + b| - 1] == b[|b| - 1];
      AppendAssociates(Lines(a, fmt), Lines(front, fmt), Line(b[|b| - 1], fmt));
    }
  }

  /** The loop of `write_header` on the freshly truncated file: each name,
      a comma after every name but the last, then the line end. */
  method WriteHeader(names: seq<string>) returns (out: string)
    ensures out == Join(names, ",") + "\n"
  {
    out := "";
    var i := 0;
    while i < |names|
      invariant 0 <= i <= |names|
      invariant i < |names| ==> out == Terminated(names[..i], ",")
      invariant i == |names| ==> out == Join(names, ",")
    {
      out := out + names[i];
      if i != |names| - 1 {
        out := out + ",";
        TerminatedAppend(names[..i], names[i], ",");
        assert names[..i + 1] == names[..i] + [names[i]];
      } else {
        JoinAsTerminated(names, ",");
      }
      i := i + 1;
    }
    out := out + "\n";
  }

  /** One more field after a separator extends the joined text. */
  lemma JoinStep(out: string, fields: seq<string>, last: string)
    requires |fields| >= 1
    ensures out + Join(fields, ",") + "," + last == out + Join(fields + [last], ",")
  {
    JoinAppend(fields, last, ",");
    AppendAssociates(out, Join(fields, ",") + ",", last);
    AppendAssociates(out, Join(fields, ","), ",");
  }

  /** The four insertions of `write_line`. */
  method AppendLine(out: string, d: TimestampData, fmt: TimeFormat) returns (out': string)
    ensures out' == out + Line(d, fmt)
  {
    var f := LineFields(d, fmt);
    out' := out + f[0] + ",";
    assert Join(f[..1], ",") == f[0];
    out' := out' + f[1] + ",";
    JoinStep(out, f[..1], f[1]);
    assert f[..1] + [f[1]] == f[..2];
    out' := out' + f[2] + ",";
    JoinStep(out, f[..2], f[2]);
    assert f[..2] + [f[2]] == f[..3];
    out' := out' + f[3] + "\n";
    JoinStep(out, f[..3], f[3]);
    assert f[..3] + [f[3]] == f;
    AppendAssociates(out, Join(f, ","), "\n");
  }

  /** The records of a batch written one by one, front to back. */
  method AppendLines(out: string, ds: seq<TimestampData>, fmt: TimeFormat) returns (out': string)
    ensures out' == out + Lines(ds, fmt)
  {
    out' := out;
    var i := 0;
    while i < |ds|
      invariant 0 <= i <= |ds|
      invariant out' == out + Lines(ds[..i], fmt)
    {
      ghost var written := Lines(ds[..i], fmt);
      out' := AppendLine(out', ds[i], fmt);
      LinesSnoc(ds, i, fmt);
      AppendAssociates(out, written, Line(ds[i], fmt));
      i := i + 1;
    }
    assert ds[..i] == ds;
  }

  /** `CsvWriterType`, with a case for any other value of the enumeration. */
  datatype CsvWriterType = Serial | Parallel | CsvWriterTypeCode(code: int)

  /** `CsvWriterOptions`. */
  datatype CsvWriterOptions = CsvWriterOptions(writerType: CsvWriterType, path: FilePath)

  class DataCsvWriter {
    /** Which derived class this is. */
    const parallel: bool
    /** `path_`, made conflict-free at construction. */
    const path: FilePath
    const format: TimeFormat
    /** `csv_file_.is_open()`. */
    var isOpen: bool
    /** The failbit of `csv_file_`: while it is set, insertions write nothing. */
    var streamFailed: bool
    /** The contents of the file. */
    var out: string
    /** `data_que_` of the parallel writer, front at index 0. */
    var queue: seq<TimestampData>
    /** `stop_thread_` of the parallel writer: initialised true. */
    var stop: bool
    /** Whether the parallel writer's worker thread is running. */
    var workerRunning: bool

    predicate Valid()
      reads this
    {
      && (!parallel ==> !workerRunning && queue == [])
      && (parallel ==> (workerRunning <==> isOpen))
      && (workerRunning ==> !streamFailed && !stop)
    }

    /** Whether an insertion reaches the file. */
    predicate Writable()
      reads this
    {
      isOpen && !streamFailed
    }

    /** The constructor: only the path is resolved; nothing is opened. */
    constructor(parallel: bool, existing: set<FilePath>, path: FilePath, format: TimeFormat)
      ensures this.parallel == parallel && this.format == format
      ensures IsResolution(existing, path, this.path) && this.path !in existing
      ensures !isOpen && !streamFailed && out == "" && queue == [] && stop && !workerRunning
      ensures Valid()
    {
      var resolved := SolveFilenameConflict(existing, path);
      this.parallel := parallel;
      this.path := resolved;
      this.format := format;
      isOpen, streamFailed := false, false;
      out := "";
      queue := [];
      stop := true;
      workerRunning := false;
    }

    /** `open`: the file is opened for writing, which truncates it, and the
        header is written; false if the file does not open. Opening a stream
        that is already open fails and sets its failbit while it stays open,
        so `open` still returns true but no header is written and later lines
        are lost until the file is closed and opened again. The parallel
        writer then clears `stop_thread_` and starts its worker; assigning a
        new thread over a running one would terminate the program, so a
        parallel writer is opened only while its worker is not running. */
    method Open(fileOpens: bool) returns (ok: bool)
      requires Valid() && (parallel ==> !workerRunning)
      modifies this
      ensures Valid() && queue == old(queue)
      ensures ok <==> old(isOpen) || fileOpens
      ensures isOpen == ok
      ensures old(isOpen) ==> out == old(out) && streamFailed
      ensures !old(isOpen) && fileOpens ==> out == Header() && !streamFailed
      ensures !old(isOpen) && !fileOpens ==> out == old(out) && streamFailed
      ensures parallel && ok ==> workerRunning && !stop
      ensures !(parallel && ok) ==> workerRunning == old(workerRunning) && stop == old(stop)
    {
      if isOpen {
        streamFailed := true;
      } else if !fileOpens {
        streamFailed := true;
        return false;
      } else {
        isOpen, streamFailed := true, false;
        out := WriteHeader(HeaderNames());
      }
      if parallel {
        stop := false;
        workerRunning := true;
      }
      ok := true;
    }

    /** `close`: the parallel writer sets `stop_thread_` and joins its worker,
        which wakes, sees the flag and exits without writing what is still
        queued; then the file is closed if it is open. Nothing more reaches
        the file. */
    method Close()
      requires Valid()
      modifies this
      ensures Valid() && !isOpen && out == old(out) && queue == old(queue)
      ensures streamFailed == old(streamFailed) && !workerRunning
      ensures stop == (parallel || old(stop))
    {
      if parallel {
        stop := true;
        workerRunning := false;
      }
      isOpen := false;
    }

    /** `submit_TimestampData` of one record: the serial writer writes its
        line (if the file is writable), the parallel writer queues it. */
    method Submit(d: TimestampData)
      requires Valid()
      modifies this
      ensures Valid() && isOpen == old(isOpen) && streamFailed == old(streamFailed)
      ensures stop == old(stop) && workerRunning == old(workerRunning)
      ensures !parallel ==> out == old(out) + (if Writable() then Line(d, format) else "") && queue == old(queue)
      ensures parallel ==> out == old(out) && queue == old(queue) + [d]
    {
      if !parallel {
        if isOpen && !streamFailed {
          out := AppendLine(out, d, format);
        }
      } else {
        queue := queue + [d];
      }
    }

    /** The batch overloads of `submit_TimestampData` (vector or deque, by
        reference or by move): the records are handled in container order,
        written by the serial writer and appended by the parallel one. */
    method SubmitAll(ds: seq<TimestampData>)
      requires Valid()
      modifies this
      ensures Valid() && isOpen == old(isOpen) && streamFailed == old(streamFailed)
      ensures stop == old(stop) && workerRunning == old(workerRunning)
      ensures !parallel ==> out == old(out) + (if Writable() then Lines(ds, format) else "") && queue == old(queue)
      ensures parallel ==> out == old(out) && queue == old(queue) + ds
    {
      if !parallel {
        if isOpen && !streamFailed {
          out := AppendLines(out, ds, format);
        }
      } else {
        var i := 0;
        while i < |ds|
          invariant 0 <= i <= |ds|
          invariant queue == old(queue) + ds[..i]
          invariant out == old(out) && isOpen == old(isOpen) && streamFailed == old(streamFailed)
          invariant stop == old(stop) && workerRunning == old(workerRunning)
        {
          assert ds[..i + 1] == ds[..i] + [ds[i]];
          queue := queue + [ds[i]];
          i := i + 1;
        }
        assert ds[..i] == ds;
      }
    }

    /** One pass of `writer_worker` after its wait, with `stop_thread_`
        clear: the whole queue is taken and its lines written in order. */
    method WorkerStep()
      requires Valid() && workerRunning
      modifies this
      ensures Valid() && queue == [] && out == old(out) + Lines(old(queue), format)
      ensures isOpen == old(isOpen) && streamFailed == old(streamFailed)
      ensures stop == old(stop) && workerRunning == old(workerRunning)
    {
      var pending := queue;
      queue := [];
      out := AppendLines(out, pending, format);
    }
  }

  /** `make_DataCsvWrierPtr` and `make_DataCsvWrierPtr_asISubmit`: a serial
      or a parallel writer by type, `invalid_argument` for any other value. */
  method MakeDataCsvWriter(opt: CsvWriterOptions, existing: set<FilePath>, format: TimeFormat)
    returns (r: Result<DataCsvWriter>)
    ensures r.Ok? <==> !opt.writerType.CsvWriterTypeCode?
    ensures r.Err? ==> r.error == InvalidArgument("Invalid CsvWriterType")
    ensures r.Ok? ==> (fresh(r.value) && r.value.Valid()
      && (r.value.parallel <==> opt.writerType == Parallel) && r.value.format == format
      && IsResolution(existing, opt.path, r.value.path)
      && !r.value.isOpen && r.value.out == "" && r.value.queue == [] && !r.value.workerRunning)
  {
    if opt.writerType == Serial {
      var w := new DataCsvWriter(false, existing, opt.path, format);
      r := Ok(w);
    } else if opt.writerType == Parallel {
      var w := new DataCsvWriter(true, existing, opt.path, format);
      r := Ok(w);
    } else {
      r := Err(InvalidArgument("Invalid CsvWriterType"));
    }
  }
}
