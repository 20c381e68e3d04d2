/** The timestamp data logger (VarjoTimestamp/TimestampDataLogger.cpp): it
    owns a data streamer and a CSV writer, and its logging thread moves the
    streamer's records to the writer once per check interval.

    The logging thread is modelled by `LoggingStep`, one iteration of its
    loop with the stop flag clear; its sleep is not modelled. */
module TimestampLogger {
  import opened Common
  import opened FilesystemUtil
  import opened TimestampCsv
  import opened TimestampStreamer

  class DataLogger {
    /** `check_interval_ms_`. */
    const checkIntervalMs: int
    /** `dstreamer_`, null until `open`. */
    var streamer: DataStreamer?
    /** `csvwriter_`, null until `open`. */
    var writer: DataCsvWriter?
    /** `stop_thread_`: initialised true. */
    var stop: bool
    /** Whether the logging thread runs (is joinable). */
    var loggingRunning: bool

    predicate Valid()
      reads this, streamer, writer
    {
      && (streamer != null ==> streamer.Valid())
      && (writer != null ==> writer.Valid())
      && (loggingRunning ==> streamer != null && writer != null && !stop)
    }

    constructor(checkIntervalMs: int)
      ensures this.checkIntervalMs == checkIntervalMs
      ensures streamer == null && writer == null && stop && !loggingRunning && Valid()
    {
      this.checkIntervalMs := checkIntervalMs;
      streamer := null;
      writer := null;
      stop := true;
      loggingRunning := false;
    }

    /** `open`: a new streamer and a new writer replace the old ones (the
        writer factory throws `invalid_argument` for an unknown type, after
        the streamer was replaced); each is opened if it is not open; the
        result is true, and the logging thread starts, iff both are open
        afterwards. A false result rolls nothing back: the streamer stays
        open. Replacing the sinks under a running logging thread, or
        assigning a new thread over it, is not defined, so `open` is called
        only while no logging thread runs. */
    method Open(streamOpt: DataStreamerOptions, writerOpt: CsvWriterOptions,
                existing: set<FilePath>, format: TimeFormat, fileOpens: bool) returns (r: Result<bool>)
      requires Valid() && !loggingRunning
      modifies this
      ensures Valid() && streamer != null && fresh(streamer) && streamer.separateMs == streamOpt.separateMs
      ensures r.Ok? <==> !writerOpt.writerType.CsvWriterTypeCode?
      ensures r.Err? ==> (r.error == InvalidArgument("Invalid CsvWriterType") && writer == old(writer)
        && !streamer.IsOpen() && stop == old(stop) && !loggingRunning)
      ensures r.Ok? ==> (writer != null && fresh(writer)
        && (writer.parallel <==> writerOpt.writerType == Parallel)
        && IsResolution(existing, writerOpt.path, writer.path)
        && streamer.IsOpen() && streamer.workerRunning && streamer.queue == []
        && writer.isOpen == fileOpens && writer.out == (if fileOpens then Header() else "")
        && r.value == (streamer.IsOpen() && writer.isOpen)
        && loggingRunning == r.value
        && (r.value ==> !stop) && (!r.value ==> stop == old(stop)))
    {
      var s := MakeDataStreamer(streamOpt);
      streamer := s;
      var made := MakeDataCsvWriter(writerOpt, existing, format);
      if made.Err? {
        return Err(made.error);
      }
      var w := made.value;
      writer := w;
      if !s.IsOpen() {
        s.Open();
      }
      if !w.isOpen {
        var _ := w.Open(fileOpens);
      }
      if s.IsOpen() && w.isOpen {
        stop := false;
        loggingRunning := true;
        return Ok(true);
      }
      r := Ok(false);
    }

    /** `close`: the stop flag is set, the streamer and the writer are closed
        if present and open, then the logging thread is joined. Records still
        in the streamer's queue, or in a parallel writer's queue, are never
        written. */
    method Close()
      requires Valid()
      modifies this, streamer, writer
      ensures Valid() && stop && !loggingRunning
      ensures streamer == old(streamer) && writer == old(writer)
      ensures streamer != null ==> !streamer.IsOpen() && !streamer.workerRunning && streamer.queue == old(streamer.queue)
      ensures writer != null ==> (!writer.isOpen && !writer.workerRunning
        && writer.out == old(writer.out) && writer.queue == old(writer.queue))
    {
      stop := true;
      if streamer != null && streamer.IsOpen() {
        streamer.Close();
      }
      if writer != null && writer.isOpen {
        writer.Close();
      }
      loggingRunning := false;
    }

    /** One iteration of `logging_worker`: all the streamer's records are
        taken and, if the writer is open, submitted to it as one batch. */
    method LoggingStep()
      requires Valid() && loggingRunning
      modifies streamer, writer
      ensures Valid() && streamer.queue == []
      ensures streamer.status == old(streamer.status) && streamer.workerRunning == old(streamer.workerRunning)
      ensures writer.isOpen == old(writer.isOpen) && writer.workerRunning == old(writer.workerRunning)
      ensures var batch := if writer.isOpen then old(streamer.queue) else [];
        && (!writer.parallel ==> writer.out == old(writer.out) + (if writer.Writable() then Lines(batch, writer.format) else ""))
        && (writer.parallel ==> writer.out == old(writer.out) && writer.queue == old(writer.queue) + batch)
    {
      var data := streamer.TakeData();
      if writer != null && writer.isOpen {
        writer.SubmitAll(data);
      }
    }
  }
}
