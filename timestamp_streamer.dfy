/** The timestamp data streamer (VarjoTimestamp/TimestampDataStreamer.cpp):
    a worker that appends one timestamp record per cycle to a queue, which
    the consumer takes whole.

    The vendor session is not part of this model: the current vendor time,
    its Unix conversion, the system clock and the time a cycle took are
    inputs of each worker step. The sleep is returned, not performed. */
module TimestampStreamer {
  import opened TimestampCsv

  /** `DataStreamerStatus` (`Close`, `Open`). */
  datatype DataStreamerStatus = Closed | Opened

  /** The sleep after a cycle that took `elapsedMs`: the cycle lasts at least
      `separateMs` in all, and exactly that when the work fits in it; a cycle
      that overran does not sleep. */
  function SleepTime(separateMs: int, elapsedMs: int): (r: int)
    ensures r >= 0
    ensures elapsedMs + r >= separateMs
    ensures r > 0 ==> elapsedMs + r == separateMs
  {
    if separateMs - elapsedMs > 0 then separateMs - elapsedMs else 0
  }

  /** The three properties of `SleepTime` leave one possible value: they are
      a complete description of the sleep. */
  lemma SleepTimeUnique(separateMs: int, elapsedMs: int, r: int)
    requires r >= 0 && elapsedMs + r >= separateMs && (r > 0 ==> elapsedMs + r == separateMs)
    ensures r == SleepTime(separateMs, elapsedMs)
  {
  }

  class DataStreamer {
    /** `separate_ms_`. */
    const separateMs: int
    /** `status_`. */
    var status: DataStreamerStatus
    /** `worker_stop_flag_`: initialised true. */
    var stop: bool
    /** Whether the worker thread runs (is joinable). */
    var workerRunning: bool
    /** `data_que_`, front at index 0. */
    var queue: seq<TimestampData>

    predicate Valid()
      reads this
    {
      workerRunning ==> status == Opened && !stop
    }

    /** `is_open`. */
    predicate IsOpen()
      reads this
    {
      status == Opened
    }

    constructor(separateMs: int)
      ensures this.separateMs == separateMs
      ensures status == Closed && stop && !workerRunning && queue == [] && Valid()
    {
      this.separateMs := separateMs;
      status := Closed;
      stop := true;
      workerRunning := false;
      queue := [];
    }

    /** `open`: status Open, the stop flag cleared, then the worker started.
        Assigning a new thread over a joinable one would terminate the
        program, so it is opened only while no worker runs. */
    method Open()
      requires Valid() && !workerRunning
      modifies this
      ensures Valid() && IsOpen() && !stop && workerRunning && queue == old(queue)
    {
      status := Opened;
      stop := false;
      workerRunning := true;
    }

    /** `close`: the stop flag set, the worker joined if there is one, then
        status Close. Without a worker it only sets the flags. */
    method Close()
      requires Valid()
      modifies this
      ensures Valid() && !IsOpen() && stop && !workerRunning && queue == old(queue)
    {
      stop := true;
      workerRunning := false;
      status := Closed;
    }

    /** `take_data`: every queued record, in order, leaving the queue empty. */
    method TakeData() returns (taken: seq<TimestampData>)
      requires Valid()
      modifies this
      ensures Valid() && taken == old(queue) && queue == []
      ensures status == old(status) && stop == old(stop) && workerRunning == old(workerRunning)
    {
      taken := queue;
      queue := [];
    }

    /** One iteration of `datastream_worker` with the stop flag clear: one
        record made from the readings is appended at the back, and the sleep
        before the next iteration is returned. */
    method WorkerStep(varjoNow: int, varjoNowUnix: int, systemNow: int, elapsedMs: int) returns (sleepMs: int)
      requires Valid() && workerRunning
      modifies this
      ensures Valid() && queue == old(queue) + [TimestampData(varjoNow, varjoNowUnix, systemNow)]
      ensures status == old(status) && stop == old(stop) && workerRunning == old(workerRunning)
      ensures sleepMs == SleepTime(separateMs, elapsedMs)
    {
      var data := TimestampData(varjoNow, varjoNowUnix, systemNow);
      queue := queue + [data];
      var sleepTime := separateMs - elapsedMs;
      sleepMs := 0;
      if sleepTime > 0 {
        sleepMs := sleepTime;
      }
    }
  }

  /** `DataStreamerOptions`, without the session. */
  datatype DataStreamerOptions = DataStreamerOptions(separateMs: int)

  /** `make_DataStreamerPtr`: a closed streamer with the given period. */
  method MakeDataStreamer(opt: DataStreamerOptions) returns (s: DataStreamer)
    ensures fresh(s) && s.Valid() && s.separateMs == opt.separateMs
    ensures !s.IsOpen() && s.stop && !s.workerRunning && s.queue == []
  {
    s := new DataStreamer(opt.separateMs);
  }
}
