/** The hand-over between the producer and the worker thread of the parallel
    video writer (VarjoVSTFrame/VarjoVSTVideoWriter.cpp) and of the parallel
    previewer (VarjoVSTFrame/VarjoVSTVideoPreviewer.cpp), as a sequence of
    atomic steps.

    The producer pushes frames onto a submit queue. The worker waits until the
    queue is not empty, swaps the whole queue out under the lock, and writes
    that batch with the lock released. `close` raises the stop flag and joins
    the worker. Both worker loops test the flag only at the top of an
    iteration, so a worker that is writing a batch when the flag goes up
    finishes that batch and returns without taking the queue again. */
module BatchWorker {

  /** One atomic step while the sink is open: the producer submits a frame,
      the worker takes the queue, or the worker finishes writing its batch. */
  datatype Step<T> = Submit(frame: T) | Take | Finish

  /** The submit queue (front at index 0), the batch the worker is writing,
      whether it is writing one, and everything written so far. */
  datatype Sink<T> = Sink(queue: seq<T>, batch: seq<T>, writing: bool, out: seq<T>)

  /** A waiting worker holds no batch. */
  predicate Consistent<T>(s: Sink<T>)
  {
    s.writing || s.batch == []
  }

  /** Everything submitted and not yet lost, in submission order. */
  function Pending<T>(s: Sink<T>): seq<T>
  {
    s.out + s.batch + s.queue
  }

  /** The state right after `open` started the worker. */
  function Opened<T>(): (s: Sink<T>)
    ensures Consistent(s) && Pending(s) == []
  {
    Sink([], [], false, [])
  }

  /** One step. `Take` happens only when the worker waits and the queue is
      not empty (its wait predicate while the stop flag is down), `Finish`
      only while it writes a batch; a step that cannot happen leaves the
      state as it is. No step loses or reorders a frame. */
  function Apply<T>(s: Sink<T>, e: Step<T>): (s': Sink<T>)
    requires Consistent(s)
    ensures Consistent(s')
    ensures Pending(s') == Pending(s) + (if e.Submit? then [e.frame] else [])
  {
    match e
    case Submit(f) =>
      assert Pending(s) + [f] == s.out + s.batch + (s.queue + [f]);
      s.(queue := s.queue + [f])
    case Take =>
      if !s.writing && s.queue != [] then s.(queue := [], batch := s.queue, writing := true) else s
    case Finish =>
      if s.writing then s.(out := s.out + s.batch, batch := [], writing := false) else s
  }

  /** The frames the `Submit` steps carry, in order: a frame is among them
      exactly when some step submits it, and there is at most one per step. */
  function Submitted<T>(steps: seq<Step<T>>): (r: seq<T>)
    ensures |r| <= |steps|
    ensures forall i :: 0 <= i < |r| ==> Submit(r[i]) in steps
    ensures forall j :: 0 <= j < |steps| && steps[j].Submit? ==> steps[j].frame in r
  {
    if steps == [] then []
    else
      var init, last := steps[..|steps| - 1], steps[|steps| - 1];
      assert forall j :: 0 <= j < |init| ==> init[j] == steps[j];
      Submitted(init) + (if last.Submit? then [last.frame] else [])
  }

  /** The state after the steps, applied in order. */
  function Run<T>(s: Sink<T>, steps: seq<Step<T>>): (s': Sink<T>)
    requires Consistent(s)
    ensures Consistent(s')
  {
    if steps == [] then s else Apply(Run(s, steps[..|steps| - 1]), steps[|steps| - 1])
  }

  /** Whatever the interleaving, every submitted frame is written, held
      in the batch being written or still queued, in submission order. */
  lemma {:induction false} RunConserves<T>(s: Sink<T>, steps: seq<Step<T>>)
    requires Consistent(s)
    ensures Pending(Run(s, steps)) == Pending(s) + Submitted(steps)
  {
    if steps != [] {
      var init := steps[..|steps| - 1];
      var last := steps[|steps| - 1];
      RunConserves(s, init);
      assert Pending(Run(s, steps)) == Pending(Run(s, init)) + (if last.Submit? then [last.frame] else []);
    }
  }

  /** What the worker still writes after `close` raised the stop flag, as the
      loops are written: a worker in the middle of a batch finishes it and
      returns; a waiting worker is woken by the flag, swaps out the whole
      queue and writes it. The result is a prefix of what is pending, and is
      all of it unless frames were queued while a batch was being written. */
  function FlushedAtClose<T>(writing: bool, batch: seq<T>, queue: seq<T>): (r: seq<T>)
    requires writing || batch == []
    ensures r <= batch + queue
    ensures r == batch + queue <==> !writing || queue == []
  {
    if writing then batch else queue
  }

  /** The output once `close` has joined the worker, as written. */
  function ClosedAsWritten<T>(s: Sink<T>): (r: seq<T>)
    requires Consistent(s)
    ensures r <= Pending(s)
  {
    s.out + FlushedAtClose(s.writing, s.batch, s.queue)
  }

  /** As written, a `close` loses exactly the frames queued while the batch
      in flight is written, and nothing when the worker waits. */
  lemma {:induction false} ClosedAsWrittenLoses<T>(steps: seq<Step<T>>)
    ensures var s := Run(Opened(), steps);
      ClosedAsWritten(s) + (if s.writing then s.queue else []) == Submitted(steps)
  {
    var s := Run(Opened(), steps);
    RunConserves(Opened(), steps);
    assert Pending(Opened<T>()) == [];
  }

  /** A frame submitted while the worker writes the previous batch, followed
      by `close`, is never written. */
  lemma CloseDuringBatchLosesFrame<T>(a: T, b: T)
    ensures var steps := [Submit(a), Take, Submit(b)];
      Submitted(steps) == [a, b] && ClosedAsWritten(Run(Opened(), steps)) == [a]
  {
    var steps := [Submit(a), Take, Submit(b)];
    var s0: Sink<T> := Opened();
    assert steps[..2] == [Submit(a), Take] && steps[..2][..1] == [Submit(a)];
    assert [Submit(a)][..0] == [];
    assert Run(s0, [Submit(a)]) == Sink([a], [], false, []);
    assert Run(s0, steps[..2]) == Sink([], [a], true, []);
    assert Run(s0, steps) == Sink([b], [a], true, []);
    assert Submitted(steps[..2]) == [a];
  }

  /** The intended `close`, which writes out the whole submit queue as its
      comment says: after the flag is up, the worker writes its batch and then
      keeps taking while the queue is not empty. */
  function Closed<T>(s: Sink<T>): (r: seq<T>)
    requires Consistent(s)
    ensures ClosedAsWritten(s) <= r
    ensures r == ClosedAsWritten(s) <==> !s.writing || s.queue == []
  {
    s.out + s.batch + s.queue
  }

  /** With the intended `close`, every submitted frame is written exactly
      once and in submission order, whatever the interleaving of steps. */
  lemma {:induction false} CloseWritesEverySubmittedFrame<T>(steps: seq<Step<T>>)
    ensures Closed(Run(Opened(), steps)) == Submitted(steps)
  {
    RunConserves(Opened(), steps);
    assert Pending(Opened<T>()) == [];
  }
}
