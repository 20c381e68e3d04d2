/** The `FILE*` the video writers and previewers get from `_popen`, and the
    way their `close` releases it.

    `_popen` succeeding or failing is an input of the model. Closing as the
    writers are written keeps the pointer after `_pclose`, so the destructor's
    second `close` hands a released handle to `_pclose` again; the classes of
    this model use the corrected close, which forgets the pointer. */
module Pipes {

  /** A null pointer, or a handle that `_pclose` may already have released. */
  datatype Pipe = Null | Handle(released: bool)

  /** A pipe the writer may still write to and close. */
  predicate Live(p: Pipe)
  {
    p == Handle(false)
  }

  /** `_popen`: a live handle on success, null otherwise. */
  function Popen(ok: bool): (p: Pipe)
    ensures Live(p) <==> ok
    ensures p == Null <==> !ok
  {
    if ok then Handle(false) else Null
  }

  /** `close` as written (VarjoVSTVideoWriter.cpp and VarjoVSTVideoPreviewer.cpp):
      `_pclose` when the pointer is non-null, and the pointer is kept. */
  function CloseAsWritten(p: Pipe): (p': Pipe)
    ensures p.Handle? <==> p'.Handle?
    ensures p'.Handle? ==> p'.released
  {
    if p.Handle? then Handle(true) else Null
  }

  /** Whether a close of `p` as written hands `_pclose` a released handle. */
  predicate ReleasesTwice(p: Pipe)
  {
    p.Handle? && p.released
  }

  /** An explicit `close` followed by the destructor's `close` releases a
      successfully opened pipe twice. */
  lemma CloseThenDestroyReleasesTwice()
    ensures !ReleasesTwice(Popen(true))
    ensures ReleasesTwice(CloseAsWritten(Popen(true)))
  {
  }

  /** The corrected close: `_pclose` when non-null, then the pointer is null. */
  function ClosePipe(p: Pipe): (p': Pipe)
    ensures p' == Null
    ensures !ReleasesTwice(p') && !Live(p')
  {
    Null
  }

  /** Closing correctly any number of times releases a handle at most once:
      a second close finds a null pointer. */
  lemma CloseIsIdempotent(p: Pipe)
    ensures ClosePipe(ClosePipe(p)) == ClosePipe(p)
    ensures !ReleasesTwice(ClosePipe(p))
  {
  }
}
