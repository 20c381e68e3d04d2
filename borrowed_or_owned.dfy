/** `BorrowedOrOwned<T>` (util/BorrowedOrOwned.hpp): either a reference to a
    value the caller keeps, or a value moved in and owned. A borrowed value
    is represented by the value the reference designates. */
module BorrowedOrOwned {
  datatype BorrowedOrOwned<T> = Borrowed(referent: T) | Owned(value: T)

  /** The value seen through either alternative. */
  function View<T>(b: BorrowedOrOwned<T>): T
  {
    match b
    case Borrowed(r) => r
    case Owned(v) => v
  }

  /** `owns`: whether the owned alternative is held. */
  predicate Owns<T>(b: BorrowedOrOwned<T>)
  {
    b.Owned?
  }

  /** Construction from a const reference borrows: the view is the referent
      and nothing is owned. */
  function FromConstRef<T>(t: T): (b: BorrowedOrOwned<T>)
    ensures View(b) == t && !Owns(b)
  {
    Borrowed(t)
  }

  /** Construction from an rvalue takes ownership of the moved value. */
  function FromRvalue<T>(t: T): (b: BorrowedOrOwned<T>)
    ensures View(b) == t && Owns(b)
  {
    Owned(t)
  }

  /** `materialize`: the owned value moved out, or a copy of the view; either
      way equal to the view. */
  function Materialize<T>(b: BorrowedOrOwned<T>): (t: T)
    ensures t == View(b)
  {
    if Owns(b) then b.value else View(b)
  }

  /** A value owns exactly when it was built from an rvalue. */
  lemma OwnsIffFromRvalue<T>(b: BorrowedOrOwned<T>)
    ensures Owns(b) <==> exists t :: b == FromRvalue(t)
    ensures !Owns(b) <==> exists t :: b == FromConstRef(t)
  {
    if Owns(b) {
      assert b == FromRvalue(b.value);
    } else {
      assert b == FromConstRef(b.referent);
    }
  }
}
