/** Numbers of the scheduler: gigabytes that may be unbounded, and moments that may
    never come.  Gigabytes and seconds are exact reals. */
module Quantities {

  datatype Option<+T> = None | Some(value: T)

  /** An amount of memory or VRAM.  `Unbounded` is the infinity used before the first
      monitor snapshot, when memory and VRAM do not gate admission. */
  datatype Amount = Finite(gb: real) | Unbounded {

    /** `need` is strictly below this amount: the only test admission ever makes. */
    predicate Exceeds(need: real) {
      Unbounded? || need < gb
    }

    function Minus(x: real): Amount {
      if Unbounded? then Unbounded else Finite(gb - x)
    }

    function Plus(x: real): Amount {
      if Unbounded? then Unbounded else Finite(gb + x)
    }

    predicate AtMost(other: Amount) {
      other.Unbounded? || (Finite? && gb <= other.gb)
    }
  }

  /** A moment counted from the current dispatch cycle; `Infinity` never comes. */
  datatype Moment = At(seconds: real) | Infinity {

    predicate NoLaterThan(other: Moment) {
      other.Infinity? || (At? && seconds <= other.seconds)
    }
  }

  /** A set that is not empty has a member to pick. */
  lemma SomeMember(s: set<int>)
    requires s != {}
    ensures exists x :: x in s
  {
    assert (forall x :: x !in s) ==> s == {};
  }
}
