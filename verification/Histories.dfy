/** What one event brings about and later events leave alone. */
module Histories {

  /** Some event before the i-th starts it and every later one keeps it. */
  ghost predicate Since(i: int, starts: int -> bool, keeps: int -> bool)
  {
    exists m :: 0 <= m < i && starts(m) && forall j | m < j < i :: keeps(j)
  }

  lemma SinceMore(i: nat, starts: int -> bool, keeps: int -> bool)
    ensures Since(i + 1, starts, keeps) <==> starts(i) || (Since(i, starts, keeps) && keeps(i))
  {
    if Since(i, starts, keeps) && keeps(i) {
      var m :| 0 <= m < i && starts(m) && forall j | m < j < i :: keeps(j);
      assert forall j | m < j < i + 1 :: keeps(j);
    }
    if Since(i + 1, starts, keeps) && !starts(i) {
      var m :| 0 <= m < i + 1 && starts(m) && forall j | m < j < i + 1 :: keeps(j);
      assert m < i && keeps(i);
    }
  }

  /** What holds after an event exactly when it starts there, or held before and is kept, holds since it was started. */
  lemma {:induction false} HoldsSince(i: nat, holds: int -> bool, starts: int -> bool, keeps: int -> bool)
    requires !holds(0)
    requires forall j | 0 <= j < i :: holds(j + 1) <==> starts(j) || (holds(j) && keeps(j))
    ensures holds(i) <==> Since(i, starts, keeps)
  {
    if i > 0 {
      HoldsSince(i - 1, holds, starts, keeps);
      SinceMore(i - 1, starts, keeps);
      assert holds(i - 1 + 1) <==> starts(i - 1) || (holds(i - 1) && keeps(i - 1));
    }
  }
}
