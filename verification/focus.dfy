/**
  The focus controller: which of the three kanban columns receives keys and
  the focused rendering, and how `Next` and `Prev` move it.
 */
module Focus {
  import GoArith

  /** A column position, kancli's `status` type: to do, in progress, done. */
  type Status = s: int | 0 <= s < 3

  const Todo: Status := 0
  const InProgress: Status := 1
  const Done: Status := 2

  /** Advances focus one column to the right, wrapping from the last column to
      the first by an explicit branch; the other columns step with Go's `%`. */
  function Next(f: Status): (r: Status)
    ensures f == Done ==> r == Todo
    ensures f != Done ==> r == f + 1
    ensures r == (f + 1) % 3
  {
    if f == Done then Todo else GoArith.Rem(f + 1, 3)
  }

  /** Moves focus one column to the left. The first column wraps to the last by
      an explicit branch, so Go's `%` only ever sees a non-negative operand. */
  function Prev(f: Status): (r: Status)
    ensures f == Todo ==> r == Done
    ensures f != Todo ==> r == f - 1
    ensures r == (f + 2) % 3
  {
    if f == Todo then Done else GoArith.Rem(f - 1, 3)
  }

  lemma NextUndoesPrev(f: Status)
    ensures Next(Prev(f)) == f
  {
  }

  lemma PrevUndoesNext(f: Status)
    ensures Prev(Next(f)) == f
  {
  }

  lemma NextHasPeriodThree(f: Status)
    ensures Next(Next(Next(f))) == f
    ensures Next(f) != f && Next(Next(f)) != f
  {
  }

  lemma PrevHasPeriodThree(f: Status)
    ensures Prev(Prev(Prev(f))) == f
    ensures Prev(f) != f && Prev(Prev(f)) != f
  {
  }

  /** `n` forward steps. */
  function NextN(f: Status, n: nat): Status
    decreases n
  {
    if n == 0 then f else Next(NextN(f, n - 1))
  }

  /** `n` backward steps. */
  function PrevN(f: Status, n: nat): Status
    decreases n
  {
    if n == 0 then f else Prev(PrevN(f, n - 1))
  }

  /** Stepping `k` further columns from a position reduced modulo three is
      stepping from the unreduced position. */
  lemma ModShift(a: int, k: int)
    ensures (a % 3 + k) % 3 == (a + k) % 3
  {
  }

  /** `n` forward steps advance focus by `n` positions modulo three. */
  lemma {:induction false} NextNAdvances(f: Status, n: nat)
    ensures NextN(f, n) as int == (f as int + n) % 3
    decreases n
  {
    if n > 0 {
      var g: int := NextN(f, n - 1);
      NextNAdvances(f, n - 1);
      assert g == (f as int + n - 1) % 3;
      var h: int := NextN(f, n);
      assert h == (g + 1) % 3;
      ModShift(f as int + n - 1, 1);
    }
  }

  /** `n` backward steps retreat focus by `n` positions modulo three. */
  lemma {:induction false} PrevNRetreats(f: Status, n: nat)
    ensures PrevN(f, n) as int == (f as int - n) % 3
    decreases n
  {
    if n > 0 {
      var g: int := PrevN(f, n - 1);
      PrevNRetreats(f, n - 1);
      assert g == (f as int - n + 1) % 3;
      var h: int := PrevN(f, n);
      assert h == (g + 2) % 3;
      ModShift(f as int - n + 1, 2);
      ModShift(f as int - n, 3);
    }
  }

  /** Any number of forward steps is undone by as many backward steps. */
  lemma PrevNUndoesNextN(f: Status, n: nat)
    ensures PrevN(NextN(f, n), n) == f
  {
    var g := NextN(f, n);
    NextNAdvances(f, n);
    PrevNRetreats(g, n);
    assert g as int == (f as int + n) % 3;
    ModShift(f as int + n, -(n as int));
    var h: int := PrevN(g, n);
    assert h == (f as int) % 3;
  }

  /** Walking focus forward is periodic with period three. */
  lemma NextNIsPeriodic(f: Status, n: nat)
    ensures NextN(f, n + 3) == NextN(f, n)
  {
    NextNAdvances(f, n);
    NextNAdvances(f, n + 3);
    ModShift(f as int + n, 3);
    var a: int := NextN(f, n);
    var b: int := NextN(f, n + 3);
    assert b == (f as int + n + 3) % 3 == (f as int + n) % 3 == a;
  }

  /** Walking focus backward is periodic with period three. */
  lemma PrevNIsPeriodic(f: Status, n: nat)
    ensures PrevN(f, n + 3) == PrevN(f, n)
  {
    PrevNRetreats(f, n);
    PrevNRetreats(f, n + 3);
    ModShift(f as int - n - 3, 3);
    var a: int := PrevN(f, n);
    var b: int := PrevN(f, n + 3);
    assert b == (f as int - n - 3) % 3 == (f as int - n) % 3 == a;
  }
}
