/** `connectionIdCounter`: a uint32 counter, starting at 0, that is
    incremented before each id it hands out and reset to 1 once it passes
    Ceiling. The goroutine and one-slot channel that deliver the ids are not
    modelled; one call of IdGenerator.Next is one turn of the producer loop. */
module IdCounter {
  import opened Protocol

  /** The largest id ever handed out. */
  const Ceiling: uint32 := 4294967200

  /** Go's `counter++` on a uint32: wraps to 0 after 2^32 - 1. */
  function Increment(c: uint32): (r: uint32)
    ensures c as int < 0xFFFF_FFFF ==> r as int == c as int + 1
    ensures c as int == 0xFFFF_FFFF ==> r == 0
  {
    ((c as int + 1) % 0x1_0000_0000) as uint32
  }

  /** The counter after one turn of the producer loop; this is also the id it
      then hands out. From any value the loop can reach it gives an id in
      1..Ceiling: one more than before, or 1 right after Ceiling. */
  function Step(c: uint32): (r: uint32)
    ensures c <= Ceiling ==> 1 <= r <= Ceiling
    ensures c < Ceiling ==> r as int == c as int + 1
    ensures c == Ceiling ==> r == 1
  {
    var n := Increment(c);
    if n > Ceiling then 1 else n
  }

  /** The counter after k ids have been handed out; for k >= 1 it is the
      k-th id. It never leaves 0..Ceiling and is 0 only before the first id. */
  function Counter(k: nat): (r: uint32)
    ensures r <= Ceiling
    ensures k >= 1 ==> r >= 1
  {
    if k == 0 then 0 else Step(Counter(k - 1))
  }

  /** The k-th id in closed form: ids run 1, 2, ..., Ceiling, 1, 2, ... */
  lemma {:induction false} CounterClosedForm(k: nat)
    requires k >= 1
    ensures Counter(k) as int == (k - 1) % Ceiling as int + 1
  {
    if k > 1 {
      CounterClosedForm(k - 1);
      var m := k - 2;
      var c := Ceiling as int;
      assert (m + 1) % c == if m % c == c - 1 then 0 else m % c + 1 by {
        var q := m / c;
        assert m == q * c + m % c;
        if m % c == c - 1 {
          assert m + 1 == (q + 1) * c;
        } else {
          assert m + 1 == q * c + (m % c + 1);
        }
      }
    }
  }

  /** The first id handed out is 1, and the first Ceiling ids are 1..Ceiling in order. */
  lemma {:induction false} CounterBeforeWrap(k: nat)
    requires k <= Ceiling as int
    ensures Counter(k) as int == k
  {
    if k > 0 {
      CounterBeforeWrap(k - 1);
    }
  }

  /** Two ids handed out are equal exactly when they are a whole number of
      cycles of length Ceiling apart: no id repeats within a cycle. */
  lemma IdsRepeatOnlyAfterFullCycle(i: nat, j: nat)
    requires 1 <= i <= j
    ensures Counter(i) == Counter(j) <==> (j - i) % Ceiling as int == 0
  {
    CounterClosedForm(i);
    CounterClosedForm(j);
    var c := Ceiling as int;
    var qi, ri := (i - 1) / c, (i - 1) % c;
    var qj, rj := (j - 1) / c, (j - 1) % c;
    assert i - 1 == qi * c + ri;
    assert j - 1 == qj * c + rj;
    assert j - i == (qj - qi) * c + (rj - ri);
    if ri == rj {
      assert j - i == (qj - qi) * c;
    }
  }

  /** The producer of connection ids. */
  class IdGenerator {
    /** The last id handed out, 0 before the first. */
    var counter: uint32
    /** How many ids have been handed out. */
    ghost var issued: nat

    ghost predicate Valid()
      reads this
    {
      counter == Counter(issued)
    }

    constructor ()
      ensures Valid() && issued == 0 && counter == 0
    {
      counter := 0;
      issued := 0;
    }

    /** Hands out the next id: the counter is incremented, and reset to 1 if
        it went past Ceiling. */
    method Next() returns (id: uint32)
      requires Valid()
      modifies this
      ensures Valid() && issued == old(issued) + 1
      ensures id == counter && id == Step(old(counter))
      ensures 1 <= id <= Ceiling
      ensures old(counter) < Ceiling ==> id as int == old(counter) as int + 1
      ensures old(counter) == Ceiling ==> id == 1
    {
      counter := Increment(counter);
      // Reset before the uint32 overflows.
      if counter > Ceiling {
        counter := 1;
      }
      issued := issued + 1;
      id := counter;
    }
  }
}
