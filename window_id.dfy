/** The 64-bit window identifier and its process-wide allocator. */
module WindowId {
  import opened Numeric

  /** `window::Id`: a plain 64-bit number. */
  datatype Id = Id(value: u64)

  /** The identifier no window ever carries. */
  const NONE: Id := Id(0)

  /** The counter's initial value. */
  const COUNT_START: u64 := 1

  /**
   * One call of `unique()` on a counter holding `count`: the id handed out and
   * the new counter value. A draw of 0 (after the counter wrapped) is thrown away
   * and the counter is drawn again.
   */
  function UniqueStep(count: u64): (r: (Id, u64))
    ensures r.0 != NONE
    ensures r.0.value == (if count == 0 then 1 else count)
    ensures r.1 == WrappingInc64(r.0.value)
  {
    var first := count;
    var next := WrappingInc64(count);
    if first == 0 then (Id(next), WrappingInc64(next)) else (Id(first), next)
  }

  /** The ids handed out by `n` successive calls starting from a counter at `count`. */
  function Issued(count: u64, n: nat): seq<Id>
    decreases n
  {
    if n == 0 then [] else [UniqueStep(count).0] + Issued(UniqueStep(count).1, n - 1)
  }

  /** The global `COUNT` behind `window::Id::unique`. */
  class IdAllocator {
    var count: u64

    constructor ()
      ensures count == COUNT_START
    {
      count := COUNT_START;
    }

    /** Hands out the next id; two `fetch_add`s happen when the first yields 0. */
    method Unique() returns (id: Id)
      modifies this
      ensures (id, count) == UniqueStep(old(count))
    {
      var drawn := count;
      count := WrappingInc64(count);
      if drawn == 0 {
        drawn := count;
        count := WrappingInc64(count);
      }
      id := Id(drawn);
    }
  }

  /** The first id handed out by a fresh allocator is `Id(1)`. */
  lemma FirstUniqueIsOne()
    ensures UniqueStep(COUNT_START).0 == Id(1)
  {
  }

  /**
   * While the counter does not wrap, `n` successive calls return
   * `count, count + 1, ...`: strictly increasing, hence pairwise distinct, ids.
   */
  lemma {:induction false} IssuedIncreasing(count: u64, n: nat)
    requires 1 <= count
    requires count + n <= U64_MAX
    ensures |Issued(count, n)| == n
    ensures forall i :: 0 <= i < n ==> Issued(count, n)[i].value == count + i
    ensures forall i, j :: 0 <= i < j < n ==> Issued(count, n)[i].value < Issued(count, n)[j].value
    decreases n
  {
    if n > 0 {
      IssuedIncreasing(count + 1, n - 1);
      assert UniqueStep(count) == (Id(count), count + 1);
      forall i | 0 <= i < n
        ensures Issued(count, n)[i].value == count + i
      {
        if i > 0 {
          assert Issued(count, n)[i] == Issued(count + 1, n - 1)[i - 1];
        }
      }
    }
  }
}
