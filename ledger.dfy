/** The success ledger of base_readers.py and base_writers.py: an append-only
    list of booleans, one per attempted unit of work (a date window on the
    read side, a batch on the write side). The source declares it as a class
    attribute, so every instance that does not assign its own `success`
    appends to one shared list; a `Ledger` object held by reference models
    exactly that sharing, and each owner that assigns its own list allocates a
    fresh `Ledger`. */
module Ledgers {

  class Ledger {
    var entries: seq<bool>

    constructor ()
      ensures entries == []
    {
      entries := [];
    }

    /** `is_success`: records one success after all earlier outcomes. */
    method IsSuccess()
      modifies this
      ensures entries == old(entries) + [true]
    {
      entries := entries + [true];
    }

    /** `not_success`: records one failure after all earlier outcomes. */
    method NotSuccess()
      modifies this
      ensures entries == old(entries) + [false]
    {
      entries := entries + [false];
    }
  }

  /** How many outcomes in `s` are successes. */
  function CountTrue(s: seq<bool>): (n: nat)
    ensures n <= |s|
    ensures n == |s| <==> forall i :: 0 <= i < |s| ==> s[i]
    ensures n == 0 <==> forall i :: 0 <= i < |s| ==> !s[i]
  {
    if s == [] then 0 else (if s[0] then 1 else 0) + CountTrue(s[1..])
  }

  lemma {:induction false} CountTrueConcat(a: seq<bool>, b: seq<bool>)
    ensures CountTrue(a + b) == CountTrue(a) + CountTrue(b)
    decreases |a|
  {
    if a == [] {
      assert a + b == b;
    } else {
      assert (a + b)[0] == a[0] && (a + b)[1..] == a[1..] + b;
      CountTrueConcat(a[1..], b);
    }
  }
}
