/** `trim_history` (main.py:24-29): evict the oldest turns until the
    conversation fits the character budget or nothing is left. */
module Trim {
  import opened Turns

  /** The default budget of `trim_history`, also the one `send_welcome`
      uses (main.py:24, main.py:52). */
  const DefaultMaxLength: int := 4096

  /** `r` is `history` with some turns removed from the front only; the
      survivors keep their order. */
  ghost predicate IsSuffix(r: seq<Turn>, history: seq<Turn>)
  {
    |r| <= |history| && r == history[|history| - |r|..]
  }

  /** A trimmed conversation is within the budget, or it is empty: the loop
      also evicts a lone turn that exceeds the budget on its own. */
  ghost predicate WithinBudget(r: seq<Turn>, maxLength: int)
  {
    TotalLength(r) <= maxLength || r == []
  }

  /** Every suffix of `history` longer than `r` is over the budget: no turn
      was evicted that could have been kept. */
  ghost predicate NoNeedlessEviction(r: seq<Turn>, history: seq<Turn>, maxLength: int)
    requires |r| <= |history|
  {
    forall k :: 0 <= k < |history| - |r| ==> TotalLength(history[k..]) > maxLength
  }

  /** The declarative reading of trimming: the longest suffix that fits. */
  ghost predicate IsMinimalEviction(r: seq<Turn>, history: seq<Turn>, maxLength: int)
  {
    IsSuffix(r, history) && WithinBudget(r, maxLength) && NoNeedlessEviction(r, history, maxLength)
  }

  /** The value `trim_history` returns: one front turn is popped at a time
      while the list is non-empty and its total exceeds `maxLength`. */
  function Trimmed(history: seq<Turn>, maxLength: int): (r: seq<Turn>)
    ensures |r| <= |history|
    decreases |history|
  {
    if history != [] && TotalLength(history) > maxLength then
      Trimmed(history[1..], maxLength)
    else
      history
  }

  /** Trimming removes turns from the front only and keeps the survivors in
      their order. */
  lemma {:induction false} TrimmedIsSuffix(history: seq<Turn>, maxLength: int)
    ensures IsSuffix(Trimmed(history, maxLength), history)
    decreases |history|
  {
    if history != [] && TotalLength(history) > maxLength {
      TrimmedIsSuffix(history[1..], maxLength);
      var r := Trimmed(history, maxLength);
      assert history[1..][|history| - 1 - |r|..] == history[|history| - |r|..];
    }
  }

  /** After trimming, the total is within the budget, or the list is empty. */
  lemma {:induction false} TrimmedWithinBudget(history: seq<Turn>, maxLength: int)
    ensures TotalLength(Trimmed(history, maxLength)) <= maxLength || Trimmed(history, maxLength) == []
    decreases |history|
  {
    if history != [] && TotalLength(history) > maxLength {
      TrimmedWithinBudget(history[1..], maxLength);
    }
  }

  /** Only turns that had to go were evicted: each longer suffix of the input
      exceeds the budget. */
  lemma {:induction false} TrimmedNoNeedlessEviction(history: seq<Turn>, maxLength: int)
    ensures forall k :: 0 <= k < |history| - |Trimmed(history, maxLength)| ==>
              TotalLength(history[k..]) > maxLength
    decreases |history|
  {
    if history != [] && TotalLength(history) > maxLength {
      var tail := history[1..];
      TrimmedNoNeedlessEviction(tail, maxLength);
      forall k | 0 <= k < |history| - |Trimmed(history, maxLength)|
        ensures TotalLength(history[k..]) > maxLength
      {
        if k > 0 {
          assert history[k..] == tail[k - 1..];
        }
      }
    }
  }

  /** `Trimmed` is exactly the longest suffix within the budget. */
  lemma TrimmedIsMinimalEviction(history: seq<Turn>, maxLength: int)
    ensures IsMinimalEviction(Trimmed(history, maxLength), history, maxLength)
  {
    TrimmedIsSuffix(history, maxLength);
    TrimmedWithinBudget(history, maxLength);
    TrimmedNoNeedlessEviction(history, maxLength);
  }

  /** The longest fitting suffix is unique, so any eviction that keeps a
      suffix, fits and evicts nothing needlessly is what `trim_history`
      returns. */
  lemma MinimalEvictionUnique(r: seq<Turn>, history: seq<Turn>, maxLength: int)
    requires IsMinimalEviction(r, history, maxLength)
    ensures r == Trimmed(history, maxLength)
  {
    var t := Trimmed(history, maxLength);
    TrimmedIsMinimalEviction(history, maxLength);
    var kt, kr := |history| - |t|, |history| - |r|;
    assert t == history[kt..] && r == history[kr..];
    // Whichever of the two is longer is over the budget by the other's
    // minimality, yet it is non-empty and within the budget.
    assert kt < kr ==> TotalLength(t) > maxLength;
    assert kr < kt ==> TotalLength(r) > maxLength;
  }

  /** A conversation already within the budget comes back unchanged. */
  lemma TrimmedKeepsFitting(history: seq<Turn>, maxLength: int)
    requires TotalLength(history) <= maxLength
    ensures Trimmed(history, maxLength) == history
  {
  }

  /** Trimming twice with the same budget is trimming once. */
  lemma TrimmedIdempotent(history: seq<Turn>, maxLength: int)
    ensures Trimmed(Trimmed(history, maxLength), maxLength) == Trimmed(history, maxLength)
  {
    TrimmedWithinBudget(history, maxLength);
  }

  /** Trimming empties a non-empty conversation exactly when its newest turn
      alone is over the budget. */
  lemma TrimmedEmptyIff(history: seq<Turn>, maxLength: int)
    requires history != []
    ensures Trimmed(history, maxLength) == [] <==> |history[|history| - 1].content| > maxLength
  {
    var t := Trimmed(history, maxLength);
    var last := history[|history| - 1];
    assert history[|history| - 1..] == [last];
    TotalLengthSingle(last);
    if t == [] {
      TrimmedNoNeedlessEviction(history, maxLength);
      assert TotalLength(history[|history| - 1..]) > maxLength;
    } else {
      TrimmedWithinBudget(history, maxLength);
      TrimmedIsSuffix(history, maxLength);
      var n := |history|;
      assert t == history[n - |t|..];
      TotalLengthSuffixMonotone(history, n - |t|, n - 1);
    }
  }

  /** `trim_history` (main.py:24-29): the running `currentLength` starts as the
      total and drops by each popped turn's length. */
  method TrimHistory(history: seq<Turn>, maxLength: int) returns (r: seq<Turn>)
    ensures r == Trimmed(history, maxLength)
    ensures IsSuffix(r, history)
    ensures TotalLength(r) <= maxLength || r == []
    ensures forall k :: 0 <= k < |history| - |r| ==> TotalLength(history[k..]) > maxLength
  {
    var currentLength := TotalLength(history);
    r := history;
    while r != [] && currentLength > maxLength
      invariant currentLength == TotalLength(r)
      invariant Trimmed(r, maxLength) == Trimmed(history, maxLength)
      decreases |r|
    {
      var removed := r[0];
      r := r[1..];
      currentLength := currentLength - |removed.content|;
    }
    TrimmedIsMinimalEviction(history, maxLength);
  }
}
