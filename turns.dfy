/** Role-tagged conversation turns and their character budget (main.py). */
module Turns {

  /** The two roles main.py writes into a conversation: the user's text and
      the completion provider's reply. */
  datatype Role = User | Assistant

  /** One `{"role": ..., "content": ...}` dictionary of a conversation. A
      Dafny `char` is a Unicode scalar value, so `|content|` is what Python's
      `len` returns for a `str`. */
  datatype Turn = Turn(role: Role, content: string)

  /** The sum of the content lengths of the turns, the quantity the budget
      is measured in (main.py:25). */
  function TotalLength(history: seq<Turn>): nat
  {
    if history == [] then 0 else |history[0].content| + TotalLength(history[1..])
  }

  /** The budget is additive over concatenation. */
  lemma {:induction false} TotalLengthAppend(a: seq<Turn>, b: seq<Turn>)
    ensures TotalLength(a + b) == TotalLength(a) + TotalLength(b)
  {
    if a != [] {
      assert (a + b)[1..] == a[1..] + b;
      TotalLengthAppend(a[1..], b);
    } else {
      assert a + b == b;
    }
  }

  /** Dropping turns from the front never increases the total. */
  lemma {:induction false} TotalLengthSuffixMonotone(history: seq<Turn>, i: nat, j: nat)
    requires i <= j <= |history|
    ensures TotalLength(history[j..]) <= TotalLength(history[i..])
    decreases j - i
  {
    if i < j {
      assert history[i..][1..] == history[i + 1..];
      TotalLengthSuffixMonotone(history, i + 1, j);
    }
  }

  /** A one-turn conversation costs exactly that turn's content length. */
  lemma TotalLengthSingle(t: Turn)
    ensures TotalLength([t]) == |t.content|
  {
    assert [t][1..] == [];
  }
}
