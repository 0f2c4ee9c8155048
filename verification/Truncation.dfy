/** Cutting an attached file to the context budget (io_iii/core/dialogue_session.py, in run_turn). */
module Truncation {

  /** The sentence marks in the order they are tried. */
  const MARKS := ['.', '\n', '!', '?']

  /** `text[:n]`. */
  function PyTake(text: string, n: int): string {
    if n >= |text| then text
    else if n >= 0 then text[..n]
    else if |text| + n >= 0 then text[..|text| + n]
    else ""
  }

  /** The last index of c in text at or after `start`, or -1. */
  function LastIndex(text: string, c: char, start: nat): (r: int)
    ensures r == -1 || (start <= r < |text| && text[r] == c)
    ensures forall j | start <= j < |text| && text[j] == c :: j <= r
    decreases |text|
  {
    if |text| <= start then -1
    else if text[|text| - 1] == c then |text| - 1
    else LastIndex(text[..|text| - 1], c, start)
  }

  /** `text.rfind(c, start)`: a negative start counts from the end. */
  function RFind(text: string, c: char, start: int): int {
    LastIndex(text, c, if start >= 0 then start else if |text| + start >= 0 then |text| + start else 0)
  }

  /** The cut after trying the given marks in order. */
  function CutAt(taken: string, budget: int, marks: seq<char>): string {
    if marks == [] then taken
    else
      var i := RFind(taken, marks[0], budget / 2);
      if i > 0 then taken[..i + 1] else CutAt(taken, budget, marks[1..])
  }

  function Truncated(text: string, budget: int): string {
    CutAt(PyTake(text, budget), budget, MARKS)
  }

  /** The truncation loop. */
  method Truncate(text: string, budget: int) returns (kept: string)
    ensures kept == Truncated(text, budget)
  {
    kept := PyTake(text, budget);
    for m := 0 to |MARKS|
      invariant kept == PyTake(text, budget)
      invariant Truncated(text, budget) == CutAt(kept, budget, MARKS[m..])
    {
      assert MARKS[m..][0] == MARKS[m] && MARKS[m..][1..] == MARKS[m + 1..];
      var i := RFind(kept, MARKS[m], budget / 2);
      if i > 0 {
        kept := kept[..i + 1];
        break;
      }
    }
  }

  /** A mark can end the kept text at index i: it stands there, past the first half of the budget and not
      at the very start. */
  predicate UsableHit(text: string, budget: nat, mark: char, i: nat) {
    i < |text| && i < budget && budget / 2 <= i && 0 < i && text[i] == mark
  }

  predicate Unused(text: string, budget: nat, mark: char) {
    forall i: nat | i < |text| && i < budget :: !UsableHit(text, budget, mark, i)
  }

  /** The last usable hit of this mark ends the kept text. */
  predicate EndsAtLastHit(text: string, budget: nat, mark: char, kept: string) {
    && kept != ""
    && UsableHit(text, budget, mark, |kept| - 1)
    && forall i: nat | i < |text| && i < budget && UsableHit(text, budget, mark, i) :: i < |kept|
  }

  /** Mark number m is the first with a usable hit and ends the text; m past the last mark means that none has one. */
  predicate CutRight(text: string, budget: nat, marks: seq<char>, m: nat, kept: string) {
    && m <= |marks|
    && (forall j | 0 <= j < m :: Unused(text, budget, marks[j]))
    && if m < |marks| then EndsAtLastHit(text, budget, marks[m], kept) else |kept| == budget
  }

  lemma {:induction false} CutMeaning(text: string, budget: nat, marks: seq<char>) returns (m: nat)
    requires 1 <= budget < |text|
    ensures var kept := CutAt(text[..budget], budget, marks);
            kept <= text && budget / 2 < |kept| <= budget && CutRight(text, budget, marks, m, kept)
    decreases |marks|
  {
    m := 0;
    if marks != [] {
      var taken := text[..budget];
      var i := RFind(taken, marks[0], budget / 2);
      assert forall j: nat | j < budget && UsableHit(text, budget, marks[0], j) :: taken[j] == marks[0] && j <= i;
      if i > 0 {
        assert UsableHit(text, budget, marks[0], i);
      } else {
        m := CutMeaning(text, budget, marks[1..]);
        m := m + 1;
        assert forall j | 0 < j < m :: marks[j] == marks[1..][j - 1];
      }
    }
  }

  /** For a file longer than a budget of at least one character, the kept text is a prefix of the file of
      more than half the budget and at most the budget, ending at the last usable hit of the first mark
      that has one, or filling the budget when no mark has one. */
  lemma TruncatedMeaning(text: string, budget: nat)
    requires 1 <= budget < |text|
    ensures var kept := Truncated(text, budget);
            && kept <= text && budget / 2 + 1 <= |kept| <= budget
            && exists m :: CutRight(text, budget, MARKS, m, kept)
  {
    var m := CutMeaning(text, budget, MARKS);
  }
}
