/** The confirmation prompt, `get_confirmation`, which both scripts run
    before doing anything: read a line, lower-case and strip it, accept
    `yes`/`y`, decline on `no`/`n`, and ask again on anything else. The lines
    the user types are the sequence `answers`; running out of them is an
    end-of-file, on which `input()` raises. */
module Confirmation {
  import opened OutputList

  /** Lower-casing of one character, on the ASCII letters. */
  function LowerChar(c: char): char {
    if 'A' <= c <= 'Z' then (c as int + 32) as char else c
  }

  /** `str.lower()`, character by character. */
  function Lower(s: string): string {
    seq(|s|, i requires 0 <= i < |s| => LowerChar(s[i]))
  }

  /** How one typed line is taken. */
  datatype Answer = Yes | No | Other

  /** `input(...).lower().strip()`. */
  function Normalize(line: string): string {
    Strip(Lower(line))
  }

  /** The two `in` tests on the normalized response. */
  function Classify(line: string): Answer {
    var response := Normalize(line);
    if response == "yes" || response == "y" then Yes
    else if response == "no" || response == "n" then No
    else Other
  }

  /** What the prompt loop ends with: a decision after reading `consumed`
      lines, or the end of input before any decisive line. */
  datatype Reply = Decided(proceed: bool, consumed: nat) | Exhausted

  /** How each typed line is taken, in order. */
  function Classified(answers: seq<string>): (kinds: seq<Answer>)
    ensures |kinds| == |answers|
    ensures forall i :: 0 <= i < |answers| ==> kinds[i] == Classify(answers[i])
  {
    seq(|answers|, i requires 0 <= i < |answers| => Classify(answers[i]))
  }

  /** The loop's outcome when `kinds[..i]` have already been read and were
      all undecisive. */
  function DecisionFrom(kinds: seq<Answer>, i: nat): Reply
    requires i <= |kinds|
    decreases |kinds| - i
  {
    if i == |kinds| then Exhausted
    else match kinds[i]
      case Yes => Decided(true, i + 1)
      case No => Decided(false, i + 1)
      case Other => DecisionFrom(kinds, i + 1)
  }

  /** The prompt loop's outcome on the whole input. */
  function Decision(answers: seq<string>): Reply {
    DecisionFrom(Classified(answers), 0)
  }

  /** No line among `kinds` is decisive. */
  predicate Undecisive(kinds: seq<Answer>) {
    forall j :: 0 <= j < |kinds| ==> kinds[j] == Other
  }

  /** `get_confirmation`'s `while True` loop: one line read per iteration. */
  method GetConfirmation(answers: seq<string>) returns (c: Reply)
    ensures c == Decision(answers)
  {
    ghost var kinds := Classified(answers);
    var i := 0;
    while i < |answers|
      invariant 0 <= i <= |answers|
      invariant DecisionFrom(kinds, i) == Decision(answers)
    {
      var answer := Classify(answers[i]);
      if answer == Yes {
        return Decided(true, i + 1);
      } else if answer == No {
        return Decided(false, i + 1);
      }
      i := i + 1;
    }
    return Exhausted;
  }

  lemma {:induction false} DecisionFromSpec(kinds: seq<Answer>, i: nat)
    requires i <= |kinds|
    requires Undecisive(kinds[..i])
    ensures var c := DecisionFrom(kinds, i);
      && (c.Exhausted? <==> Undecisive(kinds))
      && (c.Decided? ==>
            && i < c.consumed <= |kinds|
            && Undecisive(kinds[..c.consumed - 1])
            && kinds[c.consumed - 1] == (if c.proceed then Yes else No))
    decreases |kinds| - i
  {
    if i == |kinds| {
      assert kinds[..i] == kinds;
    } else if kinds[i] == Other {
      assert kinds[..i + 1] == kinds[..i] + [kinds[i]];
      DecisionFromSpec(kinds, i + 1);
    } else {
      assert kinds[i] != Other;
    }
  }

  /** The prompt decides on the first line that reads `yes`/`y` (proceed) or
      `no`/`n` (cancel) once lower-cased and stripped; every line before it is
      answered with another prompt. It ends undecided exactly when no line
      is decisive. */
  lemma DecisionSpec(answers: seq<string>)
    ensures var c := Decision(answers);
      && (c.Exhausted? <==> forall j :: 0 <= j < |answers| ==> Classify(answers[j]) == Other)
      && (c.Decided? ==>
            && 1 <= c.consumed <= |answers|
            && (forall j :: 0 <= j < c.consumed - 1 ==> Classify(answers[j]) == Other)
            && Classify(answers[c.consumed - 1]) == (if c.proceed then Yes else No))
  {
    var kinds := Classified(answers);
    DecisionFromSpec(kinds, 0);
    UndecisiveLines(answers, |answers|);
    var c := Decision(answers);
    if c.Decided? {
      UndecisiveLines(answers, c.consumed - 1);
    }
  }

  /** `Undecisive` of the first `n` classified lines, stated on the lines. */
  lemma UndecisiveLines(answers: seq<string>, n: nat)
    requires n <= |answers|
    ensures Undecisive(Classified(answers)[..n]) <==> forall j :: 0 <= j < n ==> Classify(answers[j]) == Other
  {
    var kinds := Classified(answers);
    assert forall j :: 0 <= j < n ==> kinds[..n][j] == kinds[j];
  }

  lemma {:induction false} LowerAppend(a: string, b: string)
    ensures Lower(a + b) == Lower(a) + Lower(b)
  {
    assert |Lower(a + b)| == |Lower(a) + Lower(b)|;
    forall k | 0 <= k < |a + b|
      ensures Lower(a + b)[k] == (Lower(a) + Lower(b))[k]
    {
      if k < |a| {
        assert (a + b)[k] == a[k];
      } else {
        assert (a + b)[k] == b[k - |a|];
      }
    }
  }

  lemma LowerOfSpace(w: string)
    requires AllSpace(w)
    ensures Lower(w) == w
  {
    assert forall k :: 0 <= k < |w| ==> Lower(w)[k] == w[k];
  }

  lemma LowerIdempotent(s: string)
    ensures Lower(Lower(s)) == Lower(s)
  {
    assert forall k :: 0 <= k < |s| ==> Lower(Lower(s))[k] == Lower(s)[k];
  }

  /** An answer is read the same whatever its letter case and whatever
      whitespace surrounds it. */
  lemma ClassifyIgnoresCaseAndPadding(w1: string, line: string, w2: string)
    requires AllSpace(w1) && AllSpace(w2)
    ensures Classify(w1 + line + w2) == Classify(line)
    ensures Classify(Lower(line)) == Classify(line)
  {
    LowerAppend(w1 + line, w2);
    LowerAppend(w1, line);
    LowerOfSpace(w1);
    LowerOfSpace(w2);
    assert Lower(w1 + line + w2) == w1 + Lower(line) + w2;
    StripPadding(w1, Lower(line), w2);
    assert Normalize(w1 + line + w2) == Normalize(line);
    LowerIdempotent(line);
    assert Normalize(Lower(line)) == Normalize(line);
  }

  /** `response` surrounded by whitespace, once lower-cased. */
  ghost predicate Spells(line: string, response: string) {
    exists w1, w2 :: AllSpace(w1) && AllSpace(w2) && Lower(line) == w1 + response + w2
  }

  lemma SpellsNormalized(line: string, response: string)
    requires IsStripped(response)
    ensures Spells(line, response) <==> Normalize(line) == response
  {
    if Spells(line, response) {
      var w1, w2 :| AllSpace(w1) && AllSpace(w2) && Lower(line) == w1 + response + w2;
      StripPadding(w1, response, w2);
      StripSpec(response);
    }
    if Normalize(line) == response {
      var w1, w2 := StripUnpads(Lower(line));
      assert AllSpace(w1) && AllSpace(w2) && Lower(line) == w1 + response + w2;
    }
  }

  /** A line accepts exactly when, lower-cased, it is `yes` or `y` with only
      whitespace around it; it declines exactly when it is `no` or `n` so
      padded; every other line is answered with another prompt. */
  lemma ClassifyExactly(line: string)
    ensures Classify(line) == Yes <==> Spells(line, "yes") || Spells(line, "y")
    ensures Classify(line) == No <==> Spells(line, "no") || Spells(line, "n")
  {
    assert IsStripped("yes") && IsStripped("y") && IsStripped("no") && IsStripped("n");
    SpellsNormalized(line, "yes");
    SpellsNormalized(line, "y");
    SpellsNormalized(line, "no");
    SpellsNormalized(line, "n");
  }

  /** Examples of the literals `get_confirmation` tests against: upper case and padding are
      accepted, near misses are not. */
  lemma PaddedUpperCaseYesAccepted()
    ensures Classify(" Yes\n") == Yes
  {
    assert Lower("Yes") == "yes" by {
      assert Lower("Yes")[0] == 'y';
    }
    StripSpec("yes");
    assert AllSpace(" ") && AllSpace("\n");
    assert " Yes\n" == " " + "Yes" + "\n";
    ClassifyIgnoresCaseAndPadding(" ", "Yes", "\n");
  }

  lemma UpperCaseNDeclines()
    ensures Classify("N") == No
  {
    assert Lower("N") == "n" by {
      assert Lower("N")[0] == 'n';
    }
    StripSpec("n");
  }

  lemma NearMissReprompts()
    ensures Classify("yeah") == Other
  {
    assert Lower("yeah") == "yeah" by {
      assert forall k :: 0 <= k < 4 ==> Lower("yeah")[k] == "yeah"[k];
    }
    StripSpec("yeah");
  }
}
