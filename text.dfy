/** String building as the handlers do it with StringBuilder and StringUtils.join. */
module Text {
  /** StringUtils.join(parts, sep): the parts with `sep` between neighbours. */
  function Join(parts: seq<string>, sep: string): (r: string)
    ensures parts == [] ==> r == ""
    ensures |parts| == 1 ==> r == parts[0]
  {
    if |parts| == 0 then ""
    else if |parts| == 1 then parts[0]
    else Join(parts[..|parts| - 1], sep) + sep + parts[|parts| - 1]
  }

  /** How often `ch` occurs in `s`. */
  function Occurrences(s: string, ch: char): (n: nat)
    ensures n <= |s|
  {
    if s == [] then 0 else Occurrences(s[..|s| - 1], ch) + (if s[|s| - 1] == ch then 1 else 0)
  }

  lemma {:induction false} OccurrencesAppend(a: string, b: string, ch: char)
    ensures Occurrences(a + b, ch) == Occurrences(a, ch) + Occurrences(b, ch)
    decreases |b|
  {
    if b == [] {
      assert a + b == a;
    } else {
      var b' := b[..|b| - 1];
      assert (a + b)[..|a + b| - 1] == a + b';
      OccurrencesAppend(a, b', ch);
    }
  }

  /** The occurrences in all parts together. */
  function TotalOccurrences(parts: seq<string>, ch: char): nat {
    if parts == [] then 0
    else TotalOccurrences(parts[..|parts| - 1], ch) + Occurrences(parts[|parts| - 1], ch)
  }

  /** Joining adds only the separators' occurrences. */
  lemma {:induction false} JoinOccurrences(parts: seq<string>, sep: string, ch: char)
    requires Occurrences(sep, ch) == 0
    ensures Occurrences(Join(parts, sep), ch) == TotalOccurrences(parts, ch)
  {
    if |parts| == 1 {
      assert parts[..0] == [];
    } else if |parts| > 1 {
      var init := parts[..|parts| - 1];
      JoinOccurrences(init, sep, ch);
      OccurrencesAppend(Join(init, sep), sep, ch);
      OccurrencesAppend(Join(init, sep) + sep, parts[|parts| - 1], ch);
    }
  }

  lemma {:induction false} OccurrencesAbsent(s: string, ch: char)
    requires ch !in s
    ensures Occurrences(s, ch) == 0
  {
    if s != [] {
      assert forall c | c in s[..|s| - 1] :: c in s;
      OccurrencesAbsent(s[..|s| - 1], ch);
    }
  }

  /** Joining one part more adds the separator and that part. */
  lemma JoinStep(parts: seq<string>, sep: string, i: nat)
    requires i < |parts|
    ensures Join(parts[..i + 1], sep) == if i == 0 then parts[0] else Join(parts[..i], sep) + sep + parts[i]
  {
    assert parts[..i + 1][..i] == parts[..i];
  }
}
