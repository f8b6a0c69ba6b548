/** Small facts about strings that the printers rely on: runs of spaces,
    stripping leading spaces, and counting occurrences of a character. */
module Text {

  /** A run of n spaces, the fill of a right-aligned field. */
  function Spaces(n: nat): (s: string)
    ensures |s| == n
    ensures forall i | 0 <= i < n :: s[i] == ' '
  {
    seq(n, _ => ' ')
  }

  /** `s` without its leading spaces. */
  function TrimStart(s: string): (t: string)
    ensures |t| <= |s|
    ensures |t| > 0 ==> t[0] != ' '
    ensures t == s[|s| - |t|..]
    decreases |s|
  {
    if |s| > 0 && s[0] == ' ' then TrimStart(s[1..]) else s
  }

  /** Stripping the fill gives back the text, as long as the text itself
      does not start with a space. */
  lemma {:induction false} TrimStartOfPadded(n: nat, t: string)
    requires |t| > 0 && t[0] != ' '
    ensures TrimStart(Spaces(n) + t) == t
    decreases n
  {
    if n > 0 {
      assert (Spaces(n) + t)[1..] == Spaces(n - 1) + t;
      TrimStartOfPadded(n - 1, t);
    } else {
      assert Spaces(n) + t == t;
    }
  }

  /** The number of occurrences of `ch` in `s`. */
  function Count(s: string, ch: char): (k: nat)
    ensures k <= |s|
  {
    if |s| == 0 then 0 else Count(s[..|s| - 1], ch) + (if s[|s| - 1] == ch then 1 else 0)
  }

  lemma {:induction false} CountAppend(a: string, b: string, ch: char)
    ensures Count(a + b, ch) == Count(a, ch) + Count(b, ch)
    decreases |b|
  {
    if |b| == 0 {
      assert a + b == a;
    } else {
      assert (a + b)[..|a + b| - 1] == a + b[..|b| - 1];
      CountAppend(a, b[..|b| - 1], ch);
    }
  }

  lemma {:induction false} CountAbsent(s: string, ch: char)
    requires forall i | 0 <= i < |s| :: s[i] != ch
    ensures Count(s, ch) == 0
    decreases |s|
  {
    if |s| > 0 {
      CountAbsent(s[..|s| - 1], ch);
    }
  }
}
