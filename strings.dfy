/** The few Python string operations the log analyser relies on:
    str.replace, str.join, int() of a decimal string, slicing and str.split. */
module Strings {
  import opened Outcomes

  predicate IsDigit(c: char) {
    '0' <= c <= '9'
  }

  predicate AllDigits(s: string) {
    forall i | 0 <= i < |s| :: IsDigit(s[i])
  }

  function DigitValue(c: char): nat
    requires IsDigit(c)
  {
    (c as int - '0' as int) as nat
  }

  function DigitChar(d: nat): (c: char)
    requires d < 10
    ensures IsDigit(c) && DigitValue(c) == d
  {
    ('0' as int + d) as char
  }

  /** Python's int() applied to a string of ASCII digits; anything else raises ValueError. */
  function ParseInt(s: string): (r: Result<nat>)
    ensures r.Ok? <==> |s| > 0 && AllDigits(s)
    ensures r.Err? ==> r.failure == ValueError
    decreases |s|
  {
    if s == [] then Err(ValueError)
    else if !IsDigit(s[|s| - 1]) then Err(ValueError)
    else if |s| == 1 then Ok(DigitValue(s[0]))
    else match ParseInt(s[..|s| - 1])
      case Err(f) => Err(f)
      case Ok(v) => Ok(10 * v + DigitValue(s[|s| - 1]))
  }

  function Pow10(n: nat): (r: nat)
    ensures r >= 1
  {
    if n == 0 then 1 else 10 * Pow10(n - 1)
  }

  /** The decimal form of n in exactly `width` digits, with leading zeros (as strftime's %Y, %m, %d print). */
  function ShowDigits(n: nat, width: nat): (s: string)
    ensures |s| == width && AllDigits(s)
  {
    if width == 0 then "" else ShowDigits(n / 10, width - 1) + [DigitChar(n % 10)]
  }

  /** int() reads back what ShowDigits wrote, as long as the number fits the width. */
  lemma {:induction false} ParseShowDigits(n: nat, width: nat)
    requires 0 < width && n < Pow10(width)
    ensures ParseInt(ShowDigits(n, width)) == Ok(n)
  {
    var s := ShowDigits(n, width);
    assert s[..|s| - 1] == ShowDigits(n / 10, width - 1);
    if width > 1 {
      ParseShowDigits(n / 10, width - 1);
    }
  }

  /** Python's s.replace(pat, sub): every non-overlapping occurrence of pat, scanning from the left, is replaced. */
  function Replace(s: string, pat: string, sub: string): (r: string)
    requires |pat| > 0
    ensures !Occurs(pat, s) ==> r == s
    decreases |s|
  {
    if s == [] then []
    else if pat <= s then sub + Replace(s[|pat|..], pat, sub)
    else [s[0]] + Replace(s[1..], pat, sub)
  }

  /** pat occurs somewhere in s (Python's `pat in s`). */
  predicate Occurs(pat: string, s: string)
    decreases |s|
  {
    pat <= s || (s != [] && Occurs(pat, s[1..]))
  }

  /** A prefix of s in which pat cannot start survives replacement unchanged. */
  lemma {:induction false} ReplaceKeepsPrefix(s: string, pat: string, sub: string, k: nat)
    requires |pat| > 0 && k <= |s|
    requires forall i | 0 <= i < k :: s[i] != pat[0]
    ensures k <= |Replace(s, pat, sub)| && Replace(s, pat, sub)[..k] == s[..k]
    decreases k
  {
    if k > 0 {
      assert !(pat <= s) by { assert s[0] != pat[0]; }
      ReplaceKeepsPrefix(s[1..], pat, sub, k - 1);
    }
  }

  lemma {:induction false} OccursAfter(pat: string, pre: string, s: string)
    requires Occurs(pat, s)
    ensures Occurs(pat, pre + s)
    decreases |pre|
  {
    if pre == [] {
      assert pre + s == s;
    } else {
      assert (pre + s)[1..] == pre[1..] + s;
      OccursAfter(pat, pre[1..], s);
    }
  }

  lemma {:induction false} OccursBefore(pat: string, s: string, t: string)
    requires Occurs(pat, s)
    ensures Occurs(pat, s + t)
    decreases |s|
  {
    if !(pat <= s) {
      assert (s + t)[1..] == s[1..] + t;
      OccursBefore(pat, s[1..], t);
    }
  }

  /** Python's sep.join(ws). */
  function Join(sep: string, ws: seq<string>): (r: string)
    ensures forall c | c !in sep && (forall w | w in ws :: c !in w) :: c !in r
  {
    if ws == [] then ""
    else if |ws| == 1 then ws[0]
    else ws[0] + sep + Join(sep, ws[1..])
  }

  /** Every item of a joined list can be found in the joined string. */
  lemma {:induction false} JoinContainsEach(sep: string, ws: seq<string>, w: string)
    requires w in ws
    ensures Occurs(w, Join(sep, ws))
  {
    if |ws| > 1 {
      if w == ws[0] {
        assert w <= Join(sep, ws);
      } else {
        JoinContainsEach(sep, ws[1..], w);
        OccursAfter(w, ws[0] + sep, Join(sep, ws[1..]));
      }
    }
  }

  /** Python's s[i:j] for non-negative bounds: indices past the end are clamped, never an error. */
  function Slice(s: string, i: nat, j: nat): (r: string)
    ensures |r| == if i <= j && i <= |s| then (if j <= |s| then j else |s|) - i else 0
    ensures i <= j <= |s| ==> r == s[i..j]
  {
    var hi := if j <= |s| then j else |s|;
    if i <= hi then s[i..hi] else ""
  }

  /** Python's s.split(sep)[-1] for a one-character separator: the text after the last sep. */
  function AfterLast(s: string, sep: char): (r: string)
    ensures sep !in r
    ensures |r| <= |s| && r == s[|s| - |r|..]
    ensures |r| < |s| ==> s[|s| - |r| - 1] == sep
    decreases |s|
  {
    if s == [] then ""
    else if s[|s| - 1] == sep then ""
    else
      var init := s[..|s| - 1];
      var r' := AfterLast(init, sep);
      assert s[|s| - |r'| - 1..] == init[|init| - |r'|..] + [s[|s| - 1]];
      r' + [s[|s| - 1]]
  }
}
