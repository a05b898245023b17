/**
  The few pieces of `java.lang.String` behaviour the payment core relies on:
  rendering a possibly-null string, `equalsIgnoreCase` and `trim`.
  Case folding is modelled for ASCII letters only.
 */
module JavaText {
  import opened Optional

  /** How Java renders a possibly-null string in `+` concatenation and in `%s`. */
  function Show(s: Option<string>): (r: string)
    ensures s.Some? ==> r == s.value
    ensures s.None? ==> r == "null"
  {
    s.GetOr("null")
  }

  predicate IsDigit(c: char)
  {
    '0' <= c <= '9'
  }

  function ToUpper(c: char): char
  {
    if 'a' <= c <= 'z' then (c as int - 32) as char else c
  }

  function ToLower(c: char): char
  {
    if 'A' <= c <= 'Z' then (c as int + 32) as char else c
  }

  /** One position of `String.regionMatches(true, ...)`: equal, equal upper-cased, or equal after upper- then lower-casing. */
  predicate CharsEqualIgnoreCase(a: char, b: char)
  {
    a == b || ToUpper(a) == ToUpper(b) || ToLower(ToUpper(a)) == ToLower(ToUpper(b))
  }

  /** `a.equalsIgnoreCase(b)`: false for a null argument, otherwise equal length and position-wise equal ignoring case. */
  function EqualsIgnoreCase(a: string, b: Option<string>): (ok: bool)
    ensures ok <==> b.Some? && |a| == |b.value| && forall i :: 0 <= i < |a| ==> ToUpper(a[i]) == ToUpper(b.value[i])
  {
    && b.Some?
    && |a| == |b.value|
    && forall i :: 0 <= i < |a| ==> CharsEqualIgnoreCase(a[i], b.value[i])
  }

  /** The three-way comparison of `regionMatches` collapses to comparing upper-cased characters. */
  lemma CharsEqualIgnoreCaseIsUpperEquality(a: char, b: char)
    ensures CharsEqualIgnoreCase(a, b) <==> ToUpper(a) == ToUpper(b)
  {
  }

  /** `equalsIgnoreCase` is an equivalence on non-null strings. */
  lemma EqualsIgnoreCaseIsEquivalence(a: string, b: string, c: string)
    ensures EqualsIgnoreCase(a, Some(a))
    ensures EqualsIgnoreCase(a, Some(b)) ==> EqualsIgnoreCase(b, Some(a))
    ensures EqualsIgnoreCase(a, Some(b)) && EqualsIgnoreCase(b, Some(c)) ==> EqualsIgnoreCase(a, Some(c))
  {
    forall i | 0 <= i < |a| {
      CharsEqualIgnoreCaseIsUpperEquality(a[i], a[i]);
    }
    if EqualsIgnoreCase(a, Some(b)) {
      forall i | 0 <= i < |b| ensures CharsEqualIgnoreCase(b[i], a[i]) {
        CharsEqualIgnoreCaseIsUpperEquality(a[i], b[i]);
        CharsEqualIgnoreCaseIsUpperEquality(b[i], a[i]);
      }
      if EqualsIgnoreCase(b, Some(c)) {
        forall i | 0 <= i < |a| ensures CharsEqualIgnoreCase(a[i], c[i]) {
          CharsEqualIgnoreCaseIsUpperEquality(a[i], b[i]);
          CharsEqualIgnoreCaseIsUpperEquality(b[i], c[i]);
          CharsEqualIgnoreCaseIsUpperEquality(a[i], c[i]);
        }
      }
    }
  }

  /** The first index at or after `from` holding a character above U+0020, or `|s|` when there is none. */
  function FirstVisible(s: string, from: nat): (i: nat)
    requires from <= |s|
    ensures from <= i <= |s|
    ensures forall j :: from <= j < i ==> s[j] <= ' '
    ensures i < |s| ==> s[i] > ' '
    decreases |s| - from
  {
    if from < |s| && s[from] <= ' ' then FirstVisible(s, from + 1) else from
  }

  /** The end of `s[lo..hi]` once its trailing characters at or below U+0020 are dropped. */
  function VisibleEnd(s: string, lo: nat, hi: nat): (k: nat)
    requires lo <= hi <= |s|
    ensures lo <= k <= hi
    ensures forall j :: k <= j < hi ==> s[j] <= ' '
    ensures k > lo ==> s[k - 1] > ' '
    decreases hi
  {
    if lo < hi && s[hi - 1] <= ' ' then VisibleEnd(s, lo, hi - 1) else hi
  }

  /**
    Java `trim`: the input without its leading and trailing characters at or
    below U+0020. The result starts and ends visibly, and an already trimmed
    string is kept as it is.
   */
  function Trim(s: string): (r: string)
    ensures |r| <= |s|
    ensures |r| > 0 ==> r[0] > ' ' && r[|r| - 1] > ' '
    ensures |s| > 0 && s[0] > ' ' && s[|s| - 1] > ' ' ==> r == s
  {
    var start := FirstVisible(s, 0);
    s[start..VisibleEnd(s, start, |s|)]
  }

  /** `trim` keeps a contiguous middle of the input and removes only characters at or below U+0020 on either side of it. */
  lemma TrimIsMiddle(s: string)
    ensures var i, n := FirstVisible(s, 0), |Trim(s)|;
      && i + n <= |s|
      && Trim(s) == s[i..i + n]
      && (forall j :: 0 <= j < i ==> s[j] <= ' ')
      && (forall j :: i + n <= j < |s| ==> s[j] <= ' ')
  {
  }

  /** `@NotBlank`: not null, and something is left after `trim`, that is, some character above U+0020. */
  function NotBlank(s: Option<string>): (ok: bool)
    ensures ok <==> s.Some? && exists i :: 0 <= i < |s.value| && s.value[i] > ' '
  {
    if s.None? then false
    else
      TrimEmptyIffNoVisibleChar(s.value);
      |Trim(s.value)| > 0
  }

  /** A string is blank after trimming exactly when it holds no character above U+0020. */
  lemma {:induction false} TrimEmptyIffNoVisibleChar(s: string)
    ensures |Trim(s)| > 0 <==> exists i :: 0 <= i < |s| && s[i] > ' '
  {
    var start := FirstVisible(s, 0);
    if start < |s| {
      assert VisibleEnd(s, start, |s|) > start;
    }
  }
}
