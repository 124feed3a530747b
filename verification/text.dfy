/** The string operations the plugin relies on: Python's `str.strip()`, `str.lower()`,
    `str(int)` and `"\n".join(...)`, and the test for the `[recall]` marker. */
module Text {

  /** The characters Python's `str.strip()` removes when called without arguments
      (those for which `str.isspace()` holds). */
  const SpaceChars: set<char> :=
    {'\t', '\n', '\U{0B}', '\U{0C}', '\r', '\U{1C}', '\U{1D}', '\U{1E}', '\U{1F}', ' ',
     '\U{85}', '\U{A0}', '\U{1680}',
     '\U{2000}', '\U{2001}', '\U{2002}', '\U{2003}', '\U{2004}', '\U{2005}',
     '\U{2006}', '\U{2007}', '\U{2008}', '\U{2009}', '\U{200A}',
     '\U{2028}', '\U{2029}', '\U{202F}', '\U{205F}', '\U{3000}'}

  predicate IsSpace(c: char)
  {
    c in SpaceChars
  }

  predicate AllSpace(s: string)
  {
    forall i :: 0 <= i < |s| ==> IsSpace(s[i])
  }

  /** Leading whitespace removed. */
  function TrimStart(s: string): string
  {
    if s != [] && IsSpace(s[0]) then TrimStart(s[1..]) else s
  }

  /** Trailing whitespace removed. */
  function TrimEnd(s: string): string
  {
    if s != [] && IsSpace(s[|s| - 1]) then TrimEnd(s[..|s| - 1]) else s
  }

  /** Trimming the start leaves the suffix of `s` that starts at its first non-space
      character: everything cut off is whitespace, and what is left does not start with
      whitespace. */
  lemma {:induction false} TrimStartShape(s: string)
    ensures |TrimStart(s)| <= |s| && TrimStart(s) == s[|s| - |TrimStart(s)|..]
    ensures AllSpace(s[..|s| - |TrimStart(s)|])
    ensures TrimStart(s) == [] || !IsSpace(TrimStart(s)[0])
  {
    if s != [] && IsSpace(s[0]) {
      TrimStartShape(s[1..]);
      var k := |s| - |TrimStart(s)|;
      assert s[1..][..k - 1] == s[1..k];
      assert s[1..][k - 1..] == s[k..];
    }
  }

  /** Trimming the end leaves the prefix of `s` that ends at its last non-space
      character: everything cut off is whitespace, and what is left does not end with
      whitespace. */
  lemma {:induction false} TrimEndShape(s: string)
    ensures |TrimEnd(s)| <= |s| && TrimEnd(s) == s[..|TrimEnd(s)|]
    ensures AllSpace(s[|TrimEnd(s)|..])
    ensures TrimEnd(s) == [] || !IsSpace(TrimEnd(s)[|TrimEnd(s)| - 1])
  {
    if s != [] && IsSpace(s[|s| - 1]) {
      var p := s[..|s| - 1];
      TrimEndShape(p);
      var k := |TrimEnd(s)|;
      assert p[..k] == s[..k];
      assert s[k..] == p[k..] + [s[|s| - 1]];
    }
  }

  /** Python's `s.strip()`. */
  function Strip(s: string): string
  {
    TrimEnd(TrimStart(s))
  }

  /** Lower-casing of one character; only A-Z change (see the README on non-ASCII). */
  function LowerChar(c: char): char
  {
    if 'A' <= c <= 'Z' then (c as int + 32) as char else c
  }

  /** Python's `s.lower()`, character by character. */
  function Lower(s: string): (r: string)
    ensures |r| == |s|
    ensures forall i :: 0 <= i < |s| ==> r[i] == LowerChar(s[i])
  {
    if s == [] then [] else [LowerChar(s[0])] + Lower(s[1..])
  }

  const RecallMarker: string := "[recall]"

  /** The inbound-message test `message_str.strip().lower() == "[recall]"`. */
  predicate IsRecallMarker(text: string)
  {
    Lower(Strip(text)) == RecallMarker
  }

  /** If `k` is the first non-space position of `s`, trimming the start cuts exactly there. */
  lemma {:induction false} TrimStartAt(s: string, k: nat)
    requires k <= |s| && AllSpace(s[..k])
    requires k == |s| || !IsSpace(s[k])
    ensures TrimStart(s) == s[k..]
  {
    if k > 0 {
      assert s[..k][0] == s[0];
      assert s[1..][..k - 1] == s[..k][1..];
      TrimStartAt(s[1..], k - 1);
      assert s[1..][k - 1..] == s[k..];
    }
  }

  /** If `k` is just past the last non-space position of `s`, trimming the end cuts there. */
  lemma {:induction false} TrimEndAt(s: string, k: nat)
    requires k <= |s| && AllSpace(s[k..])
    requires k == 0 || !IsSpace(s[k - 1])
    ensures TrimEnd(s) == s[..k]
    decreases |s|
  {
    if k < |s| {
      var p := s[..|s| - 1];
      assert s[k..][|s| - 1 - k] == s[|s| - 1];
      assert p[k..] == s[k..][..|s| - 1 - k];
      TrimEndAt(p, k);
      assert p[..k] == s[..k];
    }
  }

  /** Stripping removes exactly the whitespace padding around a core that neither starts
      nor ends with whitespace. */
  lemma StripPadded(a: string, b: string, c: string)
    requires AllSpace(a) && AllSpace(c)
    requires b == [] || (!IsSpace(b[0]) && !IsSpace(b[|b| - 1]))
    ensures Strip(a + b + c) == b
  {
    var s := a + b + c;
    if b == [] {
      assert s[..|s|] == a + c;
      TrimStartAt(s, |s|);
    } else {
      assert s[..|a|] == a;
      assert s[|a|] == b[0];
      TrimStartAt(s, |a|);
      var t := s[|a|..];
      assert t == b + c;
      assert t[|b|..] == c;
      assert t[|b| - 1] == b[|b| - 1];
      TrimEndAt(t, |b|);
      assert t[..|b|] == b;
    }
  }

  /** Whatever the marker test accepts is the marker, in some mix of letter case, with
      nothing but whitespace before and after it. */
  lemma MarkerSound(text: string)
    requires IsRecallMarker(text)
    ensures exists i, j ::
      (0 <= i <= j <= |text| && AllSpace(text[..i]) && AllSpace(text[j..]) &&
       Lower(text[i..j]) == RecallMarker)
  {
    var t := TrimStart(text);
    TrimStartShape(text);
    var i := |text| - |t|;
    var r := TrimEnd(t);
    TrimEndShape(t);
    var j := i + |r|;
    assert t[..|r|] == text[i..j];
    assert t[|r|..] == text[j..];
    assert Lower(text[i..j]) == RecallMarker;
  }

  /** A text that lower-cases to the marker starts with `[` and ends with `]`. */
  lemma MarkerBrackets(m: string)
    requires Lower(m) == RecallMarker
    ensures |m| == 8 && m[0] == '[' && m[7] == ']'
  {
  }

  /** Stripping whitespace padding off a bracketed eight-character core gives the core. */
  lemma StripBracketed(pre: string, m: string, post: string)
    requires AllSpace(pre) && AllSpace(post)
    requires |m| == 8 && m[0] == '[' && m[7] == ']'
    ensures Strip(pre + m + post) == m
  {
    assert !IsSpace(m[0]) && !IsSpace(m[|m| - 1]) by {
      assert !IsSpace('[') && !IsSpace(']');
    }
    StripPadded(pre, m, post);
  }

  /** Conversely, the marker in any letter case, padded with any whitespace, is accepted. */
  lemma MarkerComplete(pre: string, m: string, post: string)
    requires AllSpace(pre) && AllSpace(post)
    requires Lower(m) == RecallMarker
    ensures IsRecallMarker(pre + m + post)
  {
    MarkerBrackets(m);
    StripBracketed(pre, m, post);
  }

  /** The marker is matched in any letter case and with surrounding whitespace. */
  lemma MarkerPaddedExample()
    ensures IsRecallMarker(" [ReCaLL]\n")
  {
    var m := "[ReCaLL]";
    var lm := Lower(m);
    assert lm[0] == '[' && lm[1] == 'r' && lm[2] == 'e' && lm[3] == 'c';
    assert lm[4] == 'a' && lm[5] == 'l' && lm[6] == 'l' && lm[7] == ']';
    assert lm == RecallMarker;
    assert " [ReCaLL]\n" == " " + m + "\n";
    MarkerComplete(" ", m, "\n");
  }

  /** With whitespace outside `text[i..j]`, every non-space character lies inside it. */
  lemma InsidePadding(text: string, i: nat, j: nat, p: nat)
    requires i <= j <= |text| && AllSpace(text[..i]) && AllSpace(text[j..])
    requires p < |text| && !IsSpace(text[p])
    ensures i <= p < j
  {
  }

  /** In a text the marker test accepts, any two non-space characters are less than eight
      positions apart: there is no room for anything besides the marker. */
  lemma MarkerWidth(text: string, p: nat, q: nat)
    requires IsRecallMarker(text)
    requires p < q < |text| && !IsSpace(text[p]) && !IsSpace(text[q])
    ensures q - p < |RecallMarker|
  {
    MarkerSound(text);
    var i, j :| 0 <= i <= j <= |text| && AllSpace(text[..i]) && AllSpace(text[j..]) &&
      Lower(text[i..j]) == RecallMarker;
    assert |text[i..j]| == |RecallMarker|;
    InsidePadding(text, i, j, p);
    InsidePadding(text, i, j, q);
  }

  /** Only the whole-message marker fires: the marker followed by anything but whitespace
      is not a recall request. */
  lemma MarkerThenText(m: string, rest: string, k: nat)
    requires Lower(m) == RecallMarker
    requires k < |rest| && !IsSpace(rest[k])
    ensures !IsRecallMarker(m + rest)
  {
    var text := m + rest;
    MarkerBrackets(m);
    assert text[0] == '[' && text[|m| + k] == rest[k];
    assert !IsSpace('[');
    if IsRecallMarker(text) {
      MarkerWidth(text, 0, |m| + k);
      assert false;
    }
  }

  /** Nor is anything but whitespace followed by the marker. */
  lemma TextThenMarker(pre: string, m: string, k: nat)
    requires Lower(m) == RecallMarker
    requires k < |pre| && !IsSpace(pre[k])
    ensures !IsRecallMarker(pre + m)
  {
    var text := pre + m;
    MarkerBrackets(m);
    assert text[|text| - 1] == ']' && text[k] == pre[k];
    assert !IsSpace(']');
    if IsRecallMarker(text) {
      MarkerWidth(text, k, |text| - 1);
      assert false;
    }
  }

  function Digit(d: nat): char
    requires d < 10
  {
    ('0' as int + d) as char
  }

  /** The value of a decimal digit character (0 for any other character). */
  function DigitValue(c: char): nat
  {
    if '0' <= c <= '9' then c as int - '0' as int else 0
  }

  /** The number a string of decimal digits denotes, most significant digit first. */
  function DecimalValue(s: string): nat
  {
    if s == [] then 0 else 10 * DecimalValue(s[..|s| - 1]) + DigitValue(s[|s| - 1])
  }

  /** Python's `str(n)` for a non-negative integer: the digits of `n`, without leading
      zeros. */
  function NatToString(n: nat): (r: string)
    ensures r != []
    ensures forall i :: 0 <= i < |r| ==> '0' <= r[i] <= '9'
    ensures DecimalValue(r) == n
    ensures n > 0 ==> r[0] != '0'
  {
    if n < 10 then [Digit(n)]
    else
      var r := NatToString(n / 10) + [Digit(n % 10)];
      assert r[..|r| - 1] == NatToString(n / 10);
      r
  }

  /** Python's `str(i)` for any integer. */
  function IntToString(i: int): string
  {
    if i < 0 then "-" + NatToString(-i) else NatToString(i)
  }

  /** Python's `sep.join(parts)`. */
  function Join(sep: string, parts: seq<string>): string
  {
    if parts == [] then ""
    else if |parts| == 1 then parts[0]
    else parts[0] + sep + Join(sep, parts[1..])
  }
}
