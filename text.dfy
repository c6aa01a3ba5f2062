/** The few string operations of JavaScript that the core relies on. */
module Text {

  /**
   * The characters `String.prototype.trim` removes: ECMAScript WhiteSpace (TAB, VT, FF, SPACE,
   * NO-BREAK SPACE, ZERO WIDTH NO-BREAK SPACE and the Unicode Space_Separator class) and
   * LineTerminator (LF, CR, LINE SEPARATOR, PARAGRAPH SEPARATOR).
   */
  predicate IsJsSpace(c: char) {
    c == '\t' || c == '\n' || c == '\U{B}' || c == '\U{C}' || c == '\r' || c == ' '
    || c == '\U{A0}' || c == '\U{1680}' || ('\U{2000}' <= c <= '\U{200A}')
    || c == '\U{2028}' || c == '\U{2029}' || c == '\U{202F}' || c == '\U{205F}'
    || c == '\U{3000}' || c == '\U{FEFF}'
  }

  predicate AllSpaces(s: string) {
    forall i :: 0 <= i < |s| ==> IsJsSpace(s[i])
  }

  /** Neither end is a space character. */
  predicate IsTrimmed(s: string) {
    s == [] || (!IsJsSpace(s[0]) && !IsJsSpace(s[|s| - 1]))
  }

  /** The length of the run of space characters at the start of `s`. */
  function LeadingSpaces(s: string): (k: nat)
    ensures k <= |s|
    ensures forall i :: 0 <= i < k ==> IsJsSpace(s[i])
    ensures k < |s| ==> !IsJsSpace(s[k])
    decreases |s|
  {
    if s != [] && IsJsSpace(s[0]) then
      var rest := s[1..];
      var j := LeadingSpaces(rest);
      assert forall i :: 0 <= i < j ==> rest[i] == s[i + 1];
      assert j < |rest| ==> rest[j] == s[j + 1];
      1 + j
    else 0
  }

  /** The length of the run of space characters at the end of `s`. */
  function TrailingSpaces(s: string): (k: nat)
    ensures k <= |s|
    ensures forall i :: |s| - k <= i < |s| ==> IsJsSpace(s[i])
    ensures k < |s| ==> !IsJsSpace(s[|s| - 1 - k])
    decreases |s|
  {
    if s != [] && IsJsSpace(s[|s| - 1]) then
      var init := s[..|s| - 1];
      var j := TrailingSpaces(init);
      assert forall i :: 0 <= i < |init| ==> init[i] == s[i];
      1 + j
    else 0
  }

  /**
   * `s.trim()`: `s` with the space characters at both ends cut off. The result is what is left
   * between two all-space ends, and it neither starts nor ends with a space.
   */
  function Trim(s: string): (r: string)
    ensures IsTrimmed(r)
    ensures exists i, j :: 0 <= i <= j <= |s| && r == s[i..j] && AllSpaces(s[..i]) && AllSpaces(s[j..])
  {
    var a := LeadingSpaces(s);
    var rest := s[a..];
    var b := TrailingSpaces(rest);
    var e := |s| - b;
    var r := rest[..|rest| - b];
    assert r == s[a..e];
    assert AllSpaces(s[..a]) by {
      forall t | 0 <= t < a ensures IsJsSpace(s[..a][t]) {
        assert s[..a][t] == s[t];
      }
    }
    assert AllSpaces(s[e..]) by {
      forall t | 0 <= t < |s| - e ensures IsJsSpace(s[e..][t]) {
        assert s[e..][t] == rest[|rest| - b + t];
      }
    }
    assert r != [] ==> r[0] == s[a];
    assert r != [] ==> r[|r| - 1] == rest[|rest| - 1 - b];
    r
  }

  /** Trimming a string that is already trimmed changes nothing. */
  lemma TrimTrimmed(s: string)
    requires IsTrimmed(s)
    ensures Trim(s) == s
  {
    assert LeadingSpaces(s) == 0;
    assert s[0..] == s;
    assert TrailingSpaces(s) == 0;
    assert s[..|s| - 0] == s;
  }

  /** `trim` is idempotent. */
  lemma TrimIdempotent(s: string)
    ensures Trim(Trim(s)) == Trim(s)
  {
    TrimTrimmed(Trim(s));
  }

  function DigitChar(d: nat): (c: char)
    requires d < 10
    ensures '0' <= c <= '9'
  {
    "0123456789"[d]
  }

  function DigitValue(c: char): nat
    requires '0' <= c <= '9'
  {
    c as nat - '0' as nat
  }

  /** `n.toString()` for a non-negative integer: its shortest decimal numeral. */
  function NatToString(n: nat): (s: string)
    ensures |s| > 0 && forall i :: 0 <= i < |s| ==> '0' <= s[i] <= '9'
    ensures |s| > 1 ==> s[0] != '0'
    decreases n
  {
    if n < 10 then [DigitChar(n)]
    else
      var p := NatToString(n / 10);
      p + [DigitChar(n % 10)]
  }

  /** The value of a decimal numeral. */
  function DecimalValue(s: string): nat
    requires forall i :: 0 <= i < |s| ==> '0' <= s[i] <= '9'
    decreases |s|
  {
    if s == [] then 0 else 10 * DecimalValue(s[..|s| - 1]) + DigitValue(s[|s| - 1])
  }

  /** Reading the numeral back gives the number. */
  lemma {:induction false} DecimalValueOfNatToString(n: nat)
    ensures DecimalValue(NatToString(n)) == n
    decreases n
  {
    var s := NatToString(n);
    if n < 10 {
      assert s[..|s| - 1] == [];
    } else {
      DecimalValueOfNatToString(n / 10);
      assert s[..|s| - 1] == NatToString(n / 10);
    }
  }

  /** Distinct numbers have distinct numerals. */
  lemma NatToStringInjective(m: nat, n: nat)
    requires m != n
    ensures NatToString(m) != NatToString(n)
  {
    DecimalValueOfNatToString(m);
    DecimalValueOfNatToString(n);
  }

  /** The number of characters kept by the default excerpt. */
  const ExcerptLength: nat := 150

  /**
   * `content.slice(0, 150) + '...'`: at most the first 150 characters, then three dots, so never
   * more than 153 characters; a short text is kept whole.
   */
  function DefaultExcerpt(content: string): (e: string)
    ensures 3 <= |e| <= ExcerptLength + 3
    ensures |e| - 3 == if |content| < ExcerptLength then |content| else ExcerptLength
    ensures e == content[..|e| - 3] + "..."
  {
    var n := if |content| < ExcerptLength then |content| else ExcerptLength;
    content[..n] + "..."
  }
}
