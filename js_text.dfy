/**
 * JavaScript strings as the bridge handles them: sequences of UTF-16 code
 * units.  `length`, `slice` and `trim` all count and cut code units, not
 * characters and not UTF-8 bytes.
 */
module JsText {

  /** One UTF-16 code unit. */
  newtype CodeUnit = x: int | 0 <= x < 0x1_0000

  /** A JavaScript string value. */
  type JsString = seq<CodeUnit>

  /** "exit", the console line that ends the process. */
  const ExitLine: JsString := [0x65, 0x78, 0x69, 0x74]

  /**
   * The most code units the console forwards in one write (the Nordic UART
   * payload limit as the console handler applies it).
   */
  const MaxWriteUnits: nat := 20

  /**
   * The code units `String.prototype.trim` removes: the ECMAScript WhiteSpace
   * set (TAB, VT, FF, ZWNBSP and every space separator) and the four line
   * terminators.
   */
  predicate IsWhiteSpace(c: CodeUnit) {
    || c == 0x09 || c == 0x0A || c == 0x0B || c == 0x0C || c == 0x0D
    || c == 0x20 || c == 0xA0 || c == 0x1680
    || (0x2000 <= c <= 0x200A)
    || c == 0x2028 || c == 0x2029 || c == 0x202F || c == 0x205F
    || c == 0x3000 || c == 0xFEFF
  }

  /** How many white-space code units open `s`. */
  function LeadingWhiteSpace(s: JsString): (n: nat)
    ensures n <= |s|
    ensures forall i :: 0 <= i < n ==> IsWhiteSpace(s[i])
    ensures n < |s| ==> !IsWhiteSpace(s[n])
  {
    if |s| > 0 && IsWhiteSpace(s[0]) then 1 + LeadingWhiteSpace(s[1..]) else 0
  }

  /** How many white-space code units close `s`. */
  function TrailingWhiteSpace(s: JsString): (n: nat)
    ensures n <= |s|
    ensures forall i :: |s| - n <= i < |s| ==> IsWhiteSpace(s[i])
    ensures n < |s| ==> !IsWhiteSpace(s[|s| - 1 - n])
  {
    if |s| > 0 && IsWhiteSpace(s[|s| - 1]) then 1 + TrailingWhiteSpace(s[..|s| - 1]) else 0
  }

  /**
   * The slice `s[lo..hi]` that `s.trim()` keeps: everything outside it is
   * white space, and it neither starts nor ends with white space.
   */
  function TrimBounds(s: JsString): (b: (nat, nat))
    ensures b.0 <= b.1 <= |s|
    ensures forall i :: 0 <= i < b.0 ==> IsWhiteSpace(s[i])
    ensures forall i :: b.1 <= i < |s| ==> IsWhiteSpace(s[i])
    ensures b.0 < b.1 ==> !IsWhiteSpace(s[b.0]) && !IsWhiteSpace(s[b.1 - 1])
  {
    var lo := LeadingWhiteSpace(s);
    var rest := s[lo..];
    var n := TrailingWhiteSpace(rest);
    assert forall i :: lo + |rest| - n <= i < |s| ==> s[i] == rest[i - lo];
    (lo, lo + |rest| - n)
  }

  /** `s.trim()`: empty exactly when `s` is all white space, else unpadded. */
  function Trim(s: JsString): (t: JsString)
    ensures |t| <= |s|
    ensures t == [] <==> forall i :: 0 <= i < |s| ==> IsWhiteSpace(s[i])
    ensures t != [] ==> !IsWhiteSpace(t[0]) && !IsWhiteSpace(t[|t| - 1])
  {
    var b := TrimBounds(s);
    s[b.0..b.1]
  }

  /** Trimming a trimmed string changes nothing. */
  lemma TrimIdempotent(s: JsString)
    ensures Trim(Trim(s)) == Trim(s)
  {
    var t := Trim(s);
    var b := TrimBounds(t);
    if |t| > 0 {
      assert !IsWhiteSpace(t[0]) && !IsWhiteSpace(t[|t| - 1]);
      assert b.0 == 0;
      assert b.1 == |t|;
    }
  }

  /**
   * `(s.length > 20) ? s.slice(0, 20) : s`: the prefix of `s` that is at
   * most twenty code units long.
   */
  function Truncate(s: JsString): (r: JsString)
    ensures |r| == if |s| < MaxWriteUnits then |s| else MaxWriteUnits
    ensures r == s[..|r|]
  {
    if |s| > MaxWriteUnits then s[..MaxWriteUnits] else s
  }

  /** Truncating twice is truncating once. */
  lemma TruncateIdempotent(s: JsString)
    ensures Truncate(Truncate(s)) == Truncate(s)
  {
  }
}
