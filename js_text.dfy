/** `String.prototype.trim` as ECMAScript defines it: drop the longest
    prefix and the longest suffix made of WhiteSpace and LineTerminator
    code points. Both list components validate their inputs with it. */
module JsText {

  /** WhiteSpace (TAB, VT, FF, SP, NBSP, ZWNBSP and the Zs category:
      OGHAM SPACE MARK, EN QUAD to HAIR SPACE, NNBSP, MMSP, IDEOGRAPHIC
      SPACE) and LineTerminator (LF, CR, LS, PS) code points. */
  predicate IsSpace(c: char) {
    var n := c as int;
    (0x9 <= n <= 0xD) || n == 0x20 || n == 0xA0 || n == 0x1680
    || (0x2000 <= n <= 0x200A) || n == 0x2028 || n == 0x2029
    || n == 0x202F || n == 0x205F || n == 0x3000 || n == 0xFEFF
  }

  predicate AllSpace(s: string) {
    forall i :: 0 <= i < |s| ==> IsSpace(s[i])
  }

  /** The first index at or after `from` that does not hold a space, or
      `|s|` when there is none. */
  function SkipLeading(s: string, from: nat): (i: nat)
    requires from <= |s|
    decreases |s| - from
    ensures from <= i <= |s|
    ensures forall k :: from <= k < i ==> IsSpace(s[k])
    ensures i == |s| || !IsSpace(s[i])
  {
    if from < |s| && IsSpace(s[from]) then SkipLeading(s, from + 1) else from
  }

  /** The end of `s[lo..upto]` once its trailing spaces are dropped: the
      least `j >= lo` such that `s[j..upto]` is all spaces. */
  function SkipTrailing(s: string, lo: nat, upto: nat): (j: nat)
    requires lo <= upto <= |s|
    decreases upto
    ensures lo <= j <= upto
    ensures forall k :: j <= k < upto ==> IsSpace(s[k])
    ensures j == lo || !IsSpace(s[j - 1])
  {
    if upto > lo && IsSpace(s[upto - 1]) then SkipTrailing(s, lo, upto - 1) else upto
  }

  /** `s.trim()`: the slice between the leading and the trailing spaces. */
  function Trim(s: string): string {
    var i := SkipLeading(s, 0);
    s[i..SkipTrailing(s, i, |s|)]
  }

  /** `!text.trim()` holds exactly when the text is made of spaces only. */
  lemma TrimBlankIff(s: string)
    ensures Trim(s) == [] <==> AllSpace(s)
  {
    var i := SkipLeading(s, 0);
    var j := SkipTrailing(s, i, |s|);
    if AllSpace(s) {
      assert i == |s|;
    }
  }

  /** The trimmed text neither starts nor ends with a space. */
  lemma TrimEnds(s: string)
    ensures Trim(s) == [] || (!IsSpace(Trim(s)[0]) && !IsSpace(Trim(s)[|Trim(s)| - 1]))
  {
  }

  /** Trimming twice is trimming once. */
  lemma TrimIdempotent(s: string)
    ensures Trim(Trim(s)) == Trim(s)
  {
    TrimEnds(s);
    var r := Trim(s);
    assert SkipLeading(r, 0) == 0;
    assert SkipTrailing(r, 0, |r|) == |r|;
  }
}
