/** Strings as sequences of characters: `String.prototype.trim` and the substring test that a
  * SQL `LIKE '%p%'` pattern performs. */
module Text {

  /** The characters that `trim` removes: ECMAScript WhiteSpace (tab, vertical tab, form feed,
    * space, no-break space, byte order mark and the Unicode space separators) and the line
    * terminators. */
  predicate IsSpace(c: char) {
    || c == '\t' || c == '\n' || c == '\U{000B}' || c == '\U{000C}' || c == '\r' || c == ' '
    || c == '\U{00A0}' || c == '\U{1680}' || ('\U{2000}' <= c <= '\U{200A}')
    || c == '\U{2028}' || c == '\U{2029}' || c == '\U{202F}' || c == '\U{205F}'
    || c == '\U{3000}' || c == '\U{FEFF}'
  }

  /** `s` with its leading white space removed. */
  function TrimStart(s: string): (r: string)
    ensures |r| <= |s| && r == s[|s| - |r|..]
    ensures r == [] || !IsSpace(r[0])
    ensures forall i :: 0 <= i < |s| - |r| ==> IsSpace(s[i])
  {
    if s != [] && IsSpace(s[0]) then TrimStart(s[1..]) else s
  }

  /** `s` with its trailing white space removed. */
  function TrimEnd(s: string): (r: string)
    ensures |r| <= |s| && r == s[..|r|]
    ensures r == [] || !IsSpace(r[|r| - 1])
    ensures forall i :: |r| <= i < |s| ==> IsSpace(s[i])
  {
    if s != [] && IsSpace(s[|s| - 1]) then TrimEnd(s[..|s| - 1]) else s
  }

  /** `String.prototype.trim`. */
  function Trim(s: string): (r: string)
  {
    TrimEnd(TrimStart(s))
  }

  /** The trimmed string has no white space at either end. */
  lemma TrimEndsNotSpace(s: string)
    ensures Trim(s) == [] || (!IsSpace(Trim(s)[0]) && !IsSpace(Trim(s)[|Trim(s)| - 1]))
  {
    var t := TrimStart(s);
    var r := TrimEnd(t);
    if r != [] {
      assert r[0] == t[0];
    }
  }

  /** The trimmed string is the contiguous slice `s[k..k + |Trim(s)|]` of the input, where `k`
    * counts the leading white space, and it has no white space at either end. */
  lemma TrimIsSlice(s: string, k: int)
    requires k == |s| - |TrimStart(s)|
    ensures 0 <= k <= |s| - |Trim(s)| && s[k..k + |Trim(s)|] == Trim(s)
    ensures Trim(s) == [] || (!IsSpace(Trim(s)[0]) && !IsSpace(Trim(s)[|Trim(s)| - 1]))
  {
    var t := TrimStart(s);
    var r := TrimEnd(t);
    assert t == s[k..];
    assert r == t[..|r|];
    assert s[k..k + |r|] == t[..|r|];
    TrimEndsNotSpace(s);
  }

  /** Everything `Trim` cuts away, on either side, is white space. */
  lemma TrimCutsOnlySpace(s: string, k: int)
    requires k == |s| - |TrimStart(s)|
    ensures forall i :: 0 <= i < k ==> IsSpace(s[i])
    ensures forall i :: k + |Trim(s)| <= i < |s| ==> IsSpace(s[i])
  {
    var t := TrimStart(s);
    var r := TrimEnd(t);
    assert t == s[k..];
    forall i | k + |r| <= i < |s| ensures IsSpace(s[i]) {
      assert s[i] == t[i - k];
    }
  }

  /** Trimming twice is trimming once. */
  lemma TrimIdempotent(s: string)
    ensures Trim(Trim(s)) == Trim(s)
  {
    var r := Trim(s);
    TrimIsSlice(s, |s| - |TrimStart(s)|);
    assert TrimStart(r) == r;
    assert TrimEnd(r) == r;
  }

  /** `trim` leaves nothing exactly when the string is all white space. */
  lemma TrimEmptyIff(s: string)
    ensures Trim(s) == [] <==> forall i :: 0 <= i < |s| ==> IsSpace(s[i])
  {
    var t := TrimStart(s);
    assert t != [] ==> t[0] == s[|s| - |t|];
  }

  /** The trimmed string occurs in the input. */
  lemma TrimIsSubstring(s: string)
    ensures IsSubstring(Trim(s), s)
  {
    var k := |s| - |TrimStart(s)|;
    TrimIsSlice(s, k);
    assert OccursAt(Trim(s), s, k);
  }

  /** `p` occurs in `s` as a contiguous substring: what `s LIKE '%p%'` tests when `p` holds no
    * wildcard characters. */
  predicate IsSubstring(p: string, s: string) {
    exists i | 0 <= i <= |s| - |p| :: OccursAt(p, s, i)
  }

  /** `p` occurs in `s` starting at index `i`. */
  predicate OccursAt(p: string, s: string, i: int) {
    0 <= i <= |s| - |p| && s[i..i + |p|] == p
  }

  /** JavaScript's `length`: the number of UTF-16 code units, two for a character outside the
    * Basic Multilingual Plane. */
  function Utf16Length(s: string): (n: nat)
    ensures |s| <= n <= 2 * |s|
    ensures (forall i :: 0 <= i < |s| ==> (s[i] as int) < 0x1_0000) ==> n == |s|
  {
    if s == [] then 0
    else
      assert forall i :: 0 <= i < |s| - 1 ==> s[..|s| - 1][i] == s[i];
      Utf16Length(s[..|s| - 1]) + (if (s[|s| - 1] as int) < 0x1_0000 then 1 else 2)
  }

  /** Three characters outside the Basic Multilingual Plane are six code units. */
  lemma AstralLength()
    ensures var s := "\U{1F600}\U{1F600}\U{1F600}"; |s| == 3 && Utf16Length(s) == 6
  {
    var s := "\U{1F600}\U{1F600}\U{1F600}";
    assert s[..2][..1][..0] == [];
  }
}
