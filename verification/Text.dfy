/** The string operations of Python that the system relies on. */
module Text {

  /** Characters for which str.isspace() holds; these are what str.strip() removes. */
  predicate IsSpace(c: char) {
    var n := c as int;
    || 0x09 <= n <= 0x0D || 0x1C <= n <= 0x20 || n == 0x85 || n == 0xA0 || n == 0x1680
    || 0x2000 <= n <= 0x200A || n == 0x2028 || n == 0x2029 || n == 0x202F || n == 0x205F || n == 0x3000
  }

  lemma AsciiSpaces(c: char)
    requires c as int < 128
    ensures IsSpace(c) <==> c in {' ', '\t', '\n', '\r'} || c as int in {11, 12, 28, 29, 30, 31}
  {
  }

  /** The number of spaces in front, counted from position i on. */
  function TextStart(s: string, i: nat := 0): (k: nat)
    requires i <= |s|
    decreases |s| - i
    ensures i <= k <= |s|
    ensures forall n | i <= n < k :: IsSpace(s[n])
    ensures k < |s| ==> !IsSpace(s[k])
  {
    if i < |s| && IsSpace(s[i]) then TextStart(s, i + 1) else i
  }

  /** Where the trailing spaces of s[..k] begin. */
  function TextEnd(s: string, k: nat): (e: nat)
    requires k <= |s|
    ensures e <= k
    ensures forall n | e <= n < k :: IsSpace(s[n])
    ensures e > 0 ==> !IsSpace(s[e - 1])
  {
    if k > 0 && IsSpace(s[k - 1]) then TextEnd(s, k - 1) else k
  }

  /** str.strip(). */
  function Strip(s: string): string {
    var i, k := TextStart(s), TextEnd(s, |s|);
    if i < k then s[i..k] else ""
  }

  /** Nothing to strip: empty, or no space at either end. */
  predicate Trimmed(s: string) { s == "" || (!IsSpace(s[0]) && !IsSpace(s[|s| - 1])) }

  predicate Blank(s: string) { forall n | 0 <= n < |s| :: IsSpace(s[n]) }

  lemma EdgesAreBlank(s: string)
    ensures Blank(s[..TextStart(s)]) && Blank(s[TextEnd(s, |s|)..])
    ensures TextStart(s) >= TextEnd(s, |s|) ==> Blank(s)
  {
  }

  lemma CoreIsTrimmed(s: string)
    ensures Trimmed(Strip(s))
  {
  }

  /** Strip cuts s into spaces, the result and spaces, and leaves nothing more to cut. */
  lemma StripCuts(s: string) returns (front: string, back: string)
    ensures s == front + Strip(s) + back && Blank(front) && Blank(back) && Trimmed(Strip(s))
  {
    EdgesAreBlank(s);
    CoreIsTrimmed(s);
    if TextStart(s) < TextEnd(s, |s|) {
      front, back := s[..TextStart(s)], s[TextEnd(s, |s|)..];
    } else {
      front, back := s, "";
    }
  }

  /** What Strip returns is exactly what Strip leaves alone. */
  lemma TrimmedIsStripped(s: string)
    requires Trimmed(s)
    ensures Strip(s) == s
  {
    if s != "" { assert TextStart(s) == 0 && TextEnd(s, |s|) == |s|; }
  }

  lemma StripIsIdempotent(s: string)
    ensures Strip(Strip(s)) == Strip(s)
  {
    CoreIsTrimmed(s);
    TrimmedIsStripped(Strip(s));
  }

  predicate OccursAt(s: string, t: string, i: nat) { i + |t| <= |s| && s[i..i + |t|] == t }

  /** Python's "t in s". */
  predicate Contains(s: string, t: string) { exists i | 0 <= i <= |s| :: OccursAt(s, t, i) }

  /** The first occurrence of t at or after i. */
  function Find(s: string, t: string, i: nat): (k: nat)
    requires exists n | i <= n <= |s| :: OccursAt(s, t, n)
    decreases |s| - i
    ensures i <= k && OccursAt(s, t, k) && forall n | i <= n < k :: !OccursAt(s, t, n)
  {
    if OccursAt(s, t, i) then i else Find(s, t, i + 1)
  }

  /** s.split(t, 1)[1]. */
  function After(s: string, t: string): string
    requires Contains(s, t)
  {
    s[Find(s, t, 0) + |t|..]
  }
}
