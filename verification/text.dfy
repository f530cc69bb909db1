/**
 * The two string operations the widget applies to user input: JavaScript's
 * `String.prototype.trim` on a new label name, and the filename stem
 * `name.split(".")[0]` used to name the exported image and download.
 */
module Text {

  /**
   * The code points `trim` strips from both ends: ECMAScript WhiteSpace
   * (TAB, VT, FF, SP, NBSP, ZWNBSP and the other Unicode "Zs" spaces) and
   * LineTerminator (LF, CR, LS, PS).
   */
  predicate IsTrimmable(c: char)
  {
    c == '\t' || c == '\n' || c == '\U{B}' || c == '\U{C}' || c == '\r' || c == ' '
    || c == '\U{A0}' || c == '\U{1680}' || ('\U{2000}' <= c <= '\U{200A}')
    || c == '\U{2028}' || c == '\U{2029}' || c == '\U{202F}' || c == '\U{205F}'
    || c == '\U{3000}' || c == '\U{FEFF}'
  }

  predicate AllTrimmable(s: string)
  {
    forall k :: 0 <= k < |s| ==> IsTrimmable(s[k])
  }

  /** The length of the longest all-trimmable prefix of `s`. */
  function LeadingTrimmable(s: string): (n: nat)
    ensures n <= |s|
    ensures forall k :: 0 <= k < n ==> IsTrimmable(s[k])
    ensures n < |s| ==> !IsTrimmable(s[n])
  {
    if |s| > 0 && IsTrimmable(s[0]) then 1 + LeadingTrimmable(s[1..]) else 0
  }

  /** The length of the longest all-trimmable suffix of `s`. */
  function TrailingTrimmable(s: string): (n: nat)
    ensures n <= |s|
    ensures forall k :: |s| - n <= k < |s| ==> IsTrimmable(s[k])
    ensures n < |s| ==> !IsTrimmable(s[|s| - 1 - n])
  {
    if |s| > 0 && IsTrimmable(s[|s| - 1]) then 1 + TrailingTrimmable(s[..|s| - 1]) else 0
  }

  /**
   * `s.trim()`: `s` with every leading and trailing trimmable code point
   * removed. The result sits inside `s` between two all-trimmable parts and
   * neither starts nor ends with a trimmable code point.
   */
  function Trim(s: string): (r: string)
    ensures |r| <= |s|
    ensures r == [] || (!IsTrimmable(r[0]) && !IsTrimmable(r[|r| - 1]))
    ensures r == [] <==> AllTrimmable(s)
    ensures LeadingTrimmable(s) + |r| <= |s|
    ensures s == s[..LeadingTrimmable(s)] + r + s[LeadingTrimmable(s) + |r|..]
    ensures AllTrimmable(s[..LeadingTrimmable(s)])
    ensures AllTrimmable(s[LeadingTrimmable(s) + |r|..])
  {
    var i := LeadingTrimmable(s);
    if i == |s| then
      assert s[..i] == s;
      []
    else
      var j := |s| - TrailingTrimmable(s);
      TrimmedCoreNonEmpty(s, i, j);
      s[i..j]
  }

  /** Where the leading part stops short of the end, the trailing part starts after it. */
  lemma TrimmedCoreNonEmpty(s: string, i: nat, j: int)
    requires i == LeadingTrimmable(s) && i < |s|
    requires j == |s| - TrailingTrimmable(s)
    ensures i < j
    ensures s == s[..i] + s[i..j] + s[j..]
    ensures !AllTrimmable(s)
  {
    assert !IsTrimmable(s[i]);
    SplitInThree(s, i, j);
  }

  lemma SplitInThree(s: string, i: nat, j: nat)
    requires i <= j <= |s|
    ensures s == s[..i] + s[i..j] + s[j..]
  {
  }

  /**
   * `name.split(".")[0]`: the part of `name` before its first `.`, or all of
   * `name` when it has none.
   */
  function Stem(name: string): (r: string)
    ensures |r| <= |name| && r == name[..|r|]
    ensures '.' !in r
    ensures |r| < |name| ==> name[|r|] == '.'
  {
    if name == [] || name[0] == '.' then []
    else [name[0]] + Stem(name[1..])
  }

  /** A base name without dots is recovered from `base + "." + extension`. */
  lemma {:induction false} StemOfDottedName(base: string, extension: string)
    requires '.' !in base
    ensures Stem(base + "." + extension) == base
  {
    if base != [] {
      assert (base + "." + extension)[1..] == base[1..] + "." + extension;
      StemOfDottedName(base[1..], extension);
    }
  }

  /** Only the text before the first dot is kept: "scan.v2.png" has stem "scan". */
  lemma StemStopsAtFirstDot()
    ensures Stem("scan.v2.png") == "scan"
  {
    StemOfDottedName("scan", "v2.png");
  }
}
