/// term/render.go: fixed-width cells for the details columns. Strings are
/// byte strings in the source; here each `char` stands for one byte.
module Render {

  /** strings.Repeat(" ", n). */
  function Spaces(n: nat): (r: string)
    ensures |r| == n
    ensures forall i :: 0 <= i < n ==> r[i] == ' '
  {
    seq(n, _ => ' ')
  }

  /** Pads s with spaces, or truncates it, to exactly `size` bytes. A negative
      size makes the source slice out of range, so size is a nat here. */
  function Width(s: string, size: nat): (r: string)
    ensures |r| == size
    ensures |s| > size ==> r == s[..size]
    ensures |s| <= size ==> r[..|s|] == s && r[|s|..] == Spaces(size - |s|)
    ensures |s| == size ==> r == s
  {
    if |s| > size then s[..size] else s + Spaces(size - |s|)
  }

  /** A cell already of the right width is left as it is. */
  lemma WidthIdempotent(s: string, size: nat)
    ensures Width(Width(s, size), size) == Width(s, size)
  {
  }

  /** A value no wider than its cell is kept whole: nothing of it is cut. */
  lemma WidthKeepsShortValue(s: string, size: nat)
    requires |s| <= size
    ensures Width(s, size) == s + Spaces(size - |s|)
  {
  }
}
