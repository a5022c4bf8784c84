/**
 * Strings assembled from pieces: concatenation of a list of pieces, where
 * each piece lands in the result, and substring occurrence.
 */
module Text {

  /** The pieces joined with nothing between them, in order (a template literal). */
  function Concat(pieces: seq<string>): string {
    if pieces == [] then "" else pieces[0] + Concat(pieces[1..])
  }

  /** Where piece `i` starts inside `Concat(pieces)`. */
  function Offset(pieces: seq<string>, i: nat): nat
    requires i <= |pieces|
  {
    |Concat(pieces[..i])|
  }

  /** `needle` occurs in `hay` starting at index `k`. */
  predicate Occurs(needle: string, hay: string, k: nat) {
    k + |needle| <= |hay| && hay[k..k + |needle|] == needle
  }

  /** `needle` occurs somewhere in `hay`. */
  predicate Contains(hay: string, needle: string) {
    exists k: nat | k <= |hay| :: Occurs(needle, hay, k)
  }

  /** Number of occurrences of character `c` in `s`. */
  function CountChar(s: string, c: char): nat {
    if s == [] then 0 else (if s[0] == c then 1 else 0) + CountChar(s[1..], c)
  }

  /** Splitting the piece list at `i` splits the concatenation at `Offset(pieces, i)`. */
  lemma {:induction false} ConcatSplit(pieces: seq<string>, i: nat)
    requires i <= |pieces|
    ensures Concat(pieces) == Concat(pieces[..i]) + Concat(pieces[i..])
  {
    if i == 0 {
      assert pieces[..0] == [] && pieces[0..] == pieces;
    } else {
      ConcatSplit(pieces[1..], i - 1);
      assert pieces[1..][..i - 1] == pieces[1..i];
      assert pieces[1..][i - 1..] == pieces[i..];
      assert pieces[..i][1..] == pieces[1..i];
    }
  }

  /** Every piece appears verbatim in the concatenation, at its offset. */
  lemma PieceOccurs(pieces: seq<string>, i: nat)
    requires i < |pieces|
    ensures Occurs(pieces[i], Concat(pieces), Offset(pieces, i))
  {
    ConcatSplit(pieces, i);
    assert Concat(pieces[i..]) == pieces[i] + Concat(pieces[i + 1..]);
    OccursInside(Concat(pieces[..i]), pieces[i], Concat(pieces[i + 1..]));
  }

  /** Three neighbouring pieces appear side by side in the concatenation. */
  lemma ConcatWindow(pieces: seq<string>, i: nat)
    requires 0 < i < |pieces| - 1
    ensures Concat(pieces)
         == Concat(pieces[..i - 1]) + (pieces[i - 1] + pieces[i] + pieces[i + 1]) + Concat(pieces[i + 2..])
  {
    ConcatSplit(pieces, i - 1);
    var rest := pieces[i - 1..];
    ConcatFirstThree(rest);
    assert rest[3..] == pieces[i + 2..];
    assert rest[0] + rest[1] + rest[2] == pieces[i - 1] + pieces[i] + pieces[i + 1];
  }

  lemma ConcatFirstThree(pieces: seq<string>)
    requires |pieces| >= 3
    ensures Concat(pieces) == (pieces[0] + pieces[1] + pieces[2]) + Concat(pieces[3..])
  {
    var p1 := pieces[1..];
    var p2 := p1[1..];
    assert p2[1..] == pieces[3..];
    var tail := Concat(pieces[3..]);
    assert Concat(p2) == pieces[2] + tail;
    assert Concat(p1) == pieces[1] + (pieces[2] + tail);
    assert Concat(pieces) == pieces[0] + (pieces[1] + (pieces[2] + tail));
  }

  lemma OccursInside(a: string, x: string, b: string)
    ensures Occurs(x, a + x + b, |a|)
  {
  }

  lemma ContainsInside(a: string, x: string, b: string)
    ensures Contains(a + x + b, x)
  {
    OccursInside(a, x, b);
  }

  lemma ContainsPrefix(a: string, b: string)
    ensures Contains(a + b, a)
  {
    assert (a + b)[0..|a|] == a;
    assert Occurs(a, a + b, 0);
  }

  /** An occurrence inside a middle part is an occurrence in the whole, shifted by the prefix. */
  lemma OccursShift(needle: string, a: string, mid: string, b: string, k: nat)
    requires Occurs(needle, mid, k)
    ensures Occurs(needle, a + mid + b, |a| + k)
  {
  }

  /** Whatever occurs in one piece occurs in the concatenation. */
  lemma ContainsWithinPiece(pieces: seq<string>, i: nat, needle: string)
    requires i < |pieces| && Contains(pieces[i], needle)
    ensures Contains(Concat(pieces), needle)
  {
    var k: nat :| k <= |pieces[i]| && Occurs(needle, pieces[i], k);
    ConcatSplit(pieces, i);
    assert Concat(pieces[i..]) == pieces[i] + Concat(pieces[i + 1..]);
    assert Concat(pieces) == Concat(pieces[..i]) + pieces[i] + Concat(pieces[i + 1..]);
    OccursShift(needle, Concat(pieces[..i]), pieces[i], Concat(pieces[i + 1..]), k);
  }

  /** Containment is transitive. */
  lemma ContainsTransitive(hay: string, mid: string, needle: string)
    requires Contains(hay, mid) && Contains(mid, needle)
    ensures Contains(hay, needle)
  {
    var k: nat :| k <= |hay| && Occurs(mid, hay, k);
    var j: nat :| j <= |mid| && Occurs(needle, mid, j);
    OccursShift(needle, hay[..k], mid, hay[k + |mid|..], j);
    assert hay == hay[..k] + mid + hay[k + |mid|..];
  }

  lemma {:induction false} CountCharAppend(s: string, t: string, c: char)
    ensures CountChar(s + t, c) == CountChar(s, c) + CountChar(t, c)
  {
    if s == [] {
      assert s + t == t;
    } else {
      assert (s + t)[1..] == s[1..] + t;
      CountCharAppend(s[1..], t, c);
    }
  }

  lemma {:induction false} CountCharAbsent(s: string, c: char)
    requires c !in s
    ensures CountChar(s, c) == 0
  {
    if s != [] {
      assert c !in s[1..];
      CountCharAbsent(s[1..], c);
    }
  }
}
