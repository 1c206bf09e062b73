/**
 * How the composite keys of the palette come apart again.
 *
 * A palette key is a color name, `color_<group>` or `color_<sub>_<group>`.
 * When the names themselves contain no `_`, the part before the first `_`
 * is the color, the number of `_` tells the three forms apart, and the
 * remaining parts are the group and subtone names.
 */
module KeyNames {
  import opened PaletteBuilder

  /** The number of separators `_` in a key. */
  function Seps(k: string): nat
  {
    multiset(k)['_']
  }

  /** The part of a key before its first separator. */
  function Head(k: string): string
  {
    if k == [] || k[0] == '_' then [] else [k[0]] + Head(k[1..])
  }

  lemma SepsAppend(a: string, b: string)
    ensures Seps(a + b) == Seps(a) + Seps(b)
  {
    assert multiset(a + b) == multiset(a) + multiset(b);
  }

  /** A separator-free name is its own head, even with a separated tail behind it. */
  lemma {:induction false} HeadOf(a: string, rest: string)
    requires '_' !in a
    requires rest == [] || rest[0] == '_'
    ensures Head(a + rest) == a
    decreases |a|
  {
    if a != [] {
      assert (a + rest)[0] == a[0];
      assert (a + rest)[1..] == a[1..] + rest;
      HeadOf(a[1..], rest);
    } else {
      assert a + rest == rest;
    }
  }

  /** `a_x` with a separator-free `a` splits back into `a` and `x`. */
  lemma SplitKey(a: string, x: string)
    requires '_' !in a
    ensures Head(a + "_" + x) == a
    ensures (a + "_" + x)[|a| + 1..] == x
    ensures Seps(a + "_" + x) == 1 + Seps(x)
  {
    assert a + "_" + x == a + ("_" + x);
    HeadOf(a, "_" + x);
    SepsAppend(a + "_", x);
    SepsAppend(a, "_");
    assert multiset(a)['_'] == 0;
  }

  /** A plain color name: it is its own head and has no separator. */
  lemma PlainKey(c: string)
    requires '_' !in c
    ensures Head(c) == c && Seps(c) == 0
  {
    HeadOf(c, []);
    assert c + [] == c;
  }

  /** `color_<group>` names its color, its group, and has one separator more than the group. */
  lemma ToneKeyParts(c: string, g: string)
    requires '_' !in c
    ensures Head(ToneKey(c, g)) == c
    ensures ToneKey(c, g)[|c| + 1..] == g
    ensures Seps(ToneKey(c, g)) == 1 + Seps(g)
  {
    SplitKey(c, g);
  }

  /** `color_<sub>_<group>` names its color, then its subtone and group. */
  lemma SubtoneKeyParts(c: string, s: string, g: string)
    requires '_' !in c && '_' !in s
    ensures Head(SubtoneKey(c, s, g)) == c
    ensures SubtoneKey(c, s, g)[|c| + 1..] == s + "_" + g
    ensures Seps(SubtoneKey(c, s, g)) == 2 + Seps(g)
  {
    assert SubtoneKey(c, s, g) == c + "_" + (s + "_" + g);
    SplitKey(c, s + "_" + g);
    SplitKey(s, g);
  }

  /** `color_<sub>_<group>` begins with its color, whatever the other names. */
  lemma SubtoneKeyHead(c: string, s: string, g: string)
    requires '_' !in c
    ensures Head(SubtoneKey(c, s, g)) == c
  {
    assert SubtoneKey(c, s, g) == c + "_" + (s + "_" + g);
    SplitKey(c, s + "_" + g);
  }

  /** Tone keys of plain colors are equal only for the same color and group. */
  lemma ToneKeysDiffer(c: string, g: string, c2: string, g2: string)
    requires '_' !in c && '_' !in c2
    requires c != c2 || g != g2
    ensures ToneKey(c, g) != ToneKey(c2, g2)
  {
    ToneKeyParts(c, g);
    ToneKeyParts(c2, g2);
  }

  /** Subtone keys of plain names are equal only for the same color, subtone and group. */
  lemma SubtoneKeysDiffer(c: string, s: string, g: string, c2: string, s2: string, g2: string)
    requires '_' !in c && '_' !in c2 && '_' !in s && '_' !in s2
    requires c != c2 || s != s2 || g != g2
    ensures SubtoneKey(c, s, g) != SubtoneKey(c2, s2, g2)
  {
    SubtoneKeyParts(c, s, g);
    SubtoneKeyParts(c2, s2, g2);
    SplitKey(s, g);
    SplitKey(s2, g2);
  }
}
