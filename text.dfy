/**
 * The JavaScript string built-ins the pipeline relies on, over `seq<char>`:
 * substring search (`includes`, a regex made of literal alternatives),
 * `replace` with a string pattern (first occurrence only), `split` on one
 * character, `join`, truthiness of an optional string and the rendering of
 * a possibly `undefined` value inside a template literal.
 */
module Text {
  import opened Wrappers

  /** `p` occurs in `s` starting at index `i`. */
  predicate OccursAt(s: string, p: string, i: nat) {
    i + |p| <= |s| && s[i..i + |p|] == p
  }

  /** `s.includes(p)`, also what `/p/.test(s)` decides for a literal `p`. */
  predicate Contains(s: string, p: string)
    decreases |s|
  {
    OccursAt(s, p, 0) || (|s| > 0 && Contains(s[1..], p))
  }

  /** The recursive search agrees with the existence of an occurrence. */
  lemma {:induction false} ContainsIff(s: string, p: string)
    ensures Contains(s, p) <==> exists i: nat :: OccursAt(s, p, i)
    decreases |s|
  {
    if |s| > 0 {
      ContainsIff(s[1..], p);
      forall i: nat
        ensures OccursAt(s[1..], p, i) <==> OccursAt(s, p, i + 1)
      {
        if i + 1 + |p| <= |s| {
          assert s[1..][i..i + |p|] == s[i + 1..i + 1 + |p|];
        }
      }
      if Contains(s, p) && !OccursAt(s, p, 0) {
        var i: nat :| OccursAt(s[1..], p, i);
        assert OccursAt(s, p, i + 1);
      }
      if exists i: nat :: OccursAt(s, p, i) {
        var i: nat :| OccursAt(s, p, i);
        if i > 0 {
          assert OccursAt(s[1..], p, i - 1);
        }
      }
    } else {
      if exists i: nat :: OccursAt(s, p, i) {
        var i: nat :| OccursAt(s, p, i);
        assert i == 0;
      }
    }
  }

  /** `s.replace(p, '')`: the first occurrence of `p` removed, if there is one. */
  function StripFirst(s: string, p: string): string
    decreases |s|
  {
    if OccursAt(s, p, 0) then s[|p|..]
    else if |s| == 0 then s
    else [s[0]] + StripFirst(s[1..], p)
  }

  /** Removing the first occurrence: the leftmost match goes and the rest is kept. */
  lemma {:induction false} StripFirstRemovesLeftmost(s: string, p: string, i: nat)
    requires OccursAt(s, p, i)
    requires forall j: nat :: j < i ==> !OccursAt(s, p, j)
    ensures StripFirst(s, p) == s[..i] + s[i + |p|..]
    decreases i
  {
    if i > 0 {
      assert !OccursAt(s, p, 0);
      assert s[1..][i - 1..i - 1 + |p|] == s[i..i + |p|];
      forall j: nat | j < i - 1
        ensures !OccursAt(s[1..], p, j)
      {
        assert !OccursAt(s, p, j + 1);
        if j + |p| <= |s| - 1 {
          assert s[1..][j..j + |p|] == s[j + 1..j + 1 + |p|];
        }
      }
      StripFirstRemovesLeftmost(s[1..], p, i - 1);
      assert [s[0]] + s[1..][..i - 1] == s[..i];
    }
  }

  /** Without an occurrence `s` is left as it is. */
  lemma {:induction false} StripFirstWithoutMatch(s: string, p: string)
    requires !Contains(s, p)
    ensures StripFirst(s, p) == s
    decreases |s|
  {
    if |s| > 0 {
      StripFirstWithoutMatch(s[1..], p);
    }
  }

  /** `s.split(c)`: never empty; `"".split(c)` is `[""]`. */
  function Split(s: string, c: char): (r: seq<string>)
    ensures |r| >= 1
    decreases |s|
  {
    if s == [] then [""]
    else
      var rest := Split(s[1..], c);
      if s[0] == c then [""] + rest else [[s[0]] + rest[0]] + rest[1..]
  }

  /** `xs.join(sep)`. */
  function Join(xs: seq<string>, sep: string): string
  {
    if |xs| == 0 then ""
    else if |xs| == 1 then xs[0]
    else xs[0] + sep + Join(xs[1..], sep)
  }

  /** A join introduces no character that is in neither the pieces nor the separator. */
  lemma {:induction false} JoinAvoids(xs: seq<string>, sep: string, bad: set<char>)
    requires forall k :: 0 <= k < |xs| ==> forall ch :: ch in xs[k] ==> ch !in bad
    requires forall ch :: ch in sep ==> ch !in bad
    ensures forall ch :: ch in Join(xs, sep) ==> ch !in bad
    decreases |xs|
  {
    if |xs| > 1 {
      JoinAvoids(xs[1..], sep, bad);
      assert forall ch :: ch in xs[0] ==> ch !in bad;
    }
  }

  /** Every character of `x` is a character of `s` other than `c`. */
  predicate PieceOf(x: string, s: string, c: char) {
    forall ch :: ch in x ==> ch != c && ch in s
  }

  /** Every piece of a split is made of characters of the input other than the separator. */
  lemma {:induction false} SplitPieces(s: string, c: char)
    ensures forall k :: 0 <= k < |Split(s, c)| ==> PieceOf(Split(s, c)[k], s, c)
    decreases |s|
  {
    if s != [] {
      var rest := Split(s[1..], c);
      SplitPieces(s[1..], c);
      var r := Split(s, c);
      forall k | 0 <= k < |r|
        ensures PieceOf(r[k], s, c)
      {
        if s[0] == c {
          assert r == [""] + rest;
          if k > 0 {
            assert r[k] == rest[k - 1] && PieceOf(rest[k - 1], s[1..], c);
          }
        } else {
          assert r == [[s[0]] + rest[0]] + rest[1..];
          if k == 0 {
            assert PieceOf(rest[0], s[1..], c);
          } else {
            assert r[k] == rest[k] && PieceOf(rest[k], s[1..], c);
          }
        }
      }
    }
  }

  /** Joining the pieces of a split with the same separator gives back the input. */
  lemma {:induction false} JoinSplit(s: string, c: char)
    ensures Join(Split(s, c), [c]) == s
    decreases |s|
  {
    if s != [] {
      var rest := Split(s[1..], c);
      JoinSplit(s[1..], c);
      if s[0] == c {
        assert Split(s, c) == [""] + rest;
        assert ([""] + rest)[1..] == rest;
      } else {
        var r := [[s[0]] + rest[0]] + rest[1..];
        assert Split(s, c) == r;
        if |rest| == 1 {
          assert Join(r, [c]) == [s[0]] + rest[0];
        } else {
          assert r[1..] == rest[1..];
          assert Join(r, [c]) == ([s[0]] + rest[0]) + [c] + Join(rest[1..], [c]);
        }
      }
    }
  }

  /** A string without the separator splits into itself. */
  lemma {:induction false} SplitWithoutSeparator(x: string, c: char)
    requires c !in x
    ensures Split(x, c) == [x]
    decreases |x|
  {
    if x != [] {
      SplitWithoutSeparator(x[1..], c);
      assert [x[0]] + x[1..] == x;
    }
  }

  /** A leading piece without the separator is split off on its own. */
  lemma {:induction false} SplitAfterPiece(x: string, c: char, rest: string)
    requires c !in x
    ensures Split(x + [c] + rest, c) == [x] + Split(rest, c)
    decreases |x|
  {
    var s := x + [c] + rest;
    if x == [] {
      assert s[1..] == rest;
    } else {
      assert s[1..] == x[1..] + [c] + rest;
      SplitAfterPiece(x[1..], c, rest);
      assert [x[0]] + x[1..] == x;
    }
  }

  /** Splitting a join of separator-free pieces gives back the pieces. */
  lemma {:induction false} SplitJoin(xs: seq<string>, c: char)
    requires |xs| >= 1
    requires forall k :: 0 <= k < |xs| ==> c !in xs[k]
    ensures Split(Join(xs, [c]), c) == xs
    decreases |xs|
  {
    if |xs| == 1 {
      SplitWithoutSeparator(xs[0], c);
    } else {
      SplitJoin(xs[1..], c);
      SplitAfterPiece(xs[0], c, Join(xs[1..], [c]));
      assert [xs[0]] + xs[1..] == xs;
    }
  }

  /** `(s || '').length` is non-zero: the value is defined and not empty. */
  predicate Truthy(s: Option<string>) {
    s.Some? && s.value != ""
  }

  /** A possibly `undefined` value inside a template literal. */
  function Template(s: Option<string>): string {
    s.GetOr("undefined")
  }
}
