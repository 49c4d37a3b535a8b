/** The string operations the services use: `split('/')` and `pop()` for
    decoding composite ids, the two path patterns of the URL lookup build on
    the same split, ASCII lower-casing and substring search. */
module Strings {

  predicate StartsWith(s: string, prefix: string) {
    |prefix| <= |s| && s[..|prefix|] == prefix
  }

  /** The inverse of `split('/')`: the segments glued back with '/'. */
  function Join(segs: seq<string>): string
    requires |segs| >= 1
    decreases |segs|
  {
    if |segs| == 1 then segs[0] else segs[0] + "/" + Join(segs[1..])
  }

  predicate SlashFree(segs: seq<string>) {
    forall i :: 0 <= i < |segs| ==> '/' !in segs[i]
  }

  /** `s.split('/')`: every segment is '/'-free and joining them gives back `s`. */
  function Split(s: string): (segs: seq<string>)
    ensures |segs| >= 1 && SlashFree(segs) && Join(segs) == s
    decreases |s|
  {
    if s == "" then [""]
    else if s[0] == '/' then
      var rest := Split(s[1..]);
      assert ([""] + rest)[1..] == rest;
      [""] + rest
    else
      var rest := Split(s[1..]);
      var segs := [[s[0]] + rest[0]] + rest[1..];
      assert segs[1..] == rest[1..];
      assert s == [s[0]] + s[1..];
      segs
  }

  lemma SlashAt(x: string, y: string)
    ensures |x| < |x + "/" + y| && (x + "/" + y)[|x|] == '/'
    ensures (x + "/" + y)[..|x|] == x
  {
  }

  /** Two '/'-free heads followed by a '/' can only be split one way. */
  lemma HeadsAgree(x: string, y: string, x': string, y': string)
    requires '/' !in x && '/' !in x'
    requires x + "/" + y == x' + "/" + y'
    ensures x == x' && y == y'
  {
    var s := x + "/" + y;
    SlashAt(x, y);
    SlashAt(x', y');
    assert x == s[..|x|] == x';
    assert y == s[|x| + 1..] == y';
  }

  lemma {:induction false} JoinHasSlash(segs: seq<string>)
    requires |segs| >= 2
    ensures '/' in Join(segs)
  {
    assert Join(segs)[|segs[0]|] == '/';
  }

  /** Joining is injective on '/'-free segments. */
  lemma {:induction false} JoinInjective(a: seq<string>, b: seq<string>)
    requires |a| >= 1 && |b| >= 1 && SlashFree(a) && SlashFree(b)
    requires Join(a) == Join(b)
    ensures a == b
    decreases |a|
  {
    if |a| == 1 && |b| == 1 {
    } else if |a| == 1 {
      JoinHasSlash(b);
      assert false;
    } else if |b| == 1 {
      JoinHasSlash(a);
      assert false;
    } else {
      HeadsAgree(a[0], Join(a[1..]), b[0], Join(b[1..]));
      assert SlashFree(a[1..]) && SlashFree(b[1..]) by {
        forall i | 0 <= i < |a| - 1 ensures '/' !in a[1..][i] { assert a[1..][i] == a[i + 1]; }
        forall i | 0 <= i < |b| - 1 ensures '/' !in b[1..][i] { assert b[1..][i] == b[i + 1]; }
      }
      JoinInjective(a[1..], b[1..]);
      assert a == [a[0]] + a[1..] && b == [b[0]] + b[1..];
    }
  }

  /** Splitting undoes joining: `Join(segs).split('/')` is `segs`. */
  lemma SplitJoin(segs: seq<string>)
    requires |segs| >= 1 && SlashFree(segs)
    ensures Split(Join(segs)) == segs
  {
    JoinInjective(Split(Join(segs)), segs);
  }

  lemma {:induction false} JoinAppend(a: seq<string>, x: string)
    requires |a| >= 1
    ensures Join(a + [x]) == Join(a) + "/" + x
    decreases |a|
  {
    if |a| == 1 {
      assert (a + [x])[1..] == [x];
    } else {
      assert (a + [x])[1..] == a[1..] + [x];
      JoinAppend(a[1..], x);
    }
  }

  /** `Join(segs)` ends with its last segment, preceded by '/' unless it is the only one. */
  lemma {:induction false} JoinLast(segs: seq<string>)
    requires |segs| >= 1
    ensures var last := segs[|segs| - 1]; var s := Join(segs);
      |last| <= |s| && s[|s| - |last|..] == last &&
      (|segs| == 1 ==> s == last) && (|segs| > 1 ==> |last| < |s| && s[|s| - |last| - 1] == '/')
    decreases |segs|
  {
    if |segs| > 1 {
      JoinLast(segs[1..]);
      var tail := Join(segs[1..]);
      var last := segs[|segs| - 1];
      assert segs[1..][|segs| - 2] == last;
      var s := Join(segs);
      assert s == segs[0] + "/" + tail;
      assert s[|s| - |tail|..] == tail;
      assert s[|s| - |last|..] == tail[|tail| - |last|..];
      if |segs| == 2 {
        assert s[|s| - |last| - 1] == '/';
      } else {
        assert s[|s| - |last| - 1] == tail[|tail| - |last| - 1];
      }
    }
  }

  /** `s.split('/').pop()`: the '/'-free tail of `s` that follows its last '/'
      (all of `s` when it has none). */
  function LastSegment(s: string): (seg: string)
    ensures '/' !in seg
    ensures |seg| <= |s| && s[|s| - |seg|..] == seg
    ensures |seg| == |s| || s[|s| - |seg| - 1] == '/'
  {
    var segs := Split(s);
    JoinLast(segs);
    assert |segs| == 1 ==> s == segs[0];
    segs[|segs| - 1]
  }

  /** Decoding a composite id gives back the segment appended last. */
  lemma DecodeAppended(prefix: string, id: string)
    requires '/' !in id
    ensures LastSegment(prefix + "/" + id) == id
  {
    var a := Split(prefix);
    JoinAppend(a, id);
    assert SlashFree(a + [id]) by {
      forall i | 0 <= i < |a| + 1 ensures '/' !in (a + [id])[i] {
        if i < |a| { assert (a + [id])[i] == a[i]; }
      }
    }
    SplitJoin(a + [id]);
  }

  function LowerChar(c: char): char {
    if 'A' <= c <= 'Z' then (c as int + 32) as char else c
  }

  /** ASCII `toLowerCase()`. */
  function ToLower(s: string): (r: string)
    ensures |r| == |s|
    ensures forall i :: 0 <= i < |s| ==> r[i] == LowerChar(s[i])
    ensures forall i :: 0 <= i < |r| ==> !('A' <= r[i] <= 'Z')
  {
    if s == "" then "" else [LowerChar(s[0])] + ToLower(s[1..])
  }

  lemma ToLowerIdempotent(s: string)
    ensures ToLower(ToLower(s)) == ToLower(s)
  {
    var t := ToLower(s);
    assert forall i :: 0 <= i < |t| ==> LowerChar(t[i]) == t[i];
  }

  /** `sub` occurs in `s` starting at index `i`. */
  ghost predicate OccursAt(s: string, sub: string, i: int) {
    0 <= i <= |s| - |sub| && s[i..i + |sub|] == sub
  }

  /** `s.includes(sub)`. */
  function Contains(s: string, sub: string): (r: bool)
    ensures r <==> exists i :: OccursAt(s, sub, i)
    decreases |s|
  {
    if |sub| > |s| then false
    else if s[..|sub|] == sub then
      assert OccursAt(s, sub, 0);
      true
    else
      var r := Contains(s[1..], sub);
      assert r ==> exists i :: OccursAt(s, sub, i) by {
        if r {
          var j :| OccursAt(s[1..], sub, j);
          assert s[j + 1..j + 1 + |sub|] == s[1..][j..j + |sub|];
          assert OccursAt(s, sub, j + 1);
        }
      }
      assert (exists i :: OccursAt(s, sub, i)) ==> r by {
        if exists i :: OccursAt(s, sub, i) {
          var i :| OccursAt(s, sub, i);
          assert i != 0;
          assert s[1..][i - 1..i - 1 + |sub|] == s[i..i + |sub|];
          assert OccursAt(s[1..], sub, i - 1);
        }
      }
      r
  }
}
