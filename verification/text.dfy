/** The string and slice operations of Go's `strings` and `slices` packages that the
    command builder uses. */
module Text {
  import opened Results

  /** `p` occurs in `s` starting at index `i`. */
  predicate OccursAt(s: string, p: string, i: nat) {
    i + |p| <= |s| && s[i..i + |p|] == p
  }

  /** `strings.Contains`. */
  predicate Contains(s: string, p: string) {
    exists i: nat | i <= |s| :: OccursAt(s, p, i)
  }

  function IndexFrom(s: string, p: string, k: nat): (r: Option<nat>)
    ensures r.Some? ==> k <= r.value && OccursAt(s, p, r.value)
    ensures r.Some? ==> forall j: nat :: k <= j < r.value ==> !OccursAt(s, p, j)
    ensures r.None? ==> forall j: nat :: k <= j ==> !OccursAt(s, p, j)
    decreases |s| - k
  {
    if k + |p| > |s| then None
    else if s[k..k + |p|] == p then Some(k)
    else IndexFrom(s, p, k + 1)
  }

  /** `strings.Index`: the first occurrence of `p` in `s`, if any. */
  function IndexOf(s: string, p: string): (r: Option<nat>)
    ensures r.Some? ==> OccursAt(s, p, r.value) && forall j: nat :: j < r.value ==> !OccursAt(s, p, j)
    ensures r.None? <==> !Contains(s, p)
  {
    IndexFrom(s, p, 0)
  }

  /** No character of `m` occurs in `p`. */
  predicate Disjoint(m: string, p: string) {
    forall k :: 0 <= k < |m| ==> m[k] !in p
  }

  /** No part contains `p`. */
  predicate NoneContains(parts: seq<string>, p: string) {
    forall i :: 0 <= i < |parts| ==> !Contains(parts[i], p)
  }

  /** An occurrence of `p` in `x + m + y` that starts before `y` lies inside `x` when
      `m` shares no character with `p`: it cannot reach into `m`. */
  lemma OccursBefore(x: string, m: string, y: string, p: string, i: nat)
    requires |p| > 0 && |m| >= 1 && Disjoint(m, p)
    requires i < |x| + |m|
    ensures OccursAt(x + m + y, p, i) ==> OccursAt(x, p, i)
  {
    var s := x + m + y;
    if i + |p| > |x| {
      var q := if i < |x| then |x| else i;
      assert s[q] == m[q - |x|];
      if i + |p| <= |s| {
        assert s[i..i + |p|][q - i] == s[q];
      }
    } else {
      assert s[i..i + |p|] == x[i..i + |p|];
    }
  }

  /** A separator that shares no character with `p` never completes an occurrence of
      `p` across it. */
  lemma AbsentAcross(x: string, m: string, y: string, p: string)
    requires |p| > 0 && |m| >= 1 && Disjoint(m, p)
    requires !Contains(x, p) && !Contains(y, p)
    ensures !Contains(x + m + y, p)
  {
    var s := x + m + y;
    forall i: nat | i <= |s|
      ensures !OccursAt(s, p, i)
    {
      if i < |x| + |m| {
        OccursBefore(x, m, y, p, i);
      } else if i + |p| <= |s| {
        var j := i - |x| - |m|;
        assert s[i..i + |p|] == y[j..j + |p|];
        assert !OccursAt(y, p, j);
      }
    }
  }

  /** A join contains `p` only if one of its parts does, when the separator shares no
      character with `p`. */
  lemma {:induction false} AbsentInJoin(parts: seq<string>, sep: string, p: string)
    requires |p| > 0 && |sep| >= 1 && Disjoint(sep, p)
    requires NoneContains(parts, p)
    ensures !Contains(Join(parts, sep), p)
  {
    if |parts| > 1 {
      AbsentInJoin(parts[1..], sep, p);
      assert !Contains(parts[0], p);
      AbsentAcross(parts[0], sep, Join(parts[1..], sep), p);
    } else if |parts| == 1 {
      assert !Contains(parts[0], p);
    }
  }

  /** The first occurrence of `p` in `a + m + p + b` is the one after `m`, when `a`
      does not contain `p` and `m` shares no character with it. */
  lemma IndexAcross(a: string, m: string, p: string, b: string)
    requires |p| > 0 && |m| >= 1 && Disjoint(m, p) && !Contains(a, p)
    ensures IndexOf(a + m + p + b, p) == Some(|a| + |m|)
  {
    var s := a + m + p + b;
    assert OccursAt(s, p, |a| + |m|) by {
      assert s[|a| + |m|..|a| + |m| + |p|] == p;
    }
    forall j: nat | j < |a| + |m|
      ensures !OccursAt(s, p, j)
    {
      assert s == a + m + (p + b);
      OccursBefore(a, m, p + b, p, j);
    }
  }

  /** Replacing the first `p` in `a + m + p + b` replaces the one after `m`. */
  lemma ReplaceAcross(a: string, m: string, p: string, b: string, replacement: string)
    requires |p| > 0 && |m| >= 1 && Disjoint(m, p) && !Contains(a, p)
    ensures ReplaceFirst(a + m + p + b, p, replacement) == a + m + replacement + b
  {
    IndexAcross(a, m, p, b);
    var s := a + m + p + b;
    var k := |a| + |m|;
    assert s[..k] == a + m;
    assert s[k + |p|..] == b;
    assert ReplaceFirst(s, p, replacement) == s[..k] + replacement + s[k + |p|..];
  }

  /** `p` does not occur in `a + b` when its first character is not in `a` and `b` is
      too short to hold it. */
  lemma AbsentAfterPrefix(a: string, p: string, b: string)
    requires |p| > |b| && p[0] !in a
    ensures !Contains(a + b, p)
  {
    var s := a + b;
    forall i: nat | i <= |s|
      ensures !OccursAt(s, p, i)
    {
      if i + |p| <= |s| {
        assert s[i..i + |p|][0] == a[i];
      }
    }
  }

  /** `strings.Replace(s, old, new, 1)`. */
  function ReplaceFirst(s: string, target: string, replacement: string): (r: string)
    ensures !Contains(s, target) ==> r == s
    ensures Contains(s, target) ==>
      exists i: nat :: OccursAt(s, target, i) && (forall j: nat :: j < i ==> !OccursAt(s, target, j))
        && r == s[..i] + replacement + s[i + |target|..]
  {
    match IndexOf(s, target)
    case None => s
    case Some(i) => s[..i] + replacement + s[i + |target|..]
  }

  /** Concatenation is associative. */
  lemma Regroup<T>(a: seq<T>, b: seq<T>, c: seq<T>)
    ensures a + b + c == a + (b + c)
  {
  }

  /** `strings.Join`. */
  function Join(parts: seq<string>, sep: string): string {
    if |parts| == 0 then ""
    else if |parts| == 1 then parts[0]
    else parts[0] + sep + Join(parts[1..], sep)
  }

  /** Joining one more part adds the separator and the part at the end. */
  lemma {:induction false} JoinSnoc(parts: seq<string>, p: string, sep: string)
    requires |parts| >= 1
    ensures Join(parts + [p], sep) == Join(parts, sep) + sep + p
  {
    if |parts| > 1 {
      JoinSnoc(parts[1..], p, sep);
      assert (parts + [p])[1..] == parts[1..] + [p];
    }
  }

  /** Text before a join belongs to its first part. */
  lemma PrefixJoin(x: string, parts: seq<string>, sep: string)
    requires |parts| >= 1
    ensures x + Join(parts, sep) == Join([x + parts[0]] + parts[1..], sep)
  {
    var q := [x + parts[0]] + parts[1..];
    assert q[1..] == parts[1..];
  }

  /** A character in neither the parts nor the separator is not in their join. */
  lemma {:induction false} NotInJoin(c: char, parts: seq<string>, sep: string)
    requires c !in sep
    requires forall i :: 0 <= i < |parts| ==> c !in parts[i]
    ensures c !in Join(parts, sep)
  {
    if |parts| > 1 {
      NotInJoin(c, parts[1..], sep);
    }
  }

  /** `strings.Split` on a one-character separator: the maximal pieces between
      separators, always at least one. */
  function SplitOn(s: string, sep: char): (parts: seq<string>)
    ensures |parts| >= 1
    ensures forall i, k :: 0 <= i < |parts| && 0 <= k < |parts[i]| ==> parts[i][k] != sep
  {
    if |s| == 0 then [""]
    else
      var tail := SplitOn(s[1..], sep);
      if s[0] == sep then [""] + tail else [[s[0]] + tail[0]] + tail[1..]
  }

  lemma {:induction false} SplitOnPiece(piece: string, rest: string, sep: char)
    requires sep !in piece
    ensures SplitOn(piece + rest, sep) == [piece + SplitOn(rest, sep)[0]] + SplitOn(rest, sep)[1..]
  {
    if |piece| > 0 {
      SplitOnPiece(piece[1..], rest, sep);
      assert (piece + rest)[1..] == piece[1..] + rest;
      assert [piece[0]] + (piece[1..] + SplitOn(rest, sep)[0]) == piece + SplitOn(rest, sep)[0];
    } else {
      assert piece + rest == rest;
      assert piece + SplitOn(rest, sep)[0] == SplitOn(rest, sep)[0];
    }
  }

  /** Splitting a join on its separator recovers the parts when none contains it. */
  lemma {:induction false} SplitJoin(parts: seq<string>, sep: char)
    requires |parts| >= 1
    requires forall i :: 0 <= i < |parts| ==> sep !in parts[i]
    ensures SplitOn(Join(parts, [sep]), sep) == parts
  {
    if |parts| == 1 {
      SplitOnPiece(parts[0], "", sep);
      assert parts[0] + "" == parts[0];
      assert SplitOn("", sep) == [""];
    } else {
      var tail := Join(parts[1..], [sep]);
      SplitJoin(parts[1..], sep);
      assert Join(parts, [sep]) == parts[0] + ([sep] + tail);
      SplitOnPiece(parts[0], [sep] + tail, sep);
      assert ([sep] + tail)[1..] == tail;
      assert SplitOn([sep] + tail, sep) == [""] + SplitOn(tail, sep);
      assert parts[0] + "" == parts[0];
      assert parts == [parts[0]] + parts[1..];
    }
  }

  /** `slices.Index`: the first position of `w` in `ws`, if any. */
  function TokenIndex(ws: seq<string>, w: string): (r: Option<nat>)
    ensures r.Some? ==> r.value < |ws| && ws[r.value] == w && w !in ws[..r.value]
    ensures r.None? <==> w !in ws
  {
    if |ws| == 0 then None
    else if ws[0] == w then Some(0)
    else match TokenIndex(ws[1..], w)
      case None => None
      case Some(i) => Some(i + 1)
  }

  /** `slices.Replace(ws, i, i+1, repl...)` at the first `w`, or `ws` itself when `w`
      is absent. */
  function ReplaceToken(ws: seq<string>, w: string, repl: seq<string>): (r: seq<string>)
    ensures w !in ws ==> r == ws
    ensures w in ws ==> exists i :: 0 <= i < |ws| && ws[i] == w && w !in ws[..i] && r == ws[..i] + repl + ws[i + 1..]
  {
    match TokenIndex(ws, w)
    case None => ws
    case Some(i) => ws[..i] + repl + ws[i + 1..]
  }

  /** Replacing the first `w` in a list whose first `w` follows `a`. */
  lemma ReplaceTokenAfter(a: seq<string>, w: string, b: seq<string>, repl: seq<string>)
    requires w !in a
    ensures ReplaceToken(a + [w] + b, w, repl) == a + repl + b
  {
    var ws := a + [w] + b;
    assert ws[..|a|] == a;
    assert ws[|a|] == w;
    var i := TokenIndex(ws, w).value;
    assert ws[..|a| + 1] == a + [w];
    assert i == |a|;
    assert ws[|a| + 1..] == b;
    assert ReplaceToken(ws, w, repl) == ws[..i] + repl + ws[i + 1..];
  }
}
