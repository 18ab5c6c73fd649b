/**
 * The JavaScript string built-ins that the sanitisers and the path code use,
 * written out: `String.prototype.trim`, a global single-character
 * `replace(/c/g, "")`, `split` on a string separator, the rendering of a
 * value inside a template literal, and an end-of-string suffix test
 * (the `$`-anchored match of `/\.jpg$/`).
 */
module JsText {
  import opened Wrappers

  /**
   * The characters `trim` removes: ECMAScript's WhiteSpace (TAB, VT, FF,
   * ZWNBSP and every space separator of Unicode category Zs) together with
   * its LineTerminators (LF, CR, LINE SEPARATOR, PARAGRAPH SEPARATOR).
   */
  predicate IsWhiteSpace(c: char) {
    var n := c as int;
    n == 0x0009 || n == 0x000A || n == 0x000B || n == 0x000C || n == 0x000D ||
    n == 0x0020 || n == 0x00A0 || n == 0x1680 || (0x2000 <= n <= 0x200A) ||
    n == 0x2028 || n == 0x2029 || n == 0x202F || n == 0x205F || n == 0x3000 ||
    n == 0xFEFF
  }

  predicate AllWhiteSpace(s: string) {
    forall i :: 0 <= i < |s| ==> IsWhiteSpace(s[i])
  }

  /** Neither the first nor the last character is white space. */
  predicate NoEdgeWhiteSpace(s: string) {
    s == [] || (!IsWhiteSpace(s[0]) && !IsWhiteSpace(s[|s| - 1]))
  }

  /**
   * r is what remains of s once a white-space prefix and a white-space
   * suffix are cut off so that r itself neither starts nor ends with white
   * space. This is the declarative reading of `trim`.
   */
  ghost predicate TrimmedFrom(r: string, s: string) {
    exists i, j :: 0 <= i <= j <= |s| && r == s[i..j] && AllWhiteSpace(s[..i]) &&
                   AllWhiteSpace(s[j..]) && NoEdgeWhiteSpace(r)
  }

  /** `trimStart`: drops the leading white space. */
  function TrimStart(s: string): (r: string)
    ensures |r| <= |s| && r == s[|s| - |r|..]
    ensures AllWhiteSpace(s[..|s| - |r|])
    ensures r == [] || !IsWhiteSpace(r[0])
    decreases |s|
  {
    if s != [] && IsWhiteSpace(s[0]) then
      var r := TrimStart(s[1..]);
      assert s[..|s| - |r|] == [s[0]] + s[1..][..|s[1..]| - |r|];
      AllWhiteSpaceAppend([s[0]], s[1..][..|s[1..]| - |r|]);
      r
    else s
  }

  /** `trimEnd`: drops the trailing white space. */
  function TrimEnd(s: string): (r: string)
    ensures |r| <= |s| && r == s[..|r|]
    ensures AllWhiteSpace(s[|r|..])
    ensures r == [] || !IsWhiteSpace(r[|r| - 1])
    decreases |s|
  {
    if s != [] && IsWhiteSpace(s[|s| - 1]) then
      var r := TrimEnd(s[..|s| - 1]);
      assert s[|r|..] == s[..|s| - 1][|r|..] + [s[|s| - 1]];
      AllWhiteSpaceAppend(s[..|s| - 1][|r|..], [s[|s| - 1]]);
      r
    else s
  }

  lemma AllWhiteSpaceAppend(a: string, b: string)
    requires AllWhiteSpace(a) && AllWhiteSpace(b)
    ensures AllWhiteSpace(a + b)
  {
    forall k | 0 <= k < |a + b| ensures IsWhiteSpace((a + b)[k]) {
      if k < |a| { assert (a + b)[k] == a[k]; } else { assert (a + b)[k] == b[k - |a|]; }
    }
  }

  /** `String.prototype.trim`. */
  function Trim(s: string): (r: string)
    ensures TrimmedFrom(r, s)
  {
    TrimSlice(s);
    TrimEnd(TrimStart(s))
  }

  /** Trimming the start and then the end cuts out a slice as `TrimmedFrom` describes. */
  lemma TrimSlice(s: string)
    ensures TrimmedFrom(TrimEnd(TrimStart(s)), s)
  {
    TrimmedTwice(s, TrimStart(s), TrimEnd(TrimStart(s)));
  }

  /** A white-space prefix cut from s and then a white-space suffix cut from the rest leave a trimmed slice. */
  lemma TrimmedTwice(s: string, t: string, r: string)
    requires |t| <= |s| && t == s[|s| - |t|..] && AllWhiteSpace(s[..|s| - |t|]) && (t == [] || !IsWhiteSpace(t[0]))
    requires |r| <= |t| && r == t[..|r|] && AllWhiteSpace(t[|r|..]) && (r == [] || !IsWhiteSpace(r[|r| - 1]))
    ensures TrimmedFrom(r, s)
  {
    var i := |s| - |t|;
    assert s[i..][..|r|] == s[i..i + |r|] && s[i..][|r|..] == s[i + |r|..];
    assert NoEdgeWhiteSpace(r) by {
      if r != [] { assert r[0] == t[0]; }
    }
    assert 0 <= i <= i + |r| <= |s| && r == s[i..i + |r|] && AllWhiteSpace(s[..i]) &&
           AllWhiteSpace(s[i + |r|..]) && NoEdgeWhiteSpace(r);
  }

  /** `trim` is the only function satisfying its declarative reading. */
  lemma TrimmedFromUnique(r: string, s: string)
    requires TrimmedFrom(r, s)
    ensures r == Trim(s)
  {
    var r' := Trim(s);
    var i, j :| 0 <= i <= j <= |s| && r == s[i..j] && AllWhiteSpace(s[..i]) &&
                AllWhiteSpace(s[j..]) && NoEdgeWhiteSpace(r);
    var i', j' :| 0 <= i' <= j' <= |s| && r' == s[i'..j'] && AllWhiteSpace(s[..i']) &&
                  AllWhiteSpace(s[j'..]) && NoEdgeWhiteSpace(r');
    SameTrimSlices(s, i, j, i', j');
  }

  lemma SameTrimSlices(s: string, i: int, j: int, i': int, j': int)
    requires 0 <= i <= j <= |s| && AllWhiteSpace(s[..i]) && AllWhiteSpace(s[j..]) && NoEdgeWhiteSpace(s[i..j])
    requires 0 <= i' <= j' <= |s| && AllWhiteSpace(s[..i']) && AllWhiteSpace(s[j'..]) && NoEdgeWhiteSpace(s[i'..j'])
    ensures s[i..j] == s[i'..j']
  {
    forall k | 0 <= k < i ensures IsWhiteSpace(s[k]) { assert s[..i][k] == s[k]; }
    forall k | 0 <= k < i' ensures IsWhiteSpace(s[k]) { assert s[..i'][k] == s[k]; }
    forall k | j <= k < |s| ensures IsWhiteSpace(s[k]) { assert s[j..][k - j] == s[k]; }
    forall k | j' <= k < |s| ensures IsWhiteSpace(s[k]) { assert s[j'..][k - j'] == s[k]; }
    if i < j {
      assert !IsWhiteSpace(s[i]) && !IsWhiteSpace(s[j - 1]);
    }
    if i' < j' {
      assert !IsWhiteSpace(s[i']) && !IsWhiteSpace(s[j' - 1]);
    }
  }

  /** A string without white space at either end is left alone by `trim`. */
  lemma TrimNoEdge(s: string)
    requires NoEdgeWhiteSpace(s)
    ensures Trim(s) == s
  {
    assert s[..0] == [] && s[|s|..] == [] && s[0..|s|] == s;
    TrimmedFromUnique(s, s);
  }

  /** `trim` is idempotent. */
  lemma TrimIdempotent(s: string)
    ensures Trim(Trim(s)) == Trim(s)
  {
    TrimNoEdge(Trim(s));
  }

  /** Every character `trim` keeps was in its input. */
  lemma TrimKeepsCharacters(s: string, c: char)
    requires c in Trim(s)
    ensures c in s
  {
    var r := Trim(s);
    var i, j :| 0 <= i <= j <= |s| && r == s[i..j] && AllWhiteSpace(s[..i]) &&
                AllWhiteSpace(s[j..]) && NoEdgeWhiteSpace(r);
    InSlice(s, i, j, c);
  }

  lemma InSlice(s: string, i: nat, j: nat, c: char)
    requires i <= j <= |s| && c in s[i..j]
    ensures c in s
  {
    var k :| 0 <= k < j - i && s[i..j][k] == c;
    assert s[i + k] == c;
  }

  /** `s.replace(/c/g, "")` for a single character c: every c is deleted. */
  function RemoveAll(s: string, c: char): (r: string)
    ensures c !in r
    ensures forall d :: d in r <==> d in s && d != c
    ensures |r| == |s| - multiset(s)[c]
    ensures c !in s ==> r == s
    ensures multiset(r) == multiset(s)[c := 0]
  {
    if s == [] then []
    else
      assert s == [s[0]] + s[1..];
      assert multiset(s) == multiset([s[0]]) + multiset(s[1..]);
      if s[0] == c then RemoveAll(s[1..], c) else [s[0]] + RemoveAll(s[1..], c)
  }

  /**
   * On one character, the deletion drops it exactly when it is c. With
   * `RemoveAllAppend` this fixes the result character by character, in order.
   */
  lemma RemoveAllSingle(x: char, c: char)
    ensures RemoveAll([x], c) == if x == c then [] else [x]
  {
    assert [x][1..] == [];
  }

  /** Deleting a character distributes over concatenation. */
  lemma {:induction false} RemoveAllAppend(a: string, b: string, c: char)
    ensures RemoveAll(a + b, c) == RemoveAll(a, c) + RemoveAll(b, c)
  {
    if a != [] {
      assert (a + b)[0] == a[0] && (a + b)[1..] == a[1..] + b;
      RemoveAllAppend(a[1..], b, c);
      var ra, rb := RemoveAll(a[1..], c), RemoveAll(b, c);
      if a[0] != c {
        assert RemoveAll(a, c) == [a[0]] + ra;
        assert RemoveAll(a + b, c) == [a[0]] + (ra + rb);
        assert [a[0]] + (ra + rb) == ([a[0]] + ra) + rb;
      }
    } else {
      assert a + b == b;
    }
  }

  /** s contains sep starting at position i. */
  predicate OccursAt(s: string, i: nat, sep: string) {
    i + |sep| <= |s| && s[i..i + |sep|] == sep
  }

  predicate Contains(s: string, sep: string) {
    exists i: nat | i <= |s| :: OccursAt(s, i, sep)
  }

  /**
   * `s.split(sep)` for a non-empty separator: the pieces between the
   * leftmost non-overlapping occurrences of sep.
   */
  function Split(s: string, sep: string): (parts: seq<string>)
    requires sep != []
    ensures |parts| >= 1
    decreases |s|
  {
    if |s| < |sep| then [s]
    else if s[..|sep|] == sep then [""] + Split(s[|sep|..], sep)
    else
      var rest := Split(s[1..], sep);
      [[s[0]] + rest[0]] + rest[1..]
  }

  /** `parts.join(sep)`. */
  function Join(parts: seq<string>, sep: string): string
  {
    if parts == [] then ""
    else if |parts| == 1 then parts[0]
    else parts[0] + sep + Join(parts[1..], sep)
  }

  lemma JoinConsHead(x: string, parts: seq<string>, sep: string)
    requires parts != []
    ensures Join([x + parts[0]] + parts[1..], sep) == x + Join(parts, sep)
  {
    var p := [x + parts[0]] + parts[1..];
    assert p[1..] == parts[1..];
  }

  /** Joining the pieces of a split with the same separator gives the input back. */
  lemma {:induction false} JoinSplit(s: string, sep: string)
    requires sep != []
    ensures Join(Split(s, sep), sep) == s
    decreases |s|
  {
    if |s| < |sep| {
    } else if s[..|sep|] == sep {
      JoinSplit(s[|sep|..], sep);
      var rest := Split(s[|sep|..], sep);
      var parts := [""] + rest;
      assert Split(s, sep) == parts;
      assert parts[1..] == rest;
      assert Join(parts, sep) == "" + sep + Join(rest, sep);
      assert s == sep + s[|sep|..];
    } else {
      JoinSplit(s[1..], sep);
      var rest := Split(s[1..], sep);
      assert Split(s, sep) == [[s[0]] + rest[0]] + rest[1..];
      JoinConsHead([s[0]], rest, sep);
      assert s == [s[0]] + s[1..];
    }
  }

  /** A string free of the separator is one piece. */
  lemma {:induction false} SplitWithoutSeparator(s: string, sep: string)
    requires sep != [] && !Contains(s, sep)
    ensures Split(s, sep) == [s]
    decreases |s|
  {
    if |s| >= |sep| {
      assert !OccursAt(s, 0, sep);
      ContainsTail(s, sep);
      SplitWithoutSeparator(s[1..], sep);
      assert s == [s[0]] + s[1..];
    }
  }

  /**
   * Splitting at a separator that follows a separator-free piece: for a
   * two-character separator whose characters differ, no occurrence can
   * straddle the seam, so the piece comes back whole.
   */
  lemma {:induction false} SplitAfterPiece(p: string, sep: string, rest: string)
    requires |sep| == 2 && sep[0] != sep[1]
    requires !Contains(p, sep)
    ensures Split(p + sep + rest, sep) == [p] + Split(rest, sep)
    decreases |p|
  {
    var s := p + sep + rest;
    if p == [] {
      assert s == sep + rest;
      assert s[..2] == sep && s[2..] == rest;
    } else {
      PieceStartsNoSeparator(p, sep, rest);
      ContainsTail(p, sep);
      SplitAfterPiece(p[1..], sep, rest);
      assert s[1..] == p[1..] + sep + rest;
      var r := Split(s[1..], sep);
      assert Split(s, sep) == [[s[0]] + r[0]] + r[1..];
      assert [s[0]] + r[0] == p;
    }
  }

  /** A separator-free non-empty piece followed by the separator does not start with it. */
  lemma PieceStartsNoSeparator(p: string, sep: string, rest: string)
    requires |sep| == 2 && sep[0] != sep[1]
    requires p != [] && !Contains(p, sep)
    ensures (p + sep + rest)[..2] != sep
  {
    var s := p + sep + rest;
    if |p| >= 2 {
      assert s[..2] == p[..2];
      assert !OccursAt(p, 0, sep);
    } else {
      assert s[..2] == [p[0], sep[0]];
    }
  }

  /** A string free of sep keeps that property when its first character is dropped. */
  lemma ContainsTail(p: string, sep: string)
    requires p != [] && !Contains(p, sep)
    ensures !Contains(p[1..], sep)
  {
    if Contains(p[1..], sep) {
      var i: nat :| i <= |p[1..]| && OccursAt(p[1..], i, sep);
      assert p[1..][i..i + |sep|] == p[i + 1..i + 1 + |sep|];
      assert OccursAt(p, i + 1, sep);
    }
  }

  /** Separator-free pieces joined by such a separator split back into themselves. */
  lemma {:induction false} SplitJoin(parts: seq<string>, sep: string)
    requires |sep| == 2 && sep[0] != sep[1]
    requires parts != []
    requires forall k :: 0 <= k < |parts| ==> !Contains(parts[k], sep)
    ensures Split(Join(parts, sep), sep) == parts
  {
    if |parts| == 1 {
      SplitWithoutSeparator(parts[0], sep);
    } else {
      SplitJoin(parts[1..], sep);
      SplitAfterPiece(parts[0], sep, Join(parts[1..], sep));
    }
  }

  /** With a one-character separator, no piece contains that character. */
  lemma {:induction false} SplitPiecesFree(s: string, c: char, k: int)
    requires 0 <= k < |Split(s, [c])|
    ensures c !in Split(s, [c])[k]
    decreases |s|
  {
    var parts := Split(s, [c]);
    if |s| < 1 {
    } else if s[..1] == [c] {
      if k > 0 { SplitPiecesFree(s[1..], c, k - 1); }
    } else {
      var rest := Split(s[1..], [c]);
      SplitPiecesFree(s[1..], c, k);
      if k > 0 { assert parts[k] == rest[k]; }
      else { assert s[0] != c; }
    }
  }

  /** The last piece of a split on c of any text followed by a c-free t ends with t. */
  lemma {:induction false} LastSplitEndsWith(x: string, c: char, t: string)
    requires c !in t
    ensures EndsWith(Last(Split(x + t, [c])), t)
    decreases |x|
  {
    var s := x + t;
    if x == [] {
      assert s == t;
      SplitWithoutChar(t, c);
    } else {
      assert s[1..] == x[1..] + t;
      LastSplitEndsWith(x[1..], c, t);
      var rest := Split(s[1..], [c]);
      if x[0] == c {
        assert s == [] + [c] + s[1..];
        SplitLastAfter([], c, s[1..]);
      } else {
        assert s[..1] != [c];
        assert Split(s, [c]) == [[s[0]] + rest[0]] + rest[1..];
        if |rest| == 1 {
          var piece := [s[0]] + rest[0];
          assert piece[|piece| - |t|..] == rest[0][|rest[0]| - |t|..];
        } else {
          assert Last(Split(s, [c])) == Last(rest);
        }
      }
    }
  }

  /** Splitting on c at its first occurrence: the text before it is the first piece. */
  lemma {:induction false} SplitAfterChar(p: string, c: char, rest: string)
    requires c !in p
    ensures Split(p + [c] + rest, [c]) == [p] + Split(rest, [c])
    decreases |p|
  {
    var s := p + [c] + rest;
    if p == [] {
      assert s[..1] == [c] && s[1..] == rest;
    } else {
      assert s[..1] == [p[0]] && s[1..] == p[1..] + [c] + rest;
      SplitAfterChar(p[1..], c, rest);
      assert [p[0]] + p[1..] == p;
    }
  }

  /** A string without c is one piece when split on c. */
  lemma SplitWithoutChar(s: string, c: char)
    requires c !in s
    ensures Split(s, [c]) == [s]
  {
    forall i: nat | i <= |s| ensures !OccursAt(s, i, [c]) {
      if i + 1 <= |s| { assert s[i..i + 1] == [s[i]]; }
    }
    SplitWithoutSeparator(s, [c]);
  }

  /** The last piece of a split on c is decided by the text after the last c. */
  lemma {:induction false} SplitLastAfter(x: string, c: char, y: string)
    ensures |Split(x + [c] + y, [c])| >= 2
    ensures Last(Split(x + [c] + y, [c])) == Last(Split(y, [c]))
    decreases |x|
  {
    var s := x + [c] + y;
    if x == [] {
      assert s[..1] == [c] && s[1..] == y;
    } else {
      assert s[1..] == x[1..] + [c] + y;
      SplitLastAfter(x[1..], c, y);
      if s[..1] != [c] {
        var rest := Split(s[1..], [c]);
        assert Last([[s[0]] + rest[0]] + rest[1..]) == Last(rest);
      }
    }
  }

  function Last<T>(xs: seq<T>): T
    requires xs != []
  {
    xs[|xs| - 1]
  }

  predicate EndsWith(s: string, suffix: string) {
    |suffix| <= |s| && s[|s| - |suffix|..] == suffix
  }

  /** How a template literal renders a string value that may be `undefined`. */
  function Render(v: Option<string>): string {
    match v
    case Some(s) => s
    case None => "undefined"
  }
}
