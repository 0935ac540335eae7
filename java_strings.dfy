/**
 * The string operations of the Java and Bukkit libraries that the cleaning-item
 * command relies on: case-insensitive comparison, joining, splitting on a
 * literal separator, character replacement, List.toString and the natural
 * order of String together with a sort by it.
 *
 * Strings are sequences of characters; case folding is modelled for the ASCII
 * letters only.
 */
module JavaStrings {

  // ---------------------------------------------------------------------------
  // Case folding and case-insensitive comparison
  // ---------------------------------------------------------------------------

  /** Character.toLowerCase restricted to ASCII: 'A'..'Z' become 'a'..'z'. */
  function LowerChar(c: char): char
  {
    if 'A' <= c <= 'Z' then (c as int + 32) as char else c
  }

  /**
   * String.equalsIgnoreCase: the same length, and the characters at each
   * position agree once lower-cased.
   */
  predicate EqualsIgnoreCase(a: string, b: string)
    ensures a == b ==> EqualsIgnoreCase(a, b)
    ensures EqualsIgnoreCase(a, b) ==> |a| == |b|
  {
    |a| == |b| && forall i :: 0 <= i < |a| ==> LowerChar(a[i]) == LowerChar(b[i])
  }

  /**
   * Bukkit's StringUtil.startsWithIgnoreCase: the string is at least as long
   * as the prefix and its first |prefix| characters equal the prefix ignoring
   * case.
   */
  predicate StartsWithIgnoreCase(s: string, prefix: string)
    ensures StartsWithIgnoreCase(s, prefix) ==> |prefix| <= |s|
    ensures |prefix| <= |s| && s[..|prefix|] == prefix ==> StartsWithIgnoreCase(s, prefix)
  {
    |prefix| <= |s| && EqualsIgnoreCase(s[..|prefix|], prefix)
  }

  /** Boolean.parseBoolean: true exactly for "true" in any letter case. */
  predicate ParseBoolean(s: string)
    ensures ParseBoolean(s) ==> |s| == 4
    ensures s == "true" ==> ParseBoolean(s)
    ensures s == "false" ==> !ParseBoolean(s)
  {
    EqualsIgnoreCase(s, "true")
  }

  /** String.valueOf(boolean): the text Boolean.parseBoolean reads back as `b`. */
  function BoolText(b: bool): (r: string)
    ensures r == "true" || r == "false"
    ensures ParseBoolean(r) == b
  {
    if b then "true" else "false"
  }

  lemma EqualsIgnoreCaseIsEquivalence(a: string, b: string, c: string)
    ensures EqualsIgnoreCase(a, a)
    ensures EqualsIgnoreCase(a, b) ==> EqualsIgnoreCase(b, a)
    ensures EqualsIgnoreCase(a, b) && EqualsIgnoreCase(b, c) ==> EqualsIgnoreCase(a, c)
  {
  }

  /** Only the four letters of "true", in any case, are parsed as true. */
  lemma ParseBooleanExactly(s: string)
    ensures ParseBoolean(s) <==>
              |s| == 4 && LowerChar(s[0]) == 't' && LowerChar(s[1]) == 'r'
              && LowerChar(s[2]) == 'u' && LowerChar(s[3]) == 'e'
  {
  }

  // ---------------------------------------------------------------------------
  // Joining
  // ---------------------------------------------------------------------------

  /** The pieces in order with `sep` between neighbours (String.join). */
  function JoinWith(ws: seq<string>, sep: string): (r: string)
    ensures ws == [] ==> r == ""
    ensures |ws| == 1 ==> r == ws[0]
  {
    if |ws| == 0 then ""
    else if |ws| == 1 then ws[0]
    else ws[0] + sep + JoinWith(ws[1..], sep)
  }

  /** Appending one more piece adds the separator and the piece at the end. */
  lemma {:induction false} JoinWithSnoc(ws: seq<string>, w: string, sep: string)
    requires |ws| >= 1
    ensures JoinWith(ws + [w], sep) == JoinWith(ws, sep) + sep + w
  {
    if |ws| == 1 {
      assert (ws + [w])[1..] == [w];
    } else {
      assert (ws + [w])[1..] == ws[1..] + [w];
      JoinWithSnoc(ws[1..], w, sep);
    }
  }

  /** The length of a join: every piece plus one separator between neighbours. */
  lemma {:induction false} JoinWithLength(ws: seq<string>, sep: string)
    requires |ws| >= 1
    ensures |JoinWith(ws, sep)| == TotalLength(ws) + (|ws| - 1) * |sep|
  {
    if |ws| > 1 {
      JoinWithLength(ws[1..], sep);
    }
  }

  function TotalLength(ws: seq<string>): nat
  {
    if ws == [] then 0 else |ws[0]| + TotalLength(ws[1..])
  }

  /** AbstractCollection.toString: "[a, b, c]". */
  function ListText(xs: seq<string>): (r: string)
    ensures |r| >= 2 && r[0] == '[' && r[|r| - 1] == ']'
    ensures xs == [] ==> r == "[]"
    ensures |xs| == 1 ==> r == "[" + xs[0] + "]"
  {
    "[" + JoinWith(xs, ", ") + "]"
  }

  // ---------------------------------------------------------------------------
  // Literal occurrences and splitting
  // ---------------------------------------------------------------------------

  /** `t` occurs in `s` starting at index `k`. */
  predicate OccursAt(s: string, t: string, k: nat)
  {
    k + |t| <= |s| && s[k..k + |t|] == t
  }

  /** `t` occurs nowhere in `s`. */
  ghost predicate Free(s: string, t: string)
  {
    forall k: nat :: !OccursAt(s, t, k)
  }

  /**
   * Every piece between leftmost non-overlapping occurrences of `sep`, empty
   * pieces included. Joining the pieces with `sep` gives `s` back, no piece
   * contains `sep`, and the first piece ends at the leftmost occurrence.
   */
  function SplitAll(s: string, sep: string): (r: seq<string>)
    requires |sep| > 0
    ensures |r| >= 1
    ensures |r[0]| <= |s| && r[0] == s[..|r[0]|]
    ensures forall k :: 0 <= k < |r[0]| ==> !OccursAt(s, sep, k)
    ensures JoinWith(r, sep) == s
    ensures forall i :: 0 <= i < |r| ==> Free(r[i], sep)
    decreases |s|
  {
    if |s| < |sep| then
      [s]
    else if s[..|sep|] == sep then
      var rest := SplitAll(s[|sep|..], sep);
      assert Free("", sep);
      assert sep + s[|sep|..] == s;
      [""] + rest
    else
      var rest := SplitAll(s[1..], sep);
      var head := [s[0]] + rest[0];
      FreeAfterCons(s, sep, rest[0]);
      assert head + s[1..][|rest[0]|..] == s;
      forall k | 0 <= k < |head|
        ensures !OccursAt(s, sep, k)
      {
        if k > 0 && k + |sep| <= |s| {
          assert s[k..k + |sep|] == s[1..][k - 1..k - 1 + |sep|];
          assert !OccursAt(s[1..], sep, k - 1);
        }
      }
      [head] + rest[1..]
  }

  /** The first piece of SplitAll, extended by the character in front of it. */
  lemma FreeAfterCons(s: string, sep: string, p: string)
    requires |sep| > 0 && |s| >= |sep| && s[..|sep|] != sep
    requires |p| <= |s| - 1 && p == s[1..][..|p|]
    requires Free(p, sep)
    ensures Free([s[0]] + p, sep)
  {
    var h := [s[0]] + p;
    forall k: nat
      ensures !OccursAt(h, sep, k)
    {
      if k == 0 {
        if |sep| <= |h| {
          assert h[..|sep|] == s[..|sep|];
        }
      } else if k + |sep| <= |h| {
        assert h[k..k + |sep|] == p[k - 1..k - 1 + |sep|];
        assert !OccursAt(p, sep, k - 1);
      }
    }
  }

  /** With two or more pieces, `sep` occurs right after the first piece. */
  lemma SplitAllFindsSeparator(s: string, sep: string)
    requires |sep| > 0
    requires |SplitAll(s, sep)| >= 2
    ensures OccursAt(s, sep, |SplitAll(s, sep)[0]|)
  {
    var r := SplitAll(s, sep);
    assert s == r[0] + sep + JoinWith(r[1..], sep);
    assert s[|r[0]|..|r[0]| + |sep|] == sep;
  }

  /** Drops empty strings from the end of the list. */
  function DropTrailingEmpty(xs: seq<string>): (r: seq<string>)
    ensures |r| <= |xs| && r == xs[..|r|]
    ensures r == [] || r[|r| - 1] != ""
    ensures forall i :: |r| <= i < |xs| ==> xs[i] == ""
  {
    if xs == [] then []
    else if xs[|xs| - 1] == "" then DropTrailingEmpty(xs[..|xs| - 1])
    else xs
  }

  /**
   * String.split with a separator that contains no regular-expression
   * metacharacter, such as "/n": when `sep` does not occur, the whole input in
   * a list of one; otherwise the pieces of SplitAll with the trailing empty
   * ones dropped.
   */
  function JavaSplit(s: string, sep: string): (r: seq<string>)
    requires |sep| > 0
    ensures Free(s, sep) ==> r == [s]
    ensures !Free(s, sep) ==> r == DropTrailingEmpty(SplitAll(s, sep))
    ensures forall i :: 0 <= i < |r| ==> Free(r[i], sep)
  {
    var pieces := SplitAll(s, sep);
    if |pieces| == 1 then
      pieces
    else
      SplitAllFindsSeparator(s, sep);
      DropTrailingEmpty(pieces)
  }

  /**
   * Splitting the space-join of words that contain no space gives the words
   * back: the join loses nothing.
   */
  lemma {:induction false} SplitJoinRoundTrip(ws: seq<string>, c: char)
    requires |ws| >= 1
    requires forall i :: 0 <= i < |ws| ==> c !in ws[i]
    ensures SplitAll(JoinWith(ws, [c]), [c]) == ws
  {
    if |ws| == 1 {
      SplitNoSeparator(ws[0], c);
    } else {
      SplitJoinRoundTrip(ws[1..], c);
      SplitAfterPiece(ws[0], c, JoinWith(ws[1..], [c]));
      assert JoinWith(ws, [c]) == ws[0] + [c] + JoinWith(ws[1..], [c]);
    }
  }

  lemma {:induction false} SplitNoSeparator(a: string, c: char)
    requires c !in a
    ensures SplitAll(a, [c]) == [a]
    decreases |a|
  {
    if |a| >= 1 {
      assert a[..1] != [c] by { assert a[0] != c; }
      SplitNoSeparator(a[1..], c);
      assert [a[0]] + a[1..] == a;
    }
  }

  lemma {:induction false} SplitAfterPiece(a: string, c: char, t: string)
    requires c !in a
    ensures SplitAll(a + [c] + t, [c]) == [a] + SplitAll(t, [c])
    decreases |a|
  {
    var s := a + [c] + t;
    if |a| == 0 {
      assert s[..1] == [c];
      assert s[1..] == t;
    } else {
      assert s[..1] != [c] by { assert s[0] == a[0] != c; }
      assert s[1..] == a[1..] + [c] + t;
      SplitAfterPiece(a[1..], c, t);
      assert [a[0]] + a[1..] == a;
    }
  }

  // ---------------------------------------------------------------------------
  // Character replacement
  // ---------------------------------------------------------------------------

  /**
   * String.replace with one-character target and replacement: every `from`
   * becomes `to`, everything else stays at its position.
   */
  function ReplaceChar(s: string, from: char, to: char): (r: string)
    ensures |r| == |s|
    ensures forall i :: 0 <= i < |s| ==> r[i] == (if s[i] == from then to else s[i])
  {
    if s == [] then [] else [if s[0] == from then to else s[0]] + ReplaceChar(s[1..], from, to)
  }

  /** Replacing with a different character leaves no `from` behind. */
  lemma ReplaceCharRemovesAll(s: string, from: char, to: char)
    requires from != to
    ensures from !in ReplaceChar(s, from, to)
  {
    var r := ReplaceChar(s, from, to);
    assert forall i :: 0 <= i < |r| ==> r[i] != from;
  }

  /**
   * A literal that mentions neither `from` nor `to` occurs in the replaced
   * string exactly where it occurs in the original.
   */
  lemma ReplaceCharKeepsOccurrences(s: string, from: char, to: char, t: string, k: nat)
    requires from !in t && to !in t
    ensures OccursAt(ReplaceChar(s, from, to), t, k) <==> OccursAt(s, t, k)
  {
    var r := ReplaceChar(s, from, to);
    if k + |t| <= |s| {
      if OccursAt(s, t, k) {
        forall j | 0 <= j < |t| ensures r[k + j] == t[j] {
          assert s[k + j] == t[j];
        }
        assert r[k..k + |t|] == t;
      }
      if OccursAt(r, t, k) {
        forall j | 0 <= j < |t| ensures s[k + j] == t[j] {
          assert r[k + j] == t[j];
        }
        assert s[k..k + |t|] == t;
      }
    }
  }

  // ---------------------------------------------------------------------------
  // The natural order of String and sorting
  // ---------------------------------------------------------------------------

  /** String.compareTo(a, b) <= 0: lexicographic by character code. */
  predicate LessEq(a: string, b: string)
    ensures |a| <= |b| && b[..|a|] == a ==> LessEq(a, b)
    ensures LessEq(a, b) && a != [] ==> b != [] && a[0] <= b[0]
  {
    if a == [] then true
    else if b == [] then false
    else if a[0] != b[0] then a[0] < b[0]
    else LessEq(a[1..], b[1..])
  }

  lemma {:induction false} LessEqTotal(a: string, b: string)
    ensures LessEq(a, b) || LessEq(b, a)
  {
    if a != [] && b != [] && a[0] == b[0] {
      LessEqTotal(a[1..], b[1..]);
    }
  }

  lemma {:induction false} LessEqTransitive(a: string, b: string, c: string)
    requires LessEq(a, b) && LessEq(b, c)
    ensures LessEq(a, c)
  {
    if a != [] && b != [] && c != [] && a[0] == b[0] && b[0] == c[0] {
      LessEqTransitive(a[1..], b[1..], c[1..]);
    }
  }

  lemma {:induction false} LessEqAntisymmetric(a: string, b: string)
    requires LessEq(a, b) && LessEq(b, a)
    ensures a == b
  {
    if a != [] && b != [] {
      LessEqAntisymmetric(a[1..], b[1..]);
      assert a == [a[0]] + a[1..] && b == [b[0]] + b[1..];
    }
  }

  predicate Sorted(s: seq<string>)
  {
    forall i, j :: 0 <= i < j < |s| ==> LessEq(s[i], s[j])
  }

  /** Inserts `x` before the first element it does not follow. */
  function Insert(x: string, s: seq<string>): (r: seq<string>)
    requires Sorted(s)
    ensures Sorted(r)
    ensures multiset(r) == multiset(s) + multiset{x}
  {
    if s == [] then
      [x]
    else if LessEq(x, s[0]) then
      forall j | 0 <= j < |s| ensures LessEq(x, s[j]) {
        if j > 0 { LessEqTransitive(x, s[0], s[j]); }
      }
      [x] + s
    else
      var rest := Insert(x, s[1..]);
      LessEqTotal(x, s[0]);
      assert s == [s[0]] + s[1..];
      forall j | 0 <= j < |rest| ensures LessEq(s[0], rest[j]) {
        assert rest[j] in multiset(rest);
        if rest[j] != x {
          assert rest[j] in multiset(s[1..]);
          var m :| 0 <= m < |s[1..]| && s[1..][m] == rest[j];
          assert s[m + 1] == rest[j];
        }
      }
      [s[0]] + rest
  }

  /** Collections.sort on a list of strings: a sorted permutation. */
  function Sort(s: seq<string>): (r: seq<string>)
    ensures Sorted(r)
    ensures multiset(r) == multiset(s)
  {
    if s == [] then []
    else
      assert s == [s[0]] + s[1..];
      Insert(s[0], Sort(s[1..]))
  }
}
