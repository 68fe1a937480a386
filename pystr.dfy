/** Python's str operations used by the modelled code: strip() with no
    argument, the `in` substring test, split(sep), split(sep, 1) and
    sep.join(items), over Dafny strings (sequences of Unicode scalar values). */
module PyStr {

  /** str.isspace() for one character: the characters Python's str.strip()
      removes when called without an argument. */
  predicate IsSpace(c: char) {
    || ('\t' <= c <= '\r')                    // \t \n \x0b \x0c \r
    || ('\U{1C}' <= c <= '\U{1F}')            // file, group, record and unit separators
    || c == ' ' || c == '\U{85}' || c == '\U{A0}' || c == '\U{1680}'
    || ('\U{2000}' <= c <= '\U{200A}')
    || c == '\U{2028}' || c == '\U{2029}' || c == '\U{202F}' || c == '\U{205F}' || c == '\U{3000}'
  }

  predicate AllSpace(s: string) {
    forall k :: 0 <= k < |s| ==> IsSpace(s[k])
  }

  /** s.lstrip(): the longest suffix of s that does not start with whitespace. */
  function StripStart(s: string): (r: string)
    ensures |r| <= |s| && r == s[|s| - |r|..]
    ensures AllSpace(s[..|s| - |r|])
    ensures r != [] ==> !IsSpace(r[0])
  {
    if s != [] && IsSpace(s[0]) then
      var r := StripStart(s[1..]);
      assert s[|s| - |r|..] == s[1..][|s| - 1 - |r|..];
      assert forall k :: 1 <= k < |s| - |r| ==> s[k] == s[1..][..|s| - 1 - |r|][k - 1];
      r
    else s
  }

  /** s.rstrip(): the longest prefix of s that does not end with whitespace. */
  function StripEnd(s: string): (r: string)
    ensures |r| <= |s| && r == s[..|r|]
    ensures AllSpace(s[|r|..])
    ensures r != [] ==> !IsSpace(r[|r| - 1])
  {
    if s != [] && IsSpace(s[|s| - 1]) then
      var r := StripEnd(s[..|s| - 1]);
      assert s[|r|..] == s[..|s| - 1][|r|..] + [s[|s| - 1]];
      r
    else s
  }

  /** s.strip() */
  function Strip(s: string): (r: string)
    ensures r != [] ==> !IsSpace(r[0]) && !IsSpace(r[|r| - 1])
    ensures r == [] <==> AllSpace(s)
  {
    var t := StripStart(s);
    var r := StripEnd(t);
    assert r == [] ==> s == s[..|s| - |t|] + t;
    r
  }

  /** Whatever strip() keeps is a contiguous piece s[i..j] of the input with
      only whitespace before and after it. */
  lemma StripIsTrim(s: string)
    ensures exists i, j :: 0 <= i <= j <= |s| && Strip(s) == s[i..j] && AllSpace(s[..i]) && AllSpace(s[j..])
  {
    var t := StripStart(s);
    var r := StripEnd(t);
    var i := |s| - |t|;
    var j := i + |r|;
    assert r == s[i..j] by { assert t == s[i..]; assert r == t[..|r|]; }
    assert AllSpace(s[j..]) by { assert s[j..] == t[|r|..]; }
    assert Strip(s) == r && AllSpace(s[..i]);
  }

  /** s has no whitespace at either end. */
  predicate Stripped(s: string) {
    s == [] || (!IsSpace(s[0]) && !IsSpace(s[|s| - 1]))
  }

  /** The strings without whitespace at either end are exactly those strip()
      leaves unchanged. */
  lemma StrippedIsFixpoint(s: string)
    ensures Stripped(s) <==> Strip(s) == s
  {
    if Stripped(s) {
      assert StripStart(s) == s;
      assert StripEnd(s) == s;
    }
  }

  /** Stripping twice is stripping once. */
  lemma StripIdempotent(s: string)
    ensures Strip(Strip(s)) == Strip(s)
  {
    var r := Strip(s);
    assert StripStart(r) == r;
    assert StripEnd(r) == r;
  }

  /** pat occurs in s starting at index i. */
  predicate OccursAt(s: string, pat: string, i: int) {
    0 <= i && i + |pat| <= |s| && s[i..i + |pat|] == pat
  }

  /** Python's `pat in s` for two strings. */
  function Contains(s: string, pat: string): (b: bool)
    ensures b <==> exists i :: OccursAt(s, pat, i)
    decreases |s|
  {
    if |s| < |pat| then
      assert forall i :: !OccursAt(s, pat, i);
      false
    else if s[..|pat|] == pat then
      assert OccursAt(s, pat, 0);
      true
    else
      var b := Contains(s[1..], pat);
      assert forall i :: OccursAt(s[1..], pat, i) <==> OccursAt(s, pat, i + 1) by {
        forall i ensures OccursAt(s[1..], pat, i) <==> OccursAt(s, pat, i + 1) {
          if 0 <= i && i + |pat| <= |s| - 1 {
            assert s[1..][i..i + |pat|] == s[i + 1..i + 1 + |pat|];
          }
        }
      }
      assert !OccursAt(s, pat, 0);
      assert b ==> exists i :: OccursAt(s, pat, i) by {
        if b {
          var i :| OccursAt(s[1..], pat, i);
          assert OccursAt(s, pat, i + 1);
        }
      }
      assert (exists i :: OccursAt(s, pat, i)) ==> b by {
        if exists i :: OccursAt(s, pat, i) {
          var i :| OccursAt(s, pat, i);
          assert i != 0;
          assert OccursAt(s[1..], pat, i - 1);
        }
      }
      b
  }

  /** sep.join(items) */
  function Join(items: seq<string>, sep: string): (r: string)
    ensures items == [] ==> r == []
    ensures |items| == 1 ==> r == items[0]
  {
    if items == [] then []
    else if |items| == 1 then items[0]
    else items[0] + sep + Join(items[1..], sep)
  }

  /** s.split(c): the pieces of s between occurrences of c, in order; an empty
      string gives one empty piece and consecutive separators give empty pieces. */
  function Split(s: string, c: char): (r: seq<string>)
    ensures |r| >= 1
    ensures forall k :: 0 <= k < |r| ==> c !in r[k]
    ensures |r| == 1 <==> c !in s
  {
    if s == [] then [[]]
    else
      var rest := Split(s[1..], c);
      if s[0] == c then [[]] + rest
      else [[s[0]] + rest[0]] + rest[1..]
  }

  /** Joining the pieces with the separator gives the string back. */
  lemma {:induction false} JoinSplit(s: string, c: char)
    ensures Join(Split(s, c), [c]) == s
    decreases |s|
  {
    if s != [] {
      var rest := Split(s[1..], c);
      JoinSplit(s[1..], c);
      if s[0] == c {
        assert Split(s, c) == [[]] + rest;
        assert ([[]] + rest)[1..] == rest;
      } else {
        var r := Split(s, c);
        assert r == [[s[0]] + rest[0]] + rest[1..];
        if |rest| == 1 {
          assert Join(rest, [c]) == rest[0];
        } else {
          assert Join(rest, [c]) == rest[0] + [c] + Join(rest[1..], [c]);
          assert r[1..] == rest[1..];
        }
      }
    }
  }

  lemma {:induction false} SplitWithoutSeparator(a: string, c: char)
    requires c !in a
    ensures Split(a, c) == [a]
    decreases |a|
  {
    if a != [] {
      assert c !in a[1..] && a[0] != c;
      SplitWithoutSeparator(a[1..], c);
      assert [a[0]] + a[1..] == a;
    }
  }

  lemma {:induction false} SplitAfterPiece(a: string, c: char, rest: string)
    requires c !in a
    ensures Split(a + [c] + rest, c) == [a] + Split(rest, c)
    decreases |a|
  {
    var s := a + [c] + rest;
    if a == [] {
      assert s[1..] == rest;
    } else {
      assert s[1..] == a[1..] + [c] + rest;
      assert c !in a[1..];
      SplitAfterPiece(a[1..], c, rest);
      assert [a[0]] + a[1..] == a;
    }
  }

  /** Splitting a join recovers the items when no item contains the separator. */
  lemma {:induction false} SplitJoin(items: seq<string>, c: char)
    requires items != []
    requires forall k :: 0 <= k < |items| ==> c !in items[k]
    ensures Split(Join(items, [c]), c) == items
    decreases |items|
  {
    if |items| == 1 {
      SplitWithoutSeparator(items[0], c);
    } else {
      SplitJoin(items[1..], c);
      SplitAfterPiece(items[0], c, Join(items[1..], [c]));
      assert [items[0]] + items[1..] == items;
    }
  }

  /** s.split(c, 1): the text before the first c and the text after it, or
      the whole string alone when c does not occur. */
  function SplitFirst(s: string, c: char): (r: seq<string>)
    ensures |r| == 1 || |r| == 2
    ensures |r| == 2 <==> c in s
    ensures |r| == 1 ==> r[0] == s
    ensures |r| == 2 ==> r[0] + [c] + r[1] == s && c !in r[0]
  {
    if s == [] then [s]
    else if s[0] == c then
      assert s == [] + [c] + s[1..];
      [[], s[1..]]
    else
      var r := SplitFirst(s[1..], c);
      assert s == [s[0]] + s[1..];
      [[s[0]] + r[0]] + r[1..]
  }
}
