/**
 * The Python `str` operations the response parser relies on: `isspace`,
 * `strip()` and `replace(old, new)` (leftmost, non-overlapping matches).
 */
module PyStrings {

  /** `c.isspace()`: the characters Python's `str.strip()` removes. */
  predicate IsSpace(c: char)
  {
    var n := c as int;
    || n == 0x20 || 0x09 <= n <= 0x0D || 0x1C <= n <= 0x1F || n == 0x85 || n == 0xA0
    || n == 0x1680 || 0x2000 <= n <= 0x200A || n == 0x2028 || n == 0x2029
    || n == 0x202F || n == 0x205F || n == 0x3000
  }

  /** `s.isspace() or s == ""`: nothing but whitespace. */
  predicate IsBlank(s: string)
  {
    forall i :: 0 <= i < |s| ==> IsSpace(s[i])
  }

  function StripLeft(s: string): (r: string)
    ensures |r| <= |s| && r == s[|s| - |r|..]
    ensures r != [] ==> !IsSpace(r[0])
    ensures IsBlank(s[..|s| - |r|])
  {
    if s != [] && IsSpace(s[0]) then
      var r := StripLeft(s[1..]);
      assert s[1..][..|s[1..]| - |r|] == s[1..|s| - |r|];
      r
    else s
  }

  function StripRight(s: string): (r: string)
    ensures |r| <= |s| && r == s[..|r|]
    ensures r != [] ==> !IsSpace(r[|r| - 1])
    ensures IsBlank(s[|r|..])
  {
    if s != [] && IsSpace(s[|s| - 1]) then
      var r := StripRight(s[..|s| - 1]);
      assert s[..|s| - 1][|r|..] == s[|r|..|s| - 1];
      r
    else s
  }

  /** `s.strip()`. */
  function Strip(s: string): string
  {
    StripRight(StripLeft(s))
  }

  /** `pat` occurs in `s` starting at index i. */
  predicate OccursAt(pat: string, s: string, i: int)
  {
    0 <= i && i + |pat| <= |s| && s[i..i + |pat|] == pat
  }

  /** `pat in s`. */
  predicate Occurs(pat: string, s: string)
  {
    exists i | 0 <= i <= |s| :: OccursAt(pat, s, i)
  }

  /** `s.replace(pat, rep)` for a non-empty pattern. */
  function Replace(s: string, pat: string, rep: string): string
    requires pat != []
    decreases |s|
  {
    if |s| < |pat| then s
    else if s[..|pat|] == pat then rep + Replace(s[|pat|..], pat, rep)
    else [s[0]] + Replace(s[1..], pat, rep)
  }

  // ---------------------------------------------------------------------------
  // strip()

  /** Strip removes whitespace only from the ends: it gives a slice of its input with no space at either end. */
  lemma StripIsTrimmedSlice(s: string)
    ensures exists a, b :: 0 <= a <= b <= |s| && Strip(s) == s[a..b]
    ensures Strip(s) != [] ==> !IsSpace(Strip(s)[0]) && !IsSpace(Strip(s)[|Strip(s)| - 1])
  {
    var l := StripLeft(s);
    var r := StripRight(l);
    var a := |s| - |l|;
    assert l == s[a..];
    assert r == l[..|r|];
    assert s[a..][..|r|] == s[a..a + |r|];
    assert Strip(s) == s[a..a + |r|];
    if r != [] {
      assert r[0] == l[0];
    }
  }

  /** Strip leaves nothing exactly when the input is all whitespace. */
  lemma StripEmptyIffBlank(s: string)
    ensures Strip(s) == [] <==> IsBlank(s)
  {
    var l := StripLeft(s);
    assert s[..|s|] == s;
    assert l[0..] == l;
    if l != [] {
      assert l[0] == s[|s| - |l|];
    }
  }

  /** Stripping twice is stripping once. */
  lemma StripIdempotent(s: string)
    ensures Strip(Strip(s)) == Strip(s)
  {
    var t := Strip(s);
    StripIsTrimmedSlice(s);
    if t != [] {
      assert StripLeft(t) == t;
      assert StripRight(t) == t;
    }
  }

  /** A pattern absent from a string is absent from every slice of it. */
  lemma NotOccursInSlice(pat: string, s: string, a: int, b: int)
    requires 0 <= a <= b <= |s|
    requires !Occurs(pat, s)
    ensures !Occurs(pat, s[a..b])
  {
    forall i | 0 <= i && i + |pat| <= b - a ensures !OccursAt(pat, s[a..b], i) {
      assert !OccursAt(pat, s, a + i);
      assert s[a..b][i..i + |pat|] == s[a + i..a + i + |pat|];
    }
  }

  // ---------------------------------------------------------------------------
  // replace()

  /** Replacing a pattern that does not occur returns the string unchanged. */
  lemma {:induction false} ReplaceAbsent(s: string, pat: string, rep: string)
    requires pat != []
    requires !Occurs(pat, s)
    ensures Replace(s, pat, rep) == s
    decreases |s|
  {
    if |s| >= |pat| {
      assert !OccursAt(pat, s, 0);
      assert s[0..|pat|] == s[..|pat|];
      NotOccursInSlice(pat, s, 1, |s|);
      assert s[1..|s|] == s[1..];
      ReplaceAbsent(s[1..], pat, rep);
      assert [s[0]] + s[1..] == s;
    }
  }

  const Fence := "```"

  /** The number of backticks `s` starts with. */
  function LeadingTicks(s: string): nat
  {
    if s != [] && s[0] == '`' then 1 + LeadingTicks(s[1..]) else 0
  }

  /** A string that starts with two backticks has at least two leading backticks. */
  lemma TwoLeadingTicks(x: string)
    ensures LeadingTicks(x) < 2 ==> !(|x| >= 2 && x[0] == '`' && x[1] == '`')
  {
    if |x| >= 2 && x[0] == '`' && x[1] == '`' {
      assert x[1..][0] == '`';
      assert LeadingTicks(x[1..]) == 1 + LeadingTicks(x[1..][1..]);
    }
  }

  /** A string that does not start with a fence starts with at most two backticks. */
  lemma LeadingTicksUnfenced(s: string)
    requires !(|s| >= 3 && s[..3] == Fence)
    ensures LeadingTicks(s) < 3
  {
    if |s| >= 3 {
      assert s[..3] == [s[0], s[1], s[2]];
    }
    if s != [] && s[0] == '`' {
      var t := s[1..];
      if t != [] && t[0] == '`' {
        var u := t[1..];
        assert u != [] ==> u[0] == s[2];
        assert u == [] || u[0] != '`';
        assert LeadingTicks(u) == 0;
      }
    }
  }

  /** A leading fence contributes three leading backticks. */
  lemma FenceLeadingTicks(s: string)
    requires |s| >= 3 && s[..3] == Fence
    ensures LeadingTicks(s) == 3 + LeadingTicks(s[3..])
  {
    assert s[..3] == [s[0], s[1], s[2]];
    assert Fence == ['`', '`', '`'];
    var t := s[1..];
    var u := t[1..];
    assert t[0] == s[1] && u[0] == s[2];
    assert u[1..] == s[3..];
    assert LeadingTicks(u) == 1 + LeadingTicks(s[3..]);
    assert LeadingTicks(t) == 1 + LeadingTicks(u);
  }

  /** Where no fence starts, replacement keeps the first character. */
  lemma ReplaceKeepsHead(s: string)
    requires s != [] && !(|s| >= 3 && s[..3] == Fence)
    ensures Replace(s, Fence, "") == [s[0]] + Replace(s[1..], Fence, "")
  {
    if |s| < 3 {
      assert Replace(s, Fence, "") == s;
      assert Replace(s[1..], Fence, "") == s[1..];
      assert [s[0]] + s[1..] == s;
    }
  }

  /** Removing fences leaves the length of the leading run of backticks modulo 3. */
  lemma {:induction false} LeadingTicksOfReplace(s: string)
    ensures LeadingTicks(Replace(s, Fence, "")) == LeadingTicks(s) % 3
    decreases |s|
  {
    if |s| >= 3 && s[..3] == Fence {
      FenceLeadingTicks(s);
      LeadingTicksOfReplace(s[3..]);
      assert Replace(s, Fence, "") == "" + Replace(s[3..], Fence, "");
      assert "" + Replace(s[3..], Fence, "") == Replace(s[3..], Fence, "");
      assert (3 + LeadingTicks(s[3..])) % 3 == LeadingTicks(s[3..]) % 3;
    } else if s != [] {
      LeadingTicksUnfenced(s);
      ReplaceKeepsHead(s);
      var rest := Replace(s[1..], Fence, "");
      var r := [s[0]] + rest;
      assert r[1..] == rest;
      if s[0] == '`' {
        LeadingTicksOfReplace(s[1..]);
        assert LeadingTicks(s) == 1 + LeadingTicks(s[1..]);
        assert LeadingTicks(s[1..]) % 3 == LeadingTicks(s[1..]);
        assert LeadingTicks(r) == 1 + LeadingTicks(rest);
        assert LeadingTicks(s) % 3 == LeadingTicks(s);
      } else {
        assert LeadingTicks(s) == 0 && LeadingTicks(r) == 0;
      }
    }
  }

  /** After every fence has been removed, no fence is left: removal never joins two runs of backticks into one. */
  lemma {:induction false} ReplaceRemovesFence(s: string)
    ensures !Occurs(Fence, Replace(s, Fence, ""))
    decreases |s|
  {
    var r := Replace(s, Fence, "");
    if |s| < 3 {
      assert r == s;
    } else if s[..3] == Fence {
      ReplaceRemovesFence(s[3..]);
      assert r == Replace(s[3..], Fence, "");
    } else {
      ReplaceRemovesFence(s[1..]);
      var rest := Replace(s[1..], Fence, "");
      assert r == [s[0]] + rest;
      forall i | 0 <= i && i + 3 <= |r| ensures !OccursAt(Fence, r, i) {
        if i > 0 {
          assert !OccursAt(Fence, rest, i - 1);
          assert rest[i - 1..i + 2] == r[i..i + 3];
        } else if s[0] == '`' {
          LeadingTicksOfReplace(s[1..]);
          TwoLeadingTicks(rest);
          TwoLeadingTicks(s[1..]);
          assert s[1..][0] == s[1] && s[1..][1] == s[2];
          assert r[1] == rest[0] && r[2] == rest[1];
        }
      }
    }
  }

  /** "```json" starts with a fence, so a string without fences has no "```json" either. */
  lemma JsonFenceHasFence(s: string)
    requires !Occurs(Fence, s)
    ensures !Occurs("```json", s)
  {
    forall i | 0 <= i && i + 7 <= |s| ensures !OccursAt("```json", s, i) {
      assert !OccursAt(Fence, s, i);
      assert s[i..i + 7][..3] == s[i..i + 3];
    }
  }
}
