/**
 * The string splitting the parser applies to file names: `os.path.basename`
 * (the text after the last '/'), `s.split(c)[0]` (the text before the first c)
 * and `s.split(c)[-1]` (the text after the last c).
 */
module Text {

  /** `s.split(c)[-1]`: the longest suffix of s without c. */
  function AfterLast(s: string, c: char): (r: string)
    ensures |r| <= |s| && r == s[|s| - |r|..]
    ensures c !in r
    ensures r == s || s[|s| - |r| - 1] == c
  {
    if s == [] then []
    else if s[|s| - 1] == c then []
    else AfterLast(s[..|s| - 1], c) + [s[|s| - 1]]
  }

  /** `s.split(c)[0]`: the longest prefix of s without c. */
  function BeforeFirst(s: string, c: char): (r: string)
    ensures |r| <= |s| && r == s[..|r|]
    ensures c !in r
    ensures r == s || s[|r|] == c
  {
    if s == [] then []
    else if s[0] == c then []
    else [s[0]] + BeforeFirst(s[1..], c)
  }

  /** `os.path.basename` on a POSIX path. */
  function Basename(path: string): (r: string)
    ensures '/' !in r
  {
    AfterLast(path, '/')
  }

  /** Splitting a string at its last c gives back the string. */
  lemma AfterLastSplit(s: string, c: char)
    requires c in s
    ensures var r := AfterLast(s, c);
      s == s[..|s| - |r| - 1] + [c] + r
  {
  }

  /** A string without c is its own last piece and its own first piece. */
  lemma NoSeparator(s: string, c: char)
    requires c !in s
    ensures AfterLast(s, c) == s && BeforeFirst(s, c) == s
  {
  }

  /** The last piece of a + [c] + b is b when b has no c. */
  lemma {:induction false} AfterLastAppend(a: string, b: string, c: char)
    requires c !in b
    ensures AfterLast(a + [c] + b, c) == b
    decreases |b|
  {
    var s := a + [c] + b;
    if b == [] {
      assert s[|s| - 1] == c;
    } else {
      var init := b[..|b| - 1];
      assert s[..|s| - 1] == a + [c] + init;
      assert s[|s| - 1] == b[|b| - 1];
      AfterLastAppend(a, init, c);
      assert init + [b[|b| - 1]] == b;
    }
  }

  /** The first piece of a + [c] + b is a when a has no c. */
  lemma {:induction false} BeforeFirstPrepend(a: string, b: string, c: char)
    requires c !in a
    ensures BeforeFirst(a + [c] + b, c) == a
    decreases |a|
  {
    var s := a + [c] + b;
    if a == [] {
      assert s[0] == c;
    } else {
      assert s[0] == a[0];
      assert s[1..] == a[1..] + [c] + b;
      BeforeFirstPrepend(a[1..], b, c);
      assert [a[0]] + a[1..] == a;
    }
  }
}
