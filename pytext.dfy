/** The few Python string operations the tool relies on, written out with
    their CPython meaning: `str.startswith`, `str.endswith`, substring
    membership (`needle in s`), `str.split(sep)` for a one-character
    separator, and the inverse `sep.join(parts)`. */
module PyText {

  datatype Option<+T> = None | Some(value: T)

  /** What `str.split` returns: never an empty list. */
  type Parts = s: seq<string> | |s| > 0 witness [""]

  predicate StartsWith(s: string, prefix: string)
  {
    |prefix| <= |s| && s[..|prefix|] == prefix
  }

  predicate EndsWith(s: string, suffix: string)
  {
    |suffix| <= |s| && s[|s| - |suffix|..] == suffix
  }

  /** Python's `needle in s` on two strings: substring containment. */
  predicate Contains(s: string, needle: string)
    decreases |s|
  {
    StartsWith(s, needle) || (|s| > 0 && Contains(s[1..], needle))
  }

  /** An occurrence of `n` at index `i` makes `n in s` true. */
  lemma {:induction false} ContainsAt(s: string, n: string, i: nat)
    requires i <= |s| && StartsWith(s[i..], n)
    ensures Contains(s, n)
    decreases i
  {
    if i == 0 {
      assert s[i..] == s;
    } else {
      assert s[1..][i - 1..] == s[i..];
      ContainsAt(s[1..], n, i - 1);
    }
  }

  /** `s.split(c)`: cuts at every occurrence of `c`, keeping empty pieces. */
  function Split(s: string, c: char): (r: Parts)
    ensures forall i :: 0 <= i < |r| ==> c !in r[i]
    decreases |s|
  {
    if s == [] then [""]
    else
      var rest := Split(s[1..], c);
      if s[0] == c then [""] + rest
      else [[s[0]] + rest[0]] + rest[1..]
  }

  /** `c.join(parts)`. */
  function SepJoin(parts: Parts, c: char): string
    decreases |parts|
  {
    if |parts| == 1 then parts[0] else parts[0] + [c] + SepJoin(parts[1..], c)
  }

  /** `s.replace(c, d)` for single characters. */
  function Replace(s: string, c: char, d: char): (r: string)
    ensures |r| == |s|
    ensures forall i :: 0 <= i < |s| ==> r[i] == (if s[i] == c then d else s[i])
    decreases |s|
  {
    if s == [] then [] else [if s[0] == c then d else s[0]] + Replace(s[1..], c, d)
  }

  /** Prepending a character to the first piece of a join. */
  lemma SepJoinConsFirst(x: char, parts: Parts, c: char)
    ensures SepJoin([[x] + parts[0]] + parts[1..], c) == [x] + SepJoin(parts, c)
  {
  }

  /** Splitting at `c` and joining again with `d` replaces every `c` by `d`. */
  lemma {:induction false} SplitThenJoin(s: string, c: char, d: char)
    ensures SepJoin(Split(s, c), d) == Replace(s, c, d)
    decreases |s|
  {
    if s != [] {
      var rest := Split(s[1..], c);
      SplitThenJoin(s[1..], c, d);
      if s[0] == c {
        var q: Parts := [""] + rest;
        assert q[1..] == rest;
      } else {
        SepJoinConsFirst(s[0], rest, d);
      }
    }
  }

  /** `c.join(s.split(c)) == s`. */
  lemma SplitJoinInverse(s: string, c: char)
    ensures SepJoin(Split(s, c), c) == s
  {
  }

  /** Splitting a string whose first piece `a` holds no separator. */
  lemma {:induction false} SplitPrefix(a: string, rest: string, c: char)
    requires c !in a
    ensures Split(a + rest, c) == [a + Split(rest, c)[0]] + Split(rest, c)[1..]
    decreases |a|
  {
    if a != [] {
      assert (a + rest)[1..] == a[1..] + rest;
      SplitPrefix(a[1..], rest, c);
      assert [a[0]] + (a[1..] + Split(rest, c)[0]) == a + Split(rest, c)[0];
    } else {
      var r := Split(rest, c);
      assert a + rest == rest;
      assert r == [r[0]] + r[1..];
      assert a + r[0] == r[0];
    }
  }

  /** `(c.join(parts)).split(c) == parts` when no piece holds `c`. */
  lemma {:induction false} JoinSplitInverse(parts: Parts, c: char)
    requires forall i :: 0 <= i < |parts| ==> c !in parts[i]
    ensures Split(SepJoin(parts, c), c) == parts
    decreases |parts|
  {
    if |parts| == 1 {
      SplitPrefix(parts[0], [], c);
      assert parts[0] + [] == parts[0];
    } else {
      var tail: Parts := parts[1..];
      JoinSplitInverse(tail, c);
      var rest := [c] + SepJoin(tail, c);
      assert SepJoin(parts, c) == parts[0] + rest;
      SplitPrefix(parts[0], rest, c);
      assert rest[0] == c && rest[1..] == SepJoin(tail, c);
      assert Split(rest, c) == [""] + tail;
      assert parts[0] + "" == parts[0];
      assert [parts[0]] + tail == parts;
    }
  }
}
