/** The few string operations of Python that the sorter uses, on `seq<char>`. */
module Strings {

  /** `str.lower()` on one character, for the ASCII letters. */
  function LowerChar(c: char): (d: char)
    ensures !('A' <= d <= 'Z')
    ensures d != c ==> 'A' <= c <= 'Z' && d as int == c as int + 32
  {
    if 'A' <= c <= 'Z' then (c as int + 32) as char else c
  }

  /** `str.lower()`, character by character. */
  function Lower(s: string): (r: string)
    ensures |r| == |s|
    ensures forall i :: 0 <= i < |s| ==> r[i] == LowerChar(s[i])
  {
    seq(|s|, i requires 0 <= i < |s| => LowerChar(s[i]))
  }

  /** Lower-casing twice changes nothing more. */
  lemma LowerIdempotent(s: string)
    ensures Lower(Lower(s)) == Lower(s)
  {
    forall i | 0 <= i < |s|
      ensures Lower(Lower(s))[i] == Lower(s)[i]
    {
      assert !('A' <= Lower(s)[i] <= 'Z');
    }
  }

  /** `str.startswith(prefix)`. */
  predicate StartsWith(s: string, prefix: string)
  {
    |prefix| <= |s| && s[..|prefix|] == prefix
  }

  /** `str.endswith(suffix)`. */
  predicate EndsWith(s: string, suffix: string)
  {
    |suffix| <= |s| && s[|s| - |suffix|..] == suffix
  }

  /** A string ends with the last character of each of its non-empty suffixes. */
  lemma EndsWithLastChar(s: string, suffix: string)
    ensures EndsWith(s, suffix) && |suffix| > 0 ==> |s| > 0 && s[|s| - 1] == suffix[|suffix| - 1]
  {
    if EndsWith(s, suffix) && |suffix| > 0 {
      assert s[|s| - |suffix|..][|suffix| - 1] == suffix[|suffix| - 1];
    }
  }

  /** A string starts with one character exactly when that character is its first. */
  lemma StartsWithChar(s: string, c: char)
    ensures StartsWith(s, [c]) <==> |s| > 0 && s[0] == c
  {
    if |s| > 0 && s[0] == c {
      assert s[..1] == [c];
    }
    if StartsWith(s, [c]) {
      assert s[..1][0] == c;
    }
  }

  /** A common prefix does not change whether one string starts with another. */
  lemma StartsWithAfterCommonPrefix(p: string, s: string, t: string)
    ensures StartsWith(p + s, p + t) <==> StartsWith(s, t)
  {
    if StartsWith(p + s, p + t) {
      assert s[..|t|] == (p + s)[..|p + t|][|p|..];
    }
    if StartsWith(s, t) {
      assert (p + s)[..|p + t|] == p + s[..|t|];
    }
  }

  /** A string that starts with `t + [c]` contains `c`. */
  lemma StartsWithShowsChar(s: string, t: string, c: char)
    requires StartsWith(s, t + [c])
    ensures c in s
  {
    assert s[|t|] == (t + [c])[|t|];
  }

  /** `str.split(sep)`: the pieces between separators, empty pieces kept. */
  function Split(s: string, sep: char): (parts: seq<string>)
    ensures |parts| == multiset(s)[sep] + 1
    ensures forall i :: 0 <= i < |parts| ==> sep !in parts[i]
  {
    if s == [] then [""]
    else
      var rest := Split(s[1..], sep);
      assert s == [s[0]] + s[1..];
      if s[0] == sep then [""] + rest
      else [[s[0]] + rest[0]] + rest[1..]
  }

  /** `sep.join(parts)`. */
  function Join(parts: seq<string>, sep: char): string
    requires |parts| >= 1
  {
    if |parts| == 1 then parts[0] else parts[0] + [sep] + Join(parts[1..], sep)
  }

  /** Prefixing the first piece prefixes the joined string. */
  lemma JoinPrefixFirst(c: char, parts: seq<string>, sep: char)
    requires |parts| >= 1
    ensures Join([[c] + parts[0]] + parts[1..], sep) == [c] + Join(parts, sep)
  {
    var q := [[c] + parts[0]] + parts[1..];
    assert q[0] == [c] + parts[0];
    if |parts| > 1 {
      assert q[1..] == parts[1..];
    }
  }

  /** Joining the pieces of a split gives the original string back. */
  lemma {:induction false} JoinSplit(s: string, sep: char)
    ensures Join(Split(s, sep), sep) == s
  {
    if s != [] {
      JoinSplit(s[1..], sep);
      JoinSplitStep(s, sep);
    }
  }

  /** One step of `JoinSplit`: the first character comes back in front of the rest. */
  lemma JoinSplitStep(s: string, sep: char)
    requires s != [] && Join(Split(s[1..], sep), sep) == s[1..]
    ensures Join(Split(s, sep), sep) == s
  {
    if s[0] == sep {
      JoinSplitAtSeparator(s, sep);
    } else {
      var rest := Split(s[1..], sep);
      assert Split(s, sep) == [[s[0]] + rest[0]] + rest[1..];
      JoinPrefixFirst(s[0], rest, sep);
      assert [s[0]] + s[1..] == s;
    }
  }

  /** A leading separator splits off an empty first piece. */
  lemma JoinSplitAtSeparator(s: string, sep: char)
    requires s != [] && s[0] == sep && Join(Split(s[1..], sep), sep) == s[1..]
    ensures Join(Split(s, sep), sep) == s
  {
    var rest := Split(s[1..], sep);
    var parts := [""] + rest;
    assert Split(s, sep) == parts;
    assert parts[1..] == rest;
    assert Join(parts, sep) == "" + [sep] + Join(rest, sep);
    assert [sep] + s[1..] == s;
  }

  /** Splitting a string that holds no separator yields the string itself. */
  lemma SplitWithoutSeparator(s: string, sep: char)
    requires sep !in s
    ensures Split(s, sep) == [s]
  {
    JoinSplit(s, sep);
    assert multiset(s)[sep] == 0;
  }
}
