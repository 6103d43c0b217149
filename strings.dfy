/** String helpers the stacks rely on, with JavaScript's meaning, over `seq<char>`. */
module Strings {

  /** Number of occurrences of `c` in `s`. */
  function CountOf(s: string, c: char): nat
  {
    if s == [] then 0 else (if s[0] == c then 1 else 0) + CountOf(s[1..], c)
  }

  predicate IsPrefix(p: string, s: string)
  {
    |p| <= |s| && s[..|p|] == p
  }

  predicate EndsWith(s: string, suffix: string)
  {
    |suffix| <= |s| && s[|s| - |suffix|..] == suffix
  }

  /** Appending the same suffix keeps strings apart. */
  lemma SuffixCancels(a: string, b: string, suffix: string)
    ensures a + suffix == b + suffix ==> a == b
  {
    if a + suffix == b + suffix {
      assert a == (a + suffix)[..|a|];
      assert b == (b + suffix)[..|b|];
    }
  }

  /**
   * `s.split(sep)` for a one-character separator: the pieces between
   * consecutive separators, in order. There is always at least one piece
   * (`"".split(",")` is `[""]`), and empty pieces are kept.
   */
  function Split(s: string, sep: char): (pieces: seq<string>)
    ensures |pieces| == CountOf(s, sep) + 1
    ensures forall i :: 0 <= i < |pieces| ==> sep !in pieces[i]
    decreases |s|
  {
    if s == [] then [""]
    else
      var rest := Split(s[1..], sep);
      if s[0] == sep then [""] + rest
      else
        assert sep !in [s[0]] + rest[0];
        [[s[0]] + rest[0]] + rest[1..]
  }

  /** `pieces.join(sep)`: the inverse of `Split`. */
  function Join(pieces: seq<string>, sep: char): string
    requires |pieces| >= 1
    decreases |pieces|
  {
    if |pieces| == 1 then pieces[0] else pieces[0] + [sep] + Join(pieces[1..], sep)
  }

  /** Joining the pieces of a split with the same separator gives back the string. */
  lemma {:induction false} JoinSplit(s: string, sep: char)
    ensures Join(Split(s, sep), sep) == s
    decreases |s|
  {
    if s != [] {
      var rest := Split(s[1..], sep);
      JoinSplit(s[1..], sep);
      if s[0] == sep {
        assert ([""] + rest)[1..] == rest;
      } else {
        var pieces := [[s[0]] + rest[0]] + rest[1..];
        assert pieces == Split(s, sep);
        if |rest| > 1 {
          assert pieces[1..] == rest[1..];
          assert Join(rest, sep) == rest[0] + [sep] + Join(rest[1..], sep);
        }
        assert s == [s[0]] + s[1..];
      }
    }
  }

  /** A separator-free prefix merges into the first piece of what follows it. */
  lemma {:induction false} SplitAfterPiece(p: string, tail: string, sep: char)
    requires sep !in p
    ensures Split(p + tail, sep) == [p + Split(tail, sep)[0]] + Split(tail, sep)[1..]
    decreases |p|
  {
    var rest := Split(tail, sep);
    if p == [] {
      assert p + tail == tail;
      assert p + rest[0] == rest[0];
      assert rest == [rest[0]] + rest[1..];
    } else {
      SplitAfterPiece(p[1..], tail, sep);
      assert (p + tail)[0] == p[0];
      assert (p + tail)[1..] == p[1..] + tail;
      assert [p[0]] + (p[1..] + Split(tail, sep)[0]) == p + Split(tail, sep)[0];
    }
  }

  /** Splitting a join of separator-free pieces gives back the pieces. */
  lemma {:induction false} SplitJoin(pieces: seq<string>, sep: char)
    requires |pieces| >= 1
    requires forall i :: 0 <= i < |pieces| ==> sep !in pieces[i]
    ensures Split(Join(pieces, sep), sep) == pieces
    decreases |pieces|
  {
    if |pieces| == 1 {
      SplitAfterPiece(pieces[0], "", sep);
      assert pieces[0] + "" == pieces[0];
    } else {
      var rest := Join(pieces[1..], sep);
      SplitJoin(pieces[1..], sep);
      SplitAfterPiece(pieces[0], [sep] + rest, sep);
      assert pieces[0] + [sep] + rest == pieces[0] + ([sep] + rest);
      assert ([sep] + rest)[1..] == rest;
      assert Split([sep] + rest, sep) == [""] + pieces[1..];
      assert pieces[0] + "" == pieces[0];
    }
  }

  /** The first piece of a split is the longest separator-free prefix. */
  lemma {:induction false} SplitHead(s: string, sep: char)
    ensures IsPrefix(Split(s, sep)[0], s)
    ensures Split(s, sep)[0] == s || s[|Split(s, sep)[0]|] == sep
    decreases |s|
  {
    if s != [] && s[0] != sep {
      SplitHead(s[1..], sep);
      var h := Split(s[1..], sep)[0];
      assert Split(s, sep)[0] == [s[0]] + h;
      assert s == [s[0]] + s[1..];
    }
  }

  /**
   * `fqdn.split('.')[0]`: the text before the first '.', or the whole of
   * `fqdn` when it has no '.'.
   */
  function FirstLabel(fqdn: string): (first: string)
    ensures IsPrefix(first, fqdn) && '.' !in first
    ensures first == fqdn || fqdn[|first|] == '.'
  {
    SplitHead(fqdn, '.');
    Split(fqdn, '.')[0]
  }

  /** A '.'-free prefix that ends at a '.' or at the end of `s` is the first label of `s`. */
  lemma FirstLabelUnique(p: string, s: string)
    requires IsPrefix(p, s) && '.' !in p
    requires p == s || s[|p|] == '.'
    ensures FirstLabel(s) == p
  {
  }

  /** Qualifying a label with a domain keeps its first label. */
  lemma FirstLabelOfQualified(name: string, domain: string)
    ensures FirstLabel(name + "." + domain) == FirstLabel(name)
    ensures '.' !in name ==> FirstLabel(name + "." + domain) == name
  {
    var s := name + "." + domain;
    var f := FirstLabel(name);
    assert s[..|name|] == name;
    assert s[|name|] == '.';
    assert s[..|f|] == name[..|f|];
    FirstLabelUnique(f, s);
  }
}
