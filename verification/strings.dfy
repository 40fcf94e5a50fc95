/** The part of Go's `strings` package the injector relies on: splitting on a
    one-character separator, and the joining that undoes it. */
module Strings {

  /** Number of occurrences of `c` in `s`. */
  function Count(s: string, c: char): (n: nat)
    ensures n <= |s|
    ensures n == 0 <==> c !in s
  {
    if |s| == 0 then 0
    else (if s[0] == c then 1 else 0) + Count(s[1..], c)
  }

  /** `strings.Split(s, string(c))`: the maximal pieces of `s` between
      occurrences of `c`. As in Go, the empty string splits into one empty
      piece and every separator yields one more piece. */
  function Split(s: string, c: char): (parts: seq<string>)
    ensures |parts| >= 1
    ensures forall i :: 0 <= i < |parts| ==> c !in parts[i]
    decreases |s|
  {
    if |s| == 0 then [""]
    else
      var rest := Split(s[1..], c);
      if s[0] == c then [""] + rest
      else [[s[0]] + rest[0]] + rest[1..]
  }

  /** `strings.Join(parts, string(c))`. */
  function Join(parts: seq<string>, c: char): (s: string)
    decreases |parts|
  {
    if |parts| == 0 then ""
    else if |parts| == 1 then parts[0]
    else parts[0] + [c] + Join(parts[1..], c)
  }

  predicate IsPrefix(p: string, s: string) {
    |p| <= |s| && s[..|p|] == p
  }

  predicate IsSuffix(p: string, s: string) {
    |p| <= |s| && s[|s| - |p|..] == p
  }

  /** Splitting produces exactly one more piece than there are separators. */
  lemma {:induction false} SplitCount(s: string, c: char)
    ensures |Split(s, c)| == Count(s, c) + 1
    decreases |s|
  {
    if |s| > 0 {
      SplitCount(s[1..], c);
    }
  }

  /** Joining the pieces with the separator gives back the original string. */
  lemma {:induction false} JoinSplit(s: string, c: char)
    ensures Join(Split(s, c), c) == s
    decreases |s|
  {
    if |s| > 0 {
      var rest := Split(s[1..], c);
      JoinSplit(s[1..], c);
      if s[0] == c {
        assert Split(s, c) == [""] + rest;
        assert s == [c] + s[1..];
      } else {
        var parts := Split(s, c);
        assert parts == [[s[0]] + rest[0]] + rest[1..];
        if |rest| == 1 {
          assert Join(parts, c) == [s[0]] + rest[0];
        } else {
          assert Join(rest, c) == rest[0] + [c] + Join(rest[1..], c);
          assert parts[1..] == rest[1..];
          assert Join(parts, c) == [s[0]] + rest[0] + [c] + Join(rest[1..], c);
        }
        assert s == [s[0]] + s[1..];
      }
    }
  }

  /** Prepending a separator-free character to a string glues it to the
      first piece. */
  lemma {:induction false} SplitConsPlain(x: char, s: string, c: char)
    requires x != c
    ensures Split([x] + s, c) == [[x] + Split(s, c)[0]] + Split(s, c)[1..]
  {
    assert ([x] + s)[1..] == s;
  }

  /** Splitting a separator-free word followed by more text. */
  lemma {:induction false} SplitPrefixWord(w: string, s: string, c: char)
    requires c !in w
    ensures Split(w + s, c) == [w + Split(s, c)[0]] + Split(s, c)[1..]
    decreases |w|
  {
    if |w| > 0 {
      var parts := Split(s, c);
      var t := w[1..] + s;
      SplitPrefixWord(w[1..], s, c);
      assert Split(t, c)[0] == w[1..] + parts[0];
      assert Split(t, c)[1..] == parts[1..];
      assert w + s == [w[0]] + t;
      SplitConsPlain(w[0], t, c);
      assert [w[0]] + (w[1..] + parts[0]) == w + parts[0];
    } else {
      var parts := Split(s, c);
      assert w + s == s;
      assert w + parts[0] == parts[0];
      assert parts == [parts[0]] + parts[1..];
    }
  }

  /** Splitting a separator-free word on its own gives that word. */
  lemma SplitPlain(w: string, c: char)
    requires c !in w
    ensures Split(w, c) == [w]
  {
    SplitPrefixWord(w, "", c);
    assert w + "" == w;
  }

  /** Splitting undoes joining when no piece contains the separator. */
  lemma {:induction false} SplitJoin(parts: seq<string>, c: char)
    requires |parts| >= 1
    requires forall i :: 0 <= i < |parts| ==> c !in parts[i]
    ensures Split(Join(parts, c), c) == parts
    decreases |parts|
  {
    if |parts| == 1 {
      SplitPlain(parts[0], c);
    } else {
      var tail := Join(parts[1..], c);
      SplitJoin(parts[1..], c);
      assert Join(parts, c) == parts[0] + ([c] + tail);
      SplitPrefixWord(parts[0], [c] + tail, c);
      assert ([c] + tail)[1..] == tail;
      assert Split([c] + tail, c) == [""] + parts[1..];
      assert parts[0] + "" == parts[0];
      assert parts == [parts[0]] + parts[1..];
    }
  }

  /** A string holding exactly one separator splits into exactly the text
      before it and the text after it. */
  lemma TwoParts(s: string, c: char)
    requires |Split(s, c)| == 2
    ensures Split(s, c)[0] + [c] + Split(s, c)[1] == s
    ensures Count(s, c) == 1
  {
    SplitCount(s, c);
    JoinSplit(s, c);
    var parts := Split(s, c);
    assert Join(parts[1..], c) == parts[1];
  }
}
