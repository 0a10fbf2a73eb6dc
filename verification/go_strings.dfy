/** Go's `strings.Split` for a one-character separator, over `seq<char>`,
    together with its inverse `Join`. */
module GoStrings {

  /** `id` is the text of `s` before the first `sep`: a prefix of `s` with no
      `sep` in it that is either all of `s` or followed by `sep`. */
  ghost predicate Leading(s: string, sep: char, id: string) {
    && id <= s
    && sep !in id
    && (|id| == |s| || s[|id|] == sep)
  }

  /** `strings.Split(s, string(sep))`: the pieces of `s` between occurrences of
      `sep`. Like Go, it returns one more piece than there are separators, so
      the empty string splits into `[""]` and the result is never empty. */
  function Split(s: string, sep: char): (parts: seq<string>)
    ensures |parts| >= 1
    ensures forall i :: 0 <= i < |parts| ==> sep !in parts[i]
    ensures Leading(s, sep, parts[0])
    decreases |s|
  {
    if |s| == 0 then [""]
    else
      var rest := Split(s[1..], sep);
      if s[0] == sep then [""] + rest
      else [[s[0]] + rest[0]] + rest[1..]
  }

  /** Like Go's `strings.Split`, there is one more piece than there are
      separators. */
  lemma {:induction false} SplitCount(s: string, sep: char)
    ensures |Split(s, sep)| == multiset(s)[sep] + 1
    decreases |s|
  {
    if |s| > 0 {
      SplitCount(s[1..], sep);
      assert s == [s[0]] + s[1..];
      assert multiset(s) == multiset([s[0]]) + multiset(s[1..]);
    }
  }

  /** `strings.Join(parts, string(sep))`: the pieces glued with `sep`. */
  function Join(parts: seq<string>, sep: char): string
    decreases |parts|
  {
    if |parts| == 0 then ""
    else if |parts| == 1 then parts[0]
    else parts[0] + [sep] + Join(parts[1..], sep)
  }

  /** Joining a non-empty sequence unfolds on its first piece. */
  lemma {:induction false} JoinCons(p: string, rest: seq<string>, sep: char)
    requires |rest| >= 1
    ensures Join([p] + rest, sep) == p + [sep] + Join(rest, sep)
  {
    assert ([p] + rest)[1..] == rest;
  }

  /** Splitting loses nothing: the pieces glued back with `sep` are `s`. */
  lemma {:induction false} JoinSplit(s: string, sep: char)
    ensures Join(Split(s, sep), sep) == s
    decreases |s|
  {
    if |s| > 0 {
      var rest := Split(s[1..], sep);
      JoinSplit(s[1..], sep);
      assert s == [s[0]] + s[1..];
      if s[0] == sep {
        assert Split(s, sep) == [""] + rest;
        JoinCons("", rest, sep);
      } else if |rest| == 1 {
        assert Split(s, sep) == [[s[0]] + rest[0]];
      } else {
        assert Split(s, sep) == [[s[0]] + rest[0]] + rest[1..];
        assert rest == [rest[0]] + rest[1..];
        JoinCons(rest[0], rest[1..], sep);
        JoinCons([s[0]] + rest[0], rest[1..], sep);
      }
    }
  }

  /** Text without a separator extends the first piece of whatever follows it
      and leaves the remaining pieces alone. */
  lemma {:induction false} SplitAfterSegment(p: string, t: string, sep: char)
    requires sep !in p
    ensures Split(p + t, sep) == [p + Split(t, sep)[0]] + Split(t, sep)[1..]
    decreases |p|
  {
    if |p| > 0 {
      assert (p + t)[0] == p[0];
      assert (p + t)[1..] == p[1..] + t;
      var rest := Split(p[1..] + t, sep);
      assert Split(p + t, sep) == [[p[0]] + rest[0]] + rest[1..];
      SplitAfterSegment(p[1..], t, sep);
      assert [p[0]] + (p[1..] + Split(t, sep)[0]) == p + Split(t, sep)[0];
    } else {
      assert p + t == t;
      assert p + Split(t, sep)[0] == Split(t, sep)[0];
      assert Split(t, sep) == [Split(t, sep)[0]] + Split(t, sep)[1..];
    }
  }

  /** A piece followed by a separator is split off as the first piece. */
  lemma {:induction false} SplitSegmentThenSep(p: string, u: string, sep: char)
    requires sep !in p
    ensures Split(p + [sep] + u, sep) == [p] + Split(u, sep)
  {
    assert p + [sep] + u == p + ([sep] + u);
    SplitAfterSegment(p, [sep] + u, sep);
    assert ([sep] + u)[0] == sep && ([sep] + u)[1..] == u;
    assert Split([sep] + u, sep) == [""] + Split(u, sep);
    assert p + "" == p;
  }

  /** Splitting undoes joining pieces that hold no separator. */
  lemma {:induction false} SplitJoin(parts: seq<string>, sep: char)
    requires |parts| >= 1
    requires forall i :: 0 <= i < |parts| ==> sep !in parts[i]
    ensures Split(Join(parts, sep), sep) == parts
    decreases |parts|
  {
    if |parts| == 1 {
      SplitAfterSegment(parts[0], "", sep);
      assert parts[0] + "" == parts[0];
    } else {
      SplitJoin(parts[1..], sep);
      SplitSegmentThenSep(parts[0], Join(parts[1..], sep), sep);
      assert parts == [parts[0]] + parts[1..];
    }
  }

  /** The text before the first separator is determined by the string. */
  lemma LeadingUnique(s: string, sep: char, a: string, b: string)
    requires Leading(s, sep, a) && Leading(s, sep, b)
    ensures a == b
  {
  }

  /** The first piece of `id + suffix` is `id` when `id` holds no separator
      and `suffix` is empty or starts with one. */
  lemma FirstPiece(id: string, suffix: string, sep: char)
    requires sep !in id
    requires suffix == [] || suffix[0] == sep
    ensures Split(id + suffix, sep)[0] == id
  {
    assert Leading(id + suffix, sep, id);
    LeadingUnique(id + suffix, sep, id, Split(id + suffix, sep)[0]);
  }
}
