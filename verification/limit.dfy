/**
  The namespace limit: the optional set of package-name prefixes read once,
  at import time, from the HORSE_WITH_NO_NAMESPACES environment variable.
  An unset variable means "no limit"; a set one is split on commas, exactly
  as Python's `str.split(",")` does, and the pieces become a set.
 */
module Limit {

  datatype Option<+T> = None | Some(value: T)

  /** The separator of the environment variable's list. */
  const Separator: char := ','

  /**
    Python's `s.split(sep)` with an explicit one-character separator: the
    pieces between separators, empty pieces included, so that the empty
    string gives one empty piece and a trailing separator an empty last one.
   */
  function Split(s: string, sep: char): (parts: seq<string>)
    ensures |parts| >= 1
    ensures forall i :: 0 <= i < |parts| ==> sep !in parts[i]
    decreases |s|
  {
    if |s| == 0 then [""]
    else
      var rest := Split(s[1..], sep);
      if s[0] == sep then [""] + rest
      else [[s[0]] + rest[0]] + rest[1..]
  }

  /** Python's `sep.join(parts)`, the inverse of Split. */
  function Join(parts: seq<string>, sep: char): (joined: string)
    requires |parts| >= 1
    decreases |parts|
  {
    if |parts| == 1 then parts[0] else parts[0] + [sep] + Join(parts[1..], sep)
  }

  /** Joining the pieces of a split gives back the original text. */
  lemma {:induction false} JoinSplit(s: string, sep: char)
    ensures Join(Split(s, sep), sep) == s
    decreases |s|
  {
    if |s| > 0 {
      var rest := Split(s[1..], sep);
      JoinSplit(s[1..], sep);
      assert s == [s[0]] + s[1..];
      if s[0] == sep {
        assert Split(s, sep) == [""] + rest;
        assert ([""] + rest)[1..] == rest;
      } else {
        var parts := Split(s, sep);
        assert parts == [[s[0]] + rest[0]] + rest[1..];
        if |rest| > 1 {
          assert parts[1..] == rest[1..];
          assert Join(rest, sep) == rest[0] + [sep] + Join(rest[1..], sep);
        }
      }
    }
  }

  /** A piece without a separator splits into itself alone. */
  lemma {:induction false} SplitWord(w: string, sep: char)
    requires sep !in w
    ensures Split(w, sep) == [w]
    decreases |w|
  {
    if |w| > 0 {
      SplitWord(w[1..], sep);
      assert [w[0]] + w[1..] == w;
    }
  }

  /** Splitting stops at the first separator and starts afresh after it. */
  lemma {:induction false} SplitAfterWord(w: string, t: string, sep: char)
    requires sep !in w
    ensures Split(w + [sep] + t, sep) == [w] + Split(t, sep)
    decreases |w|
  {
    var s := w + [sep] + t;
    if |w| == 0 {
      assert s == [sep] + t;
      assert s[1..] == t;
    } else {
      assert s[1..] == w[1..] + [sep] + t;
      SplitAfterWord(w[1..], t, sep);
      assert [w[0]] + w[1..] == w;
    }
  }

  /** Splitting a join of separator-free pieces gives back exactly those pieces. */
  lemma {:induction false} SplitJoin(parts: seq<string>, sep: char)
    requires |parts| >= 1
    requires forall i :: 0 <= i < |parts| ==> sep !in parts[i]
    ensures Split(Join(parts, sep), sep) == parts
    decreases |parts|
  {
    if |parts| == 1 {
      SplitWord(parts[0], sep);
    } else {
      SplitJoin(parts[1..], sep);
      SplitAfterWord(parts[0], Join(parts[1..], sep), sep);
      assert parts == [parts[0]] + parts[1..];
    }
  }

  /**
    Python's truthiness of `limit_namespaces`: None and the empty set are
    false, so only a non-empty set restricts anything.
   */
  predicate Active(limit: Option<set<string>>)
  {
    limit.Some? && limit.value != {}
  }

  /**
    `limit_namespaces` computed from the variable's value, `None` when the
    variable is unset. Every set value, the empty string included, yields at
    least one prefix, so the limit is active exactly when the variable is set.
   */
  function ParseLimit(env: Option<string>): (limit: Option<set<string>>)
    ensures limit.None? <==> env.None?
    ensures Active(limit) <==> env.Some?
    ensures env.Some? ==> forall p :: p in limit.value ==> Separator !in p
    ensures env.Some? && Separator !in env.value ==> limit.value == {env.value}
  {
    match env
    case None => None
    case Some(s) =>
      var parts := Split(s, Separator);
      var prefixes := set p | p in parts;
      assert parts[0] in prefixes;
      assert Separator !in s ==> parts == [s] by {
        if Separator !in s { SplitWord(s, Separator); }
      }
      Some(prefixes)
  }

  /**
    A variable written as a comma-separated list of comma-free names limits
    to exactly those names: nothing is lost and nothing is invented.
   */
  lemma ParseLimitOfList(names: seq<string>)
    requires |names| >= 1
    requires forall i :: 0 <= i < |names| ==> Separator !in names[i]
    ensures ParseLimit(Some(Join(names, Separator))) == Some(set p | p in names)
  {
    SplitJoin(names, Separator);
  }

  /**
    The empty value and a trailing comma both contribute the empty prefix:
    the limit becomes active with "" as one of its members.
   */
  lemma ParseLimitEmptyPieces(s: string)
    ensures ParseLimit(Some("")) == Some({""})
    ensures "" in ParseLimit(Some(s + [Separator])).value
  {
    var front := Split(s, Separator);
    JoinSplit(s, Separator);
    SplitJoinAppendEmpty(front);
    assert s + [Separator] == Join(front, Separator) + [Separator] + "";
    assert (front + [""])[|front|] == "";
  }

  /** Appending a separator to a join appends an empty piece. */
  lemma {:induction false} SplitJoinAppendEmpty(front: seq<string>)
    requires |front| >= 1
    requires forall i :: 0 <= i < |front| ==> Separator !in front[i]
    ensures Split(Join(front, Separator) + [Separator] + "", Separator) == front + [""]
  {
    SplitJoin(front + [""], Separator);
    JoinAppend(front, "");
  }

  /** Joining one more piece appends a separator and that piece. */
  lemma {:induction false} JoinAppend(front: seq<string>, last: string)
    requires |front| >= 1
    ensures Join(front + [last], Separator) == Join(front, Separator) + [Separator] + last
    decreases |front|
  {
    if |front| > 1 {
      JoinAppend(front[1..], last);
      assert (front + [last])[1..] == front[1..] + [last];
    }
  }
}
