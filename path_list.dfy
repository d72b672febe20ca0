/**
 * Python's `str.split(sep)` and `sep.join(parts)` for the one-character
 * separator `os.pathsep`, and the facts that make prepending an entry to a
 * `PATH` string by split / insert(0, ...) / join well behaved.
 */
module PathList {

  /** `s.split(sep)`: the pieces of `s` between occurrences of `sep`; `"".split(sep) == [""]`. */
  function Split(s: string, sep: char): (parts: seq<string>)
    ensures |parts| >= 1
    ensures forall i :: 0 <= i < |parts| ==> sep !in parts[i]
    decreases |s|
  {
    if |s| == 0 then [""]
    else
      var rest := Split(s[1..], sep);
      if s[0] == sep then [""] + rest
      else [[s[0]] + rest[0]] + rest[1..]
  }

  /**
   * `sep.join(parts)`: no parts give the empty string; otherwise the first part
   * opens the result, followed by the separator when another part comes.
   */
  function Join(parts: seq<string>, sep: char): (s: string)
    ensures |parts| == 0 ==> s == ""
    ensures |parts| >= 1 ==> parts[0] <= s
    ensures |parts| >= 2 ==> |parts[0]| < |s| && s[|parts[0]|] == sep
  {
    if |parts| == 0 then ""
    else if |parts| == 1 then parts[0]
    else parts[0] + [sep] + Join(parts[1..], sep)
  }

  /** Joining the pieces of a split gives back the original string. */
  lemma {:induction false} JoinSplit(s: string, sep: char)
    ensures Join(Split(s, sep), sep) == s
    decreases |s|
  {
    if |s| > 0 {
      var rest := Split(s[1..], sep);
      JoinSplit(s[1..], sep);
      if s[0] == sep {
        assert Split(s, sep) == [""] + rest;
        assert ([""] + rest)[1..] == rest;
        assert Join(Split(s, sep), sep) == "" + [sep] + s[1..];
      } else if |rest| == 1 {
        assert Split(s, sep) == [[s[0]] + rest[0]];
      } else {
        assert Join(rest, sep) == rest[0] + [sep] + Join(rest[1..], sep);
        var parts := [[s[0]] + rest[0]] + rest[1..];
        assert parts[1..] == rest[1..];
        assert Join(parts, sep) == [s[0]] + rest[0] + [sep] + Join(rest[1..], sep);
      }
    }
  }

  /** A string without the separator splits into itself alone. */
  lemma {:induction false} SplitWithoutSep(x: string, sep: char)
    requires sep !in x
    ensures Split(x, sep) == [x]
    decreases |x|
  {
    if |x| > 0 {
      SplitWithoutSep(x[1..], sep);
      assert [x[0]] + x[1..] == x;
    }
  }

  /** Splitting `x + sep + p` yields `x` followed by the pieces of `p`, when `x` holds no separator. */
  lemma {:induction false} SplitPrepend(x: string, p: string, sep: char)
    requires sep !in x
    ensures Split(x + [sep] + p, sep) == [x] + Split(p, sep)
    decreases |x|
  {
    var s := x + [sep] + p;
    if |x| == 0 {
      assert s[1..] == p;
    } else {
      assert s[1..] == x[1..] + [sep] + p;
      SplitPrepend(x[1..], p, sep);
      assert [x[0]] + x[1..] == x;
    }
  }

  /** Splitting a join gives back the parts, when no part holds the separator. */
  lemma {:induction false} SplitJoin(parts: seq<string>, sep: char)
    requires |parts| >= 1
    requires forall i :: 0 <= i < |parts| ==> sep !in parts[i]
    ensures Split(Join(parts, sep), sep) == parts
    decreases |parts|
  {
    if |parts| == 1 {
      SplitWithoutSep(parts[0], sep);
    } else {
      SplitJoin(parts[1..], sep);
      SplitPrepend(parts[0], Join(parts[1..], sep), sep);
      assert [parts[0]] + parts[1..] == parts;
    }
  }

  /**
   * Inserting `x` at position 0 of the pieces of `p` and joining them again
   * gives `x + sep + p`, also when `p` is empty.
   */
  lemma InsertFrontJoin(x: string, p: string, sep: char)
    ensures Join([x] + Split(p, sep), sep) == x + [sep] + p
  {
    var parts := [x] + Split(p, sep);
    assert parts[1..] == Split(p, sep);
    JoinSplit(p, sep);
  }
}
