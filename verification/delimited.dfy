/**
  Strings cut into fields by a one-character delimiter: the model of
  JavaScript's `Array.prototype.join(sep)` and `String.prototype.split(sep)`
  when `sep` is a single character.
 */
module Delimited {

  /** Every character of `s` belongs to `alphabet`. */
  predicate Over(s: string, alphabet: set<char>)
  {
    forall i :: 0 <= i < |s| ==> s[i] in alphabet
  }

  /** The parts, in order, with one `sep` between neighbours (`parts.join(sep)`). */
  function Join(parts: seq<string>, sep: char): string
  {
    if |parts| == 0 then ""
    else if |parts| == 1 then parts[0]
    else parts[0] + [sep] + Join(parts[1..], sep)
  }

  /**
    The fields of `s` between occurrences of `sep` (`s.split(sep)`). Like the
    JavaScript method it yields at least one field: `"".split(sep)` is `[""]`.
   */
  function Split(s: string, sep: char): (fields: seq<string>)
    ensures |fields| >= 1
    ensures forall k :: 0 <= k < |fields| ==> sep !in fields[k]
  {
    if |s| == 0 then [""]
    else if s[0] == sep then [""] + Split(s[1..], sep)
    else
      var rest := Split(s[1..], sep);
      [[s[0]] + rest[0]] + rest[1..]
  }

  /** A string without the delimiter is a single field. */
  lemma {:induction false} SplitNoDelimiter(p: string, sep: char)
    requires sep !in p
    ensures Split(p, sep) == [p]
  {
    if |p| > 0 {
      assert p[0] != sep;
      SplitNoDelimiter(p[1..], sep);
      assert [p[0]] + p[1..] == p;
    }
  }

  /** A leading field that holds no delimiter is cut off whole. */
  lemma {:induction false} SplitFirstField(p: string, sep: char, t: string)
    requires sep !in p
    ensures Split(p + [sep] + t, sep) == [p] + Split(t, sep)
  {
    if |p| == 0 {
      assert p + [sep] + t == [sep] + t;
    } else {
      assert (p + [sep] + t)[1..] == p[1..] + [sep] + t;
      SplitFirstField(p[1..], sep, t);
      assert [p[0]] + p[1..] == p;
    }
  }

  /** Splitting undoes joining, as long as no part contains the delimiter. */
  lemma {:induction false} SplitJoin(parts: seq<string>, sep: char)
    requires |parts| >= 1
    requires forall k :: 0 <= k < |parts| ==> sep !in parts[k]
    ensures Split(Join(parts, sep), sep) == parts
  {
    if |parts| == 1 {
      SplitNoDelimiter(parts[0], sep);
    } else {
      SplitFirstField(parts[0], sep, Join(parts[1..], sep));
      SplitJoin(parts[1..], sep);
    }
  }

  /** Joining undoes splitting, for every string. */
  lemma {:induction false} JoinSplit(s: string, sep: char)
    ensures Join(Split(s, sep), sep) == s
  {
    if |s| > 0 {
      var rest := Split(s[1..], sep);
      JoinSplit(s[1..], sep);
      if s[0] == sep {
        assert s == [sep] + s[1..];
      } else if |rest| == 1 {
        assert s == [s[0]] + s[1..];
      } else {
        assert Join(rest, sep) == rest[0] + [sep] + Join(rest[1..], sep);
        assert s == [s[0]] + s[1..];
      }
    }
  }

  /** A join of parts over an alphabet that holds the delimiter stays over that alphabet. */
  lemma {:induction false} JoinOver(parts: seq<string>, sep: char, alphabet: set<char>)
    requires sep in alphabet
    requires forall k :: 0 <= k < |parts| ==> Over(parts[k], alphabet)
    ensures Over(Join(parts, sep), alphabet)
  {
    if |parts| > 1 {
      JoinOver(parts[1..], sep, alphabet);
      var j := Join(parts, sep);
      assert j == parts[0] + [sep] + Join(parts[1..], sep);
      forall i | 0 <= i < |j|
        ensures j[i] in alphabet
      {
        if i < |parts[0]| {
          assert j[i] == parts[0][i];
        } else if i > |parts[0]| {
          assert j[i] == Join(parts[1..], sep)[i - |parts[0]| - 1];
        }
      }
    }
  }
}
