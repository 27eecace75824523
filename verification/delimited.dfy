/**
 * Delimiter-joined lists of strings, as JavaScript's `String.prototype.split`
 * with a one-character separator and `Array.prototype.join` treat them.
 */
module Delimited {

  /**
   * `s.split(sep)`: the pieces between separators, so a leading or trailing
   * separator yields an empty first or last piece and `''` yields `['']`.
   */
  function Split(s: string, sep: char): (r: seq<string>)
    ensures |r| >= 1
    ensures forall i :: 0 <= i < |r| ==> sep !in r[i]
    ensures sep !in s ==> r == [s]
  {
    if |s| == 0 then [""]
    else
      var rest := Split(s[1..], sep);
      if s[0] == sep then [""] + rest
      else
        assert [s[0]] + s[1..] == s;
        [[s[0]] + rest[0]] + rest[1..]
  }

  /** `parts.join(sep)`: no separator before the first piece or after the last. */
  function Join(parts: seq<string>, sep: char): string {
    if |parts| == 0 then ""
    else if |parts| == 1 then parts[0]
    else parts[0] + [sep] + Join(parts[1..], sep)
  }

  /** The list without its leading empty strings. */
  function DropLeadingEmpty(parts: seq<string>): (r: seq<string>)
    ensures |r| > 0 ==> r[0] != ""
  {
    if |parts| == 0 then []
    else if parts[0] == "" then DropLeadingEmpty(parts[1..])
    else parts
  }

  /** Splitting text that starts with a separator-free piece and a separator. */
  lemma {:induction false} SplitAfterPiece(a: string, sep: char, rest: string)
    requires sep !in a
    ensures Split(a + [sep] + rest, sep) == [a] + Split(rest, sep)
    decreases |a|
  {
    var s := a + [sep] + rest;
    if |a| == 0 {
      assert s[0] == sep && s[1..] == rest;
    } else {
      assert s[0] == a[0] && s[1..] == a[1..] + [sep] + rest;
      SplitAfterPiece(a[1..], sep, rest);
      assert [a[0]] + a[1..] == a;
    }
  }

  /** Splitting a joined list gives the list back when no piece holds the separator. */
  lemma {:induction false} SplitJoin(parts: seq<string>, sep: char)
    requires |parts| >= 1
    requires forall i :: 0 <= i < |parts| ==> sep !in parts[i]
    ensures Split(Join(parts, sep), sep) == parts
    decreases |parts|
  {
    if |parts| > 1 {
      SplitJoin(parts[1..], sep);
      SplitAfterPiece(parts[0], sep, Join(parts[1..], sep));
      assert [parts[0]] + parts[1..] == parts;
    }
  }

  /** Joining the pieces of a split gives the text back. */
  lemma {:induction false} JoinSplit(s: string, sep: char)
    ensures Join(Split(s, sep), sep) == s
    decreases |s|
  {
    if |s| > 0 {
      var rest := Split(s[1..], sep);
      JoinSplit(s[1..], sep);
      if s[0] == sep {
        assert ([""] + rest)[1..] == rest;
        assert [s[0]] + s[1..] == s;
      } else if |rest| == 1 {
        assert [s[0]] + s[1..] == s;
      } else {
        var r := [[s[0]] + rest[0]] + rest[1..];
        assert r[1..] == rest[1..];
        assert Join(rest, sep) == rest[0] + [sep] + Join(rest[1..], sep);
        assert [s[0]] + s[1..] == s;
      }
    }
  }

  /** Appending a piece to a non-empty list appends a separator and the piece. */
  lemma {:induction false} JoinSnoc(parts: seq<string>, last: string, sep: char)
    requires |parts| >= 1
    ensures Join(parts + [last], sep) == Join(parts, sep) + [sep] + last
    decreases |parts|
  {
    if |parts| > 1 {
      assert (parts + [last])[1..] == parts[1..] + [last];
      JoinSnoc(parts[1..], last, sep);
    }
  }

  /** A joined list is at least as long as its first piece. */
  lemma JoinStartsWithFirst(parts: seq<string>, sep: char)
    requires |parts| >= 1
    ensures |Join(parts, sep)| >= |parts[0]|
  {
  }

  /** How appending one piece changes the list without leading empties. */
  lemma {:induction false} DropLeadingEmptySnoc(parts: seq<string>, last: string)
    ensures DropLeadingEmpty(parts) == [] ==>
      DropLeadingEmpty(parts + [last]) == (if last == "" then [] else [last])
    ensures DropLeadingEmpty(parts) != [] ==>
      DropLeadingEmpty(parts + [last]) == DropLeadingEmpty(parts) + [last]
    decreases |parts|
  {
    if |parts| == 0 {
      assert parts + [last] == [last];
    } else {
      assert (parts + [last])[0] == parts[0];
      assert (parts + [last])[1..] == parts[1..] + [last];
      if parts[0] == "" {
        DropLeadingEmptySnoc(parts[1..], last);
      }
    }
  }

  /** With no empty first piece there is nothing to drop. */
  lemma DropLeadingEmptyKeeps(parts: seq<string>)
    requires |parts| >= 1 && parts[0] != ""
    ensures DropLeadingEmpty(parts) == parts
  {
  }
}
