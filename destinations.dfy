/**
 * The destination list of one source folder, read from its `extra-copies`
 * file: one destination mailbox name per line, empty lines skipped, file
 * order kept.
 */
module Destinations {
  import opened Sequences

  /**
   * The destination list a file with these lines yields. A line is kept
   * exactly as read (no trimming) unless it is empty.
   */
  function NonEmptyLines(lines: seq<string>): (r: seq<string>)
    ensures forall d :: d in r ==> d != "" && d in lines
    ensures |r| <= |lines|
  {
    if lines == [] then []
    else (if lines[0] != "" then [lines[0]] else []) + NonEmptyLines(lines[1..])
  }

  /** The list of a file is the list of its first part followed by that of its rest. */
  lemma {:induction false} NonEmptyLinesConcat(a: seq<string>, b: seq<string>)
    ensures NonEmptyLines(a + b) == NonEmptyLines(a) + NonEmptyLines(b)
  {
    if a == [] {
      assert a + b == b;
    } else {
      assert (a + b)[1..] == a[1..] + b;
      NonEmptyLinesConcat(a[1..], b);
      var head := if a[0] != "" then [a[0]] else [];
      AppendAssoc(head, NonEmptyLines(a[1..]), NonEmptyLines(b));
    }
  }

  /**
   * Every non-empty line occurs in the list as often as in the file
   * (duplicates are kept), and the empty line never does.
   */
  lemma {:induction false} NonEmptyLinesOccurrences(lines: seq<string>, d: string)
    ensures multiset(NonEmptyLines(lines))[d] == if d == "" then 0 else multiset(lines)[d]
  {
    if lines != [] {
      assert lines == [lines[0]] + lines[1..];
      NonEmptyLinesOccurrences(lines[1..], d);
    }
  }

  /** A file without empty lines yields exactly its lines, in order. */
  lemma {:induction false} NonEmptyLinesKeepsAll(lines: seq<string>)
    requires forall i :: 0 <= i < |lines| ==> lines[i] != ""
    ensures NonEmptyLines(lines) == lines
  {
    if lines != [] {
      NonEmptyLinesKeepsAll(lines[1..]);
    }
  }

  /**
   * The reading loop: each line the stream returns is appended at the tail of
   * the list unless its first character is the terminator, i.e. it is empty.
   */
  method ReadDestinations(lines: seq<string>) returns (dest: seq<string>)
    ensures dest == NonEmptyLines(lines)
  {
    dest := [];
    var i := 0;
    while i < |lines|
      invariant 0 <= i <= |lines|
      invariant dest == NonEmptyLines(lines[..i])
    {
      var line := lines[i];
      if |line| > 0 {
        dest := dest + [line];
      }
      assert lines[..i + 1] == lines[..i] + [line];
      NonEmptyLinesConcat(lines[..i], [line]);
      i := i + 1;
    }
    assert lines[..i] == lines;
  }
}
