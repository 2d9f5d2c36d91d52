/** Go's `strings.Split` with a one-character separator, its inverse
    `strings.Join`, and the line splitting `bufio.ScanLines` performs. */
module Strings {

  /** `strings.Split(s, string(sep))`: the pieces of `s` between separators.
      There is always at least one piece (the empty string splits into `[""]`). */
  function Split(s: string, sep: char): (parts: seq<string>)
    ensures |parts| >= 1
    ensures forall i :: 0 <= i < |parts| ==> sep !in parts[i]
  {
    if |s| == 0 then [""]
    else
      var rest := Split(s[1..], sep);
      if s[0] == sep then [""] + rest
      else [[s[0]] + rest[0]] + rest[1..]
  }

  /** `strings.Join(parts, string(sep))`. */
  function Join(parts: seq<string>, sep: char): string
    requires |parts| >= 1
  {
    if |parts| == 1 then parts[0] else parts[0] + [sep] + Join(parts[1..], sep)
  }

  /** Splitting and joining again gives back the original string. */
  lemma {:induction false} JoinSplit(s: string, sep: char)
    ensures Join(Split(s, sep), sep) == s
  {
    if |s| > 0 {
      var rest := Split(s[1..], sep);
      JoinSplit(s[1..], sep);
      if s[0] != sep {
        var parts := Split(s, sep);
        assert parts[1..] == rest[1..];
        if |rest| > 1 {
          assert Join(rest, sep) == rest[0] + [sep] + Join(rest[1..], sep);
        }
      }
    }
  }

  /** A separator-free prefix glues onto the first piece of what follows. */
  lemma {:induction false} SplitPrefix(a: string, t: string, sep: char)
    requires sep !in a
    ensures Split(a + t, sep) == [a + Split(t, sep)[0]] + Split(t, sep)[1..]
  {
    if |a| > 0 {
      assert (a + t)[1..] == a[1..] + t;
      assert (a + t)[0] == a[0];
      SplitPrefix(a[1..], t, sep);
      assert [a[0]] + (a[1..] + Split(t, sep)[0]) == a + Split(t, sep)[0];
    } else {
      var parts := Split(t, sep);
      assert a + t == t;
      assert a + parts[0] == parts[0];
      assert parts == [parts[0]] + parts[1..];
    }
  }

  /** Joining separator-free pieces and splitting again gives back the pieces. */
  lemma {:induction false} SplitJoin(parts: seq<string>, sep: char)
    requires |parts| >= 1
    requires forall i :: 0 <= i < |parts| ==> sep !in parts[i]
    ensures Split(Join(parts, sep), sep) == parts
  {
    if |parts| == 1 {
      SplitPrefix(parts[0], "", sep);
      assert parts[0] + "" == parts[0];
    } else {
      var tail := Join(parts[1..], sep);
      SplitJoin(parts[1..], sep);
      assert ([sep] + tail)[1..] == tail;
      assert Split([sep] + tail, sep) == [""] + parts[1..];
      assert Join(parts, sep) == parts[0] + ([sep] + tail);
      SplitPrefix(parts[0], [sep] + tail, sep);
      assert parts[0] + "" == parts[0];
    }
  }

  /** A line with its trailing carriage return, if any, removed. */
  function DropCR(line: string): string
  {
    if |line| > 0 && line[|line| - 1] == '\r' then line[..|line| - 1] else line
  }

  /** The tokens a `bufio.Scanner` with `ScanLines` yields on `data` when no
      line exceeds its buffer: one per newline-terminated line, plus a final
      unterminated line if it is non-empty, each without a trailing `\r`. */
  function ScanLines(data: string): (lines: seq<string>)
    ensures forall i :: 0 <= i < |lines| ==> '\n' !in lines[i]
  {
    var parts := Split(data, '\n');
    var pieces := if parts[|parts| - 1] == "" then parts[..|parts| - 1] else parts;
    seq(|pieces|, i requires 0 <= i < |pieces| => DropCR(pieces[i]))
  }

  /** Newline-terminated lines without carriage returns scan back to
      themselves. */
  lemma {:induction false} ScanTerminatedLines(lines: seq<string>)
    requires forall i :: 0 <= i < |lines| ==> '\n' !in lines[i] && '\r' !in lines[i]
    ensures ScanLines(Join(lines + [""], '\n')) == lines
  {
    var pieces := lines + [""];
    forall i | 0 <= i < |pieces| ensures '\n' !in pieces[i] {
      if i < |lines| { assert pieces[i] == lines[i]; }
    }
    SplitJoin(pieces, '\n');
    assert Split(Join(pieces, '\n'), '\n') == pieces;
    assert pieces[|pieces| - 1] == "";
    assert pieces[..|pieces| - 1] == lines;
    var scanned := ScanLines(Join(pieces, '\n'));
    assert |scanned| == |lines|;
    forall i | 0 <= i < |lines| ensures scanned[i] == lines[i] {
      assert scanned[i] == DropCR(lines[i]);
      if |lines[i]| > 0 {
        assert lines[i][|lines[i]| - 1] in lines[i];
      }
    }
  }
}
