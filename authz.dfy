/** The allow-list check of the `authz` package: a user may use the daemon
    when the user file holds the user's name as one whole line. */
module Authz {
  import opened Results
  import opened Strings

  /** An error reported while opening or reading the user file. */
  datatype IoError = IoError(message: string)

  /** What opening and scanning the user file gives: either the open
      failed, or the scanner produced these lines and then stopped, at the
      end of the file or at a read error. */
  datatype UserFile =
    | OpenFailed(openErr: IoError)
    | Opened(lines: seq<string>, scanErr: Option<IoError>)

  /** `IsAllowed`: scans the lines in order and stops at the first one equal
      to `user`. `examined` counts the lines looked at. */
  method IsAllowed(user: string, file: UserFile) returns (allowed: bool, err: Option<IoError>, ghost examined: nat)
    ensures file.OpenFailed? ==> !allowed && err == Some(file.openErr)
    ensures file.Opened? ==> (allowed <==> user in file.lines)
    ensures file.Opened? && allowed ==> err.None?
    ensures file.Opened? && !allowed ==> err == file.scanErr
    ensures file.Opened? && allowed ==>
      examined < |file.lines| && file.lines[examined] == user && user !in file.lines[..examined]
  {
    if file.OpenFailed? {
      return false, Some(file.openErr), 0;
    }
    var lines := file.lines;
    var i := 0;
    while i < |lines|
      invariant 0 <= i <= |lines|
      invariant user !in lines[..i]
    {
      if lines[i] == user {
        return true, None, i;
      }
      assert lines[..i + 1] == lines[..i] + [lines[i]];
      i := i + 1;
    }
    assert lines[..i] == lines;
    return false, file.scanErr, i;
  }

  /** The user file a successful read of `data` gives. */
  function FileOf(data: string): UserFile
  {
    Opened(ScanLines(data), None)
  }

  /** The allow list `aaa`, `bbb`, one name per line, reads as those two
      names. */
  lemma TwoUserFileLines()
    ensures FileOf("aaa\nbbb\n").lines == ["aaa", "bbb"]
  {
    var names := ["aaa", "bbb"];
    assert Join(names + [""], '\n') == "aaa\nbbb\n" by {
      assert names + [""] == ["aaa", "bbb", ""];
      assert ["aaa", "bbb", ""][1..] == ["bbb", ""];
      assert ["bbb", ""][1..] == [""];
    }
    ScanTerminatedLines(names);
  }

  /** With that allow list, `aaa` is allowed and `ccc` is not, and neither
      is a prefix or an extension of a listed name. */
  lemma TwoUserFileAllows()
    ensures "aaa" in FileOf("aaa\nbbb\n").lines
    ensures "ccc" !in FileOf("aaa\nbbb\n").lines
    ensures "aa" !in FileOf("aaa\nbbb\n").lines && "aaab" !in FileOf("aaa\nbbb\n").lines
  {
    TwoUserFileLines();
    var lines := FileOf("aaa\nbbb\n").lines;
    assert lines == ["aaa", "bbb"];
  }
}
