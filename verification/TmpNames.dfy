/** The temporary names of `src/files.rs`. */
module TmpNames {
  import Cut
  import opened Decimal

  function TmpName(file: string, pid: nat, sequence: nat): string {
    "." + file + ".tmp." + Digits(pid) + "." + Digits(sequence)
  }

  /** Beside one target, different writers mean different temporary names, and
      none of them is the target's own. */
  lemma TmpNamesAreApart(file: string, pid: nat, sequence: nat, otherPid: nat, otherSequence: nat)
    ensures TmpName(file, pid, sequence) != file
    ensures TmpName(file, pid, sequence) == TmpName(file, otherPid, otherSequence) <==> pid == otherPid && sequence == otherSequence
  {
    if TmpName(file, pid, sequence) == TmpName(file, otherPid, otherSequence) {
      var head := "." + file + ".tmp.";
      Cut.AtLast(head + Digits(pid), Digits(sequence), head + Digits(otherPid), Digits(otherSequence), '.');
      assert Digits(pid) == (head + Digits(pid))[|head|..];
      assert Digits(otherPid) == (head + Digits(otherPid))[|head|..];
      ValueOfDigits(pid);
      ValueOfDigits(otherPid);
      ValueOfDigits(sequence);
      ValueOfDigits(otherSequence);
    }
  }
}
