/** Newline-delimited records in a byte stream. */
module ByteLines {

  type Byte = b: int | 0 <= b < 0x100

  const NEWLINE: Byte := 10

  /** Length of the first line, without its newline; the whole length when it is unfinished. */
  function LineLength(s: seq<Byte>): (k: nat)
    ensures k <= |s| && forall i :: 0 <= i < k ==> s[i] != NEWLINE
    ensures k < |s| ==> s[k] == NEWLINE
  {
    if s == [] || s[0] == NEWLINE then 0 else 1 + LineLength(s[1..])
  }

  /** The first line, when it is finished, and what follows it. */
  function FirstLine(s: seq<Byte>): seq<Byte>
    requires LineLength(s) < |s|
  {
    s[..LineLength(s)]
  }

  function AfterLine(s: seq<Byte>): (r: seq<Byte>)
    requires LineLength(s) < |s|
    ensures |r| == |s| - LineLength(s) - 1
  {
    s[LineLength(s) + 1..]
  }

  /** The finished lines, without their newlines. */
  function Complete(s: seq<Byte>): seq<seq<Byte>>
    decreases |s|
  {
    if LineLength(s) == |s| then [] else [FirstLine(s)] + Complete(AfterLine(s))
  }

  /** The bytes after the last newline. */
  function Unfinished(s: seq<Byte>): seq<Byte>
    decreases |s|
  {
    if LineLength(s) == |s| then s else Unfinished(AfterLine(s))
  }

  lemma LineLengthIs(s: seq<Byte>, k: nat)
    requires k <= |s| && (forall i :: 0 <= i < k ==> s[i] != NEWLINE) && (k < |s| ==> s[k] == NEWLINE)
    ensures LineLength(s) == k
  {
  }

  lemma FirstLineAppend(a: seq<Byte>, b: seq<Byte>)
    requires LineLength(a) < |a|
    ensures LineLength(a + b) == LineLength(a)
    ensures FirstLine(a + b) == FirstLine(a) && AfterLine(a + b) == AfterLine(a) + b
  {
    LineLengthIs(a + b, LineLength(a));
  }

  lemma Regroup(x: seq<seq<Byte>>, y: seq<seq<Byte>>, z: seq<seq<Byte>>)
    ensures x + (y + z) == (x + y) + z && [] + z == z
  {
  }

  /** Reading on from the unfinished line is reading the whole stream. */
  lemma {:induction false} CompleteAppend(a: seq<Byte>, b: seq<Byte>)
    ensures Complete(a + b) == Complete(a) + Complete(Unfinished(a) + b)
    ensures Unfinished(a + b) == Unfinished(Unfinished(a) + b)
    decreases |a|
  {
    var more := Complete(Unfinished(a) + b);
    if LineLength(a) < |a| {
      FirstLineAppend(a, b);
      CompleteAppend(AfterLine(a), b);
      Regroup([FirstLine(a)], Complete(AfterLine(a)), more);
    } else {
      Regroup([], [], more);
    }
  }

  lemma UnfinishedHasNoNewline(s: seq<Byte>)
    ensures LineLength(Unfinished(s)) == |Unfinished(s)| <= |s|
    decreases |s|
  {
    if LineLength(s) < |s| {
      UnfinishedHasNoNewline(AfterLine(s));
    }
  }

  /** The unfinished line is what the stream ends with; it starts the stream or follows a newline. */
  lemma UnfinishedIsSuffix(s: seq<Byte>) returns (before: seq<Byte>)
    ensures s == before + Unfinished(s)
    ensures before == [] || before[|before| - 1] == NEWLINE
    decreases |s|
  {
    if LineLength(s) == |s| {
      before := [];
    } else {
      var rest := UnfinishedIsSuffix(AfterLine(s));
      before := (FirstLine(s) + [NEWLINE]) + rest;
      SplitAtNewline(s);
      RegroupBytes(FirstLine(s) + [NEWLINE], rest, Unfinished(s));
    }
  }

  lemma SplitAtNewline(s: seq<Byte>)
    requires LineLength(s) < |s|
    ensures s == (FirstLine(s) + [NEWLINE]) + AfterLine(s)
  {
    SplitAt(s, LineLength(s));
  }

  lemma SplitAt(s: seq<Byte>, k: nat)
    requires k < |s|
    ensures s == (s[..k] + [s[k]]) + s[k + 1..]
  {
  }

  lemma RegroupBytes(x: seq<Byte>, y: seq<Byte>, z: seq<Byte>)
    ensures x + (y + z) == (x + y) + z
  {
  }

  lemma AppendKeepsSuffix(head: seq<Byte>, tail: seq<Byte>, file: seq<Byte>)
    requires |head + tail| <= |file| && file[..|head + tail|] == head + tail
    ensures file == (head + tail) + file[|head + tail|..]
    ensures file[|head|..] == tail + file[|head + tail|..]
  {
  }

  /** One more byte either ends the unfinished line or extends it. */
  lemma CompleteByte(s: seq<Byte>, b: Byte)
    ensures Complete(s + [b]) == if b == NEWLINE then Complete(s) + [Unfinished(s)] else Complete(s)
    ensures Unfinished(s + [b]) == if b == NEWLINE then [] else Unfinished(s) + [b]
  {
    CompleteAppend(s, [b]);
    UnfinishedHasNoNewline(s);
    if b == NEWLINE {
      EndsLine(Unfinished(s));
    } else {
      LineLengthIs(Unfinished(s) + [b], |Unfinished(s)| + 1);
    }
  }

  lemma EndsLine(line: seq<Byte>)
    requires LineLength(line) == |line|
    ensures Complete(line + [NEWLINE]) == [line] && Unfinished(line + [NEWLINE]) == []
  {
    var s := line + [NEWLINE];
    LineLengthIs(s, |line|);
    assert FirstLine(s) == line && AfterLine(s) == [];
    assert Complete(AfterLine(s)) == [];
  }
}
