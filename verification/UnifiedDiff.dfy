/** The single-hunk diff of an ACP before/after pair (crates/agent/src/acp_session.rs, `unified_diff`). */
module UnifiedDiff {
  import opened Text

  datatype Mark = Keep | Drop | Add

  datatype HunkLine = HunkLine(mark: Mark, line: string)

  /** How many leading lines agree: `zip` and `take_while` from the front. */
  function CommonPrefix(a: seq<string>, b: seq<string>): nat {
    if a != [] && b != [] && a[0] == b[0] then 1 + CommonPrefix(a[1..], b[1..]) else 0
  }

  /** How many trailing lines agree, counted from the back regardless of the prefix. */
  function CommonSuffix(a: seq<string>, b: seq<string>): nat {
    if a != [] && b != [] && a[|a| - 1] == b[|b| - 1] then 1 + CommonSuffix(a[..|a| - 1], b[..|b| - 1]) else 0
  }

  function Min(a: int, b: int): int {
    if a <= b then a else b
  }

  /** The trailing lines kept: the common suffix, less what the prefix already used. */
  function KeptSuffix(before: seq<string>, after: seq<string>): (s: nat)
    ensures CommonPrefix(before, after) + s <= |before| && CommonPrefix(before, after) + s <= |after|
  {
    PrefixAgrees(before, after);
    var prefix := CommonPrefix(before, after);
    Min(Min(CommonSuffix(before, after), |before| - prefix), |after| - prefix)
  }

  function Marked(mark: Mark, lines: seq<string>): seq<HunkLine> {
    if lines == [] then [] else [HunkLine(mark, lines[0])] + Marked(mark, lines[1..])
  }

  function Parts(head: seq<string>, dropped: seq<string>, added: seq<string>, tail: seq<string>): seq<HunkLine> {
    Marked(Keep, head) + (Marked(Drop, dropped) + (Marked(Add, added) + Marked(Keep, tail)))
  }

  function Hunk(before: seq<string>, after: seq<string>): seq<HunkLine> {
    var prefix, suffix := CommonPrefix(before, after), KeptSuffix(before, after);
    Parts(before[..prefix], before[prefix..|before| - suffix],
          after[prefix..|after| - suffix], before[|before| - suffix..])
  }

  function MarkChar(mark: Mark): char {
    match mark
    case Keep => ' '
    case Drop => '-'
    case Add => '+'
  }

  function Shown(h: HunkLine): string {
    [MarkChar(h.mark)] + h.line
  }

  function ShownAll(hunk: seq<HunkLine>): seq<string> {
    if hunk == [] then [] else [Shown(hunk[0])] + ShownAll(hunk[1..])
  }

  function Body(hunk: seq<HunkLine>): string {
    Joined(ShownAll(hunk))
  }

  function FileHeader(path: string, before: seq<string>, after: seq<string>): string {
    (if before == [] then "--- /dev/null\n" else "--- a/" + path + "\n")
    + (if after == [] then "+++ /dev/null\n" else "+++ b/" + path + "\n")
  }

  /** A range of the hunk header: the first line's number (0 for no lines) and the line count. */
  function Range(lines: seq<string>): string {
    Decimal(if lines == [] then 0 else 1) + "," + Decimal(|lines|)
  }

  function Header(path: string, before: seq<string>, after: seq<string>): string {
    FileHeader(path, before, after) + "@@ -" + Range(before) + " +" + Range(after) + " @@\n"
  }

  // ---------------------------------------------------------------- reading a diff

  /** The lines left when those with one mark are dropped from a hunk. */
  function Without(mark: Mark, hunk: seq<HunkLine>): seq<string> {
    if hunk == [] then []
    else if hunk[0].mark == mark then Without(mark, hunk[1..])
    else [hunk[0].line] + Without(mark, hunk[1..])
  }

  function Kept(hunk: seq<HunkLine>): nat {
    if hunk == [] then 0 else (if hunk[0].mark == Keep then 1 else 0) + Kept(hunk[1..])
  }

  /** A body line from its text; `None` for a text without one of the three marks. */
  function ReadLine(text: string): Option<HunkLine> {
    if text == [] then None
    else if text[0] == ' ' then Some(HunkLine(Keep, text[1..]))
    else if text[0] == '-' then Some(HunkLine(Drop, text[1..]))
    else if text[0] == '+' then Some(HunkLine(Add, text[1..]))
    else None
  }

  function ReadLines(texts: seq<string>): Option<seq<HunkLine>> {
    if texts == [] then Some([])
    else
      var first, rest := ReadLine(texts[0]), ReadLines(texts[1..]);
      if first.Some? && rest.Some? then Some([first.value] + rest.value) else None
  }

  /** Patch: consume the old lines the hunk names, refusing a mismatch. */
  function Apply(lines: seq<string>, hunk: seq<HunkLine>): Option<seq<string>> {
    if hunk == [] then (if lines == [] then Some([]) else None)
    else if hunk[0].mark == Add then
      var rest := Apply(lines, hunk[1..]);
      if rest.Some? then Some([hunk[0].line] + rest.value) else None
    else if lines == [] || lines[0] != hunk[0].line then None
    else
      var rest := Apply(lines[1..], hunk[1..]);
      if rest.None? then None
      else if hunk[0].mark == Keep then Some([hunk[0].line] + rest.value)
      else rest
  }

  function Flip(mark: Mark): Mark {
    match mark
    case Keep => Keep
    case Drop => Add
    case Add => Drop
  }

  function Reversed(hunk: seq<HunkLine>): seq<HunkLine> {
    if hunk == [] then [] else [HunkLine(Flip(hunk[0].mark), hunk[0].line)] + Reversed(hunk[1..])
  }

  // ---------------------------------------------------------------- the writer

  method WriteLines(start: string, mark: Mark, lines: seq<string>) returns (out: string)
    ensures out == start + Body(Marked(mark, lines))
  {
    out := start;
    assert lines[..0] == [];
    for i := 0 to |lines|
      invariant out == start + Body(Marked(mark, lines[..i]))
    {
      BodyOfMarkedSnoc(mark, lines[..i], lines[i]);
      assert lines[..i + 1] == lines[..i] + [lines[i]];
      out := out + Shown(HunkLine(mark, lines[i])) + "\n";
    }
    assert lines[..|lines|] == lines;
  }

  method WriteUnifiedDiff(path: string, beforeText: string, afterText: string) returns (out: string)
    ensures var before, after := Lines(beforeText), Lines(afterText);
      out == Header(path, before, after) + Body(Hunk(before, after))
  {
    var before, after := Lines(beforeText), Lines(afterText);
    out := WriteHunk(Header(path, before, after), before, after);
  }

  method WriteHunk(header: string, before: seq<string>, after: seq<string>) returns (out: string)
    ensures out == header + Body(Hunk(before, after))
  {
    var prefix, suffix := CommonPrefix(before, after), KeptSuffix(before, after);
    out := WriteParts(header, before[..prefix], before[prefix..|before| - suffix],
                      after[prefix..|after| - suffix], before[|before| - suffix..]);
  }

  method WriteParts(header: string, head: seq<string>, dropped: seq<string>, added: seq<string>, tail: seq<string>)
    returns (out: string)
    ensures out == header + Body(Parts(head, dropped, added, tail))
  {
    out := WriteLines(header, Keep, head);
    out := WriteLines(out, Drop, dropped);
    out := WriteLines(out, Add, added);
    out := WriteLines(out, Keep, tail);
    BodyOfParts(head, dropped, added, tail);
    Regroup(header, Body(Marked(Keep, head)), Body(Marked(Drop, dropped)), Body(Marked(Add, added)), Body(Marked(Keep, tail)));
  }

  // ---------------------------------------------------------------- lemmas

  lemma {:induction false} PrefixAgrees(a: seq<string>, b: seq<string>)
    ensures var n := CommonPrefix(a, b);
      n <= |a| && n <= |b| && a[..n] == b[..n]
  {
    if a != [] && b != [] && a[0] == b[0] {
      PrefixAgrees(a[1..], b[1..]);
      var n := CommonPrefix(a[1..], b[1..]);
      assert a[..n + 1] == [a[0]] + a[1..][..n];
      assert b[..n + 1] == [b[0]] + b[1..][..n];
    }
  }

  lemma SuffixSlice(a: seq<string>, n: nat)
    requires n < |a|
    ensures a[|a| - (n + 1)..] == a[..|a| - 1][|a| - 1 - n..] + [a[|a| - 1]]
  {
  }

  lemma {:induction false} SuffixAgrees(a: seq<string>, b: seq<string>)
    ensures CommonSuffix(a, b) <= |a| && CommonSuffix(a, b) <= |b|
    ensures a[|a| - CommonSuffix(a, b)..] == b[|b| - CommonSuffix(a, b)..]
  {
    if a != [] && b != [] && a[|a| - 1] == b[|b| - 1] {
      SuffixAgrees(a[..|a| - 1], b[..|b| - 1]);
      var n := CommonSuffix(a[..|a| - 1], b[..|b| - 1]);
      assert CommonSuffix(a, b) == n + 1;
      SuffixSlice(a, n);
      SuffixSlice(b, n);
    }
  }

  lemma {:induction false} ShownAllAppend(a: seq<HunkLine>, b: seq<HunkLine>)
    ensures ShownAll(a + b) == ShownAll(a) + ShownAll(b)
  {
    if a == [] {
      assert a + b == b;
    } else {
      assert (a + b)[1..] == a[1..] + b;
      ShownAllAppend(a[1..], b);
    }
  }

  lemma BodyAppend(a: seq<HunkLine>, b: seq<HunkLine>)
    ensures Body(a + b) == Body(a) + Body(b)
  {
    ShownAllAppend(a, b);
    JoinedAppend(ShownAll(a), ShownAll(b));
  }

  lemma BodyOfParts(head: seq<string>, dropped: seq<string>, added: seq<string>, tail: seq<string>)
    ensures Body(Parts(head, dropped, added, tail))
         == Body(Marked(Keep, head)) + (Body(Marked(Drop, dropped)) + (Body(Marked(Add, added)) + Body(Marked(Keep, tail))))
  {
    BodyAppend(Marked(Add, added), Marked(Keep, tail));
    BodyAppend(Marked(Drop, dropped), Marked(Add, added) + Marked(Keep, tail));
    BodyAppend(Marked(Keep, head), Marked(Drop, dropped) + (Marked(Add, added) + Marked(Keep, tail)));
  }

  lemma Regroup(h: string, a: string, b: string, c: string, d: string)
    ensures h + (a + (b + (c + d))) == (((h + a) + b) + c) + d
  {
  }

  lemma {:induction false} MarkedAppend(mark: Mark, a: seq<string>, b: seq<string>)
    ensures Marked(mark, a + b) == Marked(mark, a) + Marked(mark, b)
  {
    if a == [] {
      assert a + b == b;
    } else {
      assert (a + b)[1..] == a[1..] + b;
      MarkedAppend(mark, a[1..], b);
    }
  }

  lemma BodyOfMarkedSnoc(mark: Mark, lines: seq<string>, last: string)
    ensures Body(Marked(mark, lines + [last])) == Body(Marked(mark, lines)) + Shown(HunkLine(mark, last)) + "\n"
  {
    MarkedAppend(mark, lines, [last]);
    BodyAppend(Marked(mark, lines), Marked(mark, [last]));
    assert Marked(mark, [last]) == [HunkLine(mark, last)];
    var only := [Shown(HunkLine(mark, last))];
    assert ShownAll([HunkLine(mark, last)]) == only;
    assert Joined(only) == only[0] + "\n" + Joined(only[1..]);
  }

  lemma {:induction false} WithoutAppend(mark: Mark, a: seq<HunkLine>, b: seq<HunkLine>)
    ensures Without(mark, a + b) == Without(mark, a) + Without(mark, b)
  {
    if a == [] {
      assert a + b == b;
    } else {
      assert (a + b)[1..] == a[1..] + b;
      WithoutAppend(mark, a[1..], b);
    }
  }

  lemma {:induction false} KeptAppend(a: seq<HunkLine>, b: seq<HunkLine>)
    ensures Kept(a + b) == Kept(a) + Kept(b)
  {
    if a == [] {
      assert a + b == b;
    } else {
      assert (a + b)[1..] == a[1..] + b;
      KeptAppend(a[1..], b);
    }
  }

  lemma {:induction false} WithoutMarked(omit: Mark, mark: Mark, lines: seq<string>)
    ensures Without(omit, Marked(mark, lines)) == if omit == mark then [] else lines
    ensures Kept(Marked(mark, lines)) == if mark == Keep then |lines| else 0
  {
    if lines != [] {
      WithoutMarked(omit, mark, lines[1..]);
      assert Marked(mark, lines)[1..] == Marked(mark, lines[1..]);
    }
  }

  lemma WithoutFour(omit: Mark, a: seq<HunkLine>, b: seq<HunkLine>, c: seq<HunkLine>, d: seq<HunkLine>)
    ensures Without(omit, a + (b + (c + d)))
         == Without(omit, a) + (Without(omit, b) + (Without(omit, c) + Without(omit, d)))
    ensures Kept(a + (b + (c + d))) == Kept(a) + Kept(b) + Kept(c) + Kept(d)
  {
    WithoutAppend(omit, c, d);
    WithoutAppend(omit, b, c + d);
    WithoutAppend(omit, a, b + (c + d));
    KeptAppend(c, d);
    KeptAppend(b, c + d);
    KeptAppend(a, b + (c + d));
  }

  lemma Flatten(a: seq<string>, b: seq<string>, d: seq<string>)
    ensures a + ([] + (b + d)) == a + b + d
    ensures a + (b + ([] + d)) == a + b + d
  {
  }

  lemma WithoutParts(omit: Mark, head: seq<string>, dropped: seq<string>, added: seq<string>, tail: seq<string>)
    requires omit != Keep
    ensures Without(omit, Parts(head, dropped, added, tail))
         == head + (if omit == Drop then added else dropped) + tail
    ensures Kept(Parts(head, dropped, added, tail)) == |head| + |tail|
  {
    WithoutFour(omit, Marked(Keep, head), Marked(Drop, dropped), Marked(Add, added), Marked(Keep, tail));
    WithoutMarked(omit, Keep, head);
    WithoutMarked(omit, Drop, dropped);
    WithoutMarked(omit, Add, added);
    WithoutMarked(omit, Keep, tail);
    Flatten(head, if omit == Drop then added else dropped, tail);
  }

  /** A single contiguous replacement that keeps p leading and s trailing lines. */
  ghost predicate Replacement(before: seq<string>, after: seq<string>, p: nat, s: nat) {
    && p + s <= |before| && p + s <= |after|
    && before[..p] == after[..p]
    && before[|before| - s..] == after[|after| - s..]
  }

  lemma ShorterSuffix(a: seq<string>, b: seq<string>, n: nat, k: nat)
    requires k <= n <= |a| && n <= |b| && a[|a| - n..] == b[|b| - n..]
    ensures a[|a| - k..] == b[|b| - k..]
  {
    assert a[|a| - k..] == a[|a| - n..][n - k..];
    assert b[|b| - k..] == b[|b| - n..][n - k..];
  }

  lemma TrimIsReplacement(before: seq<string>, after: seq<string>)
    ensures Replacement(before, after, CommonPrefix(before, after), KeptSuffix(before, after))
  {
    PrefixAgrees(before, after);
    SuffixAgrees(before, after);
    ShorterSuffix(before, after, CommonSuffix(before, after), KeptSuffix(before, after));
  }

  lemma Reassemble(lines: seq<string>, p: nat, s: nat)
    requires p + s <= |lines|
    ensures lines[..p] + lines[p..|lines| - s] + lines[|lines| - s..] == lines
  {
  }

  /**
   * Dropping the '+' lines leaves the old file and dropping the '-' lines leaves the new one;
   * the lines kept are exactly the trimmed prefix and suffix.
   */
  lemma HunkHasBothSides(before: seq<string>, after: seq<string>)
    ensures Without(Add, Hunk(before, after)) == before
    ensures Without(Drop, Hunk(before, after)) == after
    ensures Kept(Hunk(before, after)) == CommonPrefix(before, after) + KeptSuffix(before, after)
  {
    var p, s := CommonPrefix(before, after), KeptSuffix(before, after);
    TrimIsReplacement(before, after);
    Reassemble(before, p, s);
    Reassemble(after, p, s);
    WithoutParts(Add, before[..p], before[p..|before| - s], after[p..|after| - s], before[|before| - s..]);
    WithoutParts(Drop, before[..p], before[p..|before| - s], after[p..|after| - s], before[|before| - s..]);
  }

  lemma {:induction false} AgreeingPrefixIsCommon(a: seq<string>, b: seq<string>, p: nat)
    requires p <= |a| && p <= |b| && a[..p] == b[..p]
    ensures p <= CommonPrefix(a, b)
  {
    if p > 0 {
      assert a[0] == a[..p][0] && b[0] == b[..p][0];
      assert a[1..][..p - 1] == a[..p][1..] && b[1..][..p - 1] == b[..p][1..];
      AgreeingPrefixIsCommon(a[1..], b[1..], p - 1);
    }
  }

  lemma {:induction false} AgreeingSuffixIsCommon(a: seq<string>, b: seq<string>, s: nat)
    requires s <= |a| && s <= |b| && a[|a| - s..] == b[|b| - s..]
    ensures s <= CommonSuffix(a, b)
  {
    if s > 0 {
      var a', b' := a[..|a| - 1], b[..|b| - 1];
      assert a[|a| - 1] == a[|a| - s..][s - 1] && b[|b| - 1] == b[|b| - s..][s - 1];
      assert a'[|a'| - (s - 1)..] == a[|a| - s..][..s - 1] && b'[|b'| - (s - 1)..] == b[|b| - s..][..s - 1];
      AgreeingSuffixIsCommon(a', b', s - 1);
    }
  }

  /** The greedy trim is optimal: no contiguous replacement keeps more lines. */
  lemma TrimIsOptimal(before: seq<string>, after: seq<string>, p: nat, s: nat)
    requires Replacement(before, after, p, s)
    ensures Replacement(before, after, CommonPrefix(before, after), KeptSuffix(before, after))
    ensures p + s <= Kept(Hunk(before, after))
  {
    TrimIsReplacement(before, after);
    AgreeingPrefixIsCommon(before, after, p);
    AgreeingSuffixIsCommon(before, after, s);
    HunkHasBothSides(before, after);
  }

  lemma {:induction false} ApplySides(hunk: seq<HunkLine>)
    ensures Apply(Without(Add, hunk), hunk) == Some(Without(Drop, hunk))
  {
    if hunk != [] {
      ApplySides(hunk[1..]);
      if hunk[0].mark != Add {
        assert Without(Add, hunk)[1..] == Without(Add, hunk[1..]);
      }
    }
  }

  lemma {:induction false} ReversedSides(hunk: seq<HunkLine>)
    ensures Without(Add, Reversed(hunk)) == Without(Drop, hunk)
    ensures Without(Drop, Reversed(hunk)) == Without(Add, hunk)
  {
    if hunk != [] {
      ReversedSides(hunk[1..]);
      assert Reversed(hunk)[1..] == Reversed(hunk[1..]);
    }
  }

  /** The hunk is a patch: applied it turns old into new, reversed it turns new into old. */
  lemma HunkIsPatch(before: seq<string>, after: seq<string>)
    ensures Apply(before, Hunk(before, after)) == Some(after)
    ensures Apply(after, Reversed(Hunk(before, after))) == Some(before)
  {
    HunkHasBothSides(before, after);
    ApplySides(Hunk(before, after));
    ReversedSides(Hunk(before, after));
    ApplySides(Reversed(Hunk(before, after)));
  }

  lemma {:induction false} ReadShown(hunk: seq<HunkLine>)
    ensures ReadLines(ShownAll(hunk)) == Some(hunk)
  {
    if hunk != [] {
      ReadShown(hunk[1..]);
      ReadOne(hunk[0]);
      assert ShownAll(hunk)[0] == Shown(hunk[0]) && ShownAll(hunk)[1..] == ShownAll(hunk[1..]);
      assert hunk == [hunk[0]] + hunk[1..];
    }
  }

  lemma ReadOne(h: HunkLine)
    ensures ReadLine(Shown(h)) == Some(h)
  {
    assert Shown(h)[1..] == h.line;
  }

  lemma LineSafeParts(a: seq<string>, b: seq<string>)
    ensures LineSafe(a + b) <==> LineSafe(a) && LineSafe(b)
  {
    if LineSafe(a + b) {
      assert forall i :: 0 <= i < |a| ==> a[i] == (a + b)[i];
      assert forall i :: 0 <= i < |b| ==> b[i] == (a + b)[|a| + i];
    }
  }

  lemma {:induction false} SidesAreSafe(hunk: seq<HunkLine>)
    requires LineSafe(Without(Add, hunk)) && LineSafe(Without(Drop, hunk))
    ensures LineSafe(ShownAll(hunk))
  {
    if hunk != [] {
      var line := hunk[0].line;
      LineSafeParts([line], Without(Add, hunk[1..]));
      LineSafeParts([line], Without(Drop, hunk[1..]));
      SidesAreSafe(hunk[1..]);
      assert LineSafe([line]) ==> NoNewline([line][0]);
      LineSafeParts([Shown(hunk[0])], ShownAll(hunk[1..]));
    }
  }

  /**
   * The diff's text reads back to the hunk, whose sides are the two files' lines, and its
   * header carries exactly those sides' counts.
   */
  lemma DiffTextReadsBack(path: string, beforeText: string, afterText: string)
    ensures var before, after := Lines(beforeText), Lines(afterText);
      var hunk := Hunk(before, after);
      && ReadLines(Terminated(Body(hunk))) == Some(hunk)
      && Header(path, before, after)
         == FileHeader(path, before, after)
            + "@@ -" + Range(Without(Add, hunk)) + " +" + Range(Without(Drop, hunk)) + " @@\n"
  {
    var before, after := Lines(beforeText), Lines(afterText);
    var hunk := Hunk(before, after);
    HunkHasBothSides(before, after);
    SidesAreSafe(hunk);
    TerminatedJoined(ShownAll(hunk));
    ReadShown(hunk);
  }

  // ---------------------------------------------------------------- reading the header

  /** What stands before the first occurrence of a character, and what stands behind it. */
  function Before(s: string, c: char): string {
    if s == [] || s[0] == c then [] else [s[0]] + Before(s[1..], c)
  }

  function Behind(s: string, c: char): string {
    if s == [] then [] else if s[0] == c then s[1..] else Behind(s[1..], c)
  }

  lemma {:induction false} SplitAtChar(head: string, c: char, tail: string)
    requires c !in head
    ensures Before(head + [c] + tail, c) == head && Behind(head + [c] + tail, c) == tail
  {
    var s := head + [c] + tail;
    if head != [] {
      assert s[1..] == head[1..] + [c] + tail;
      SplitAtChar(head[1..], c, tail);
    } else {
      assert s[1..] == tail;
    }
  }

  /** A file's path in its header line; `None` for no file. */
  function ReadSide(line: string, nothing: string, prefix: string): Option<string> {
    if line == nothing || !StartsWith(line, prefix) then None else Some(line[|prefix|..])
  }

  /** The first line's number and the line count of a range. */
  datatype Lined = Lined(first: nat, count: nat)

  function ReadNumber(s: string): nat {
    if AllDigits(s) then DigitsValue(s) else 0
  }

  function ReadRange(s: string): Lined {
    Lined(ReadNumber(Before(s, ',')), ReadNumber(Behind(s, ',')))
  }

  /** The two ranges of a line `@@ -a,b +c,d @@`. */
  function ReadOldRange(line: string): Lined {
    ReadRange(Before(Behind(line, '-'), ' '))
  }

  function ReadNewRange(line: string): Lined {
    ReadRange(Before(Behind(line, '+'), ' '))
  }

  lemma DecimalPlain(n: nat, c: char)
    requires !IsDigit(c)
    ensures c !in Decimal(n) && ReadNumber(Decimal(n)) == n
  {
    DecimalValue(n);
    assert forall i :: 0 <= i < |Decimal(n)| ==> IsDigit(Decimal(n)[i]);
  }

  lemma RangeReadsBack(lines: seq<string>)
    ensures ReadRange(Range(lines)) == Lined(if |lines| > 0 then 1 else 0, |lines|)
    ensures ' ' !in Range(lines) && '+' !in Range(lines)
  {
    var first, count := Decimal(if lines == [] then 0 else 1), Decimal(|lines|);
    forall c | c == ',' || c == ' ' || c == '+' ensures c !in first && c !in count {
      DecimalPlain(if lines == [] then 0 else 1, c);
      DecimalPlain(|lines|, c);
    }
    assert Range(lines) == first + [','] + count;
    SplitAtChar(first, ',', count);
    DecimalPlain(if lines == [] then 0 else 1, ',');
    DecimalPlain(|lines|, ',');
  }

  function RangeLine(before: seq<string>, after: seq<string>): string {
    "@@ -" + Range(before) + " +" + Range(after) + " @@"
  }

  lemma OldRangeReadsBack(before: seq<string>, after: seq<string>)
    ensures ReadOldRange(RangeLine(before, after)) == Lined(if |before| > 0 then 1 else 0, |before|)
  {
    var x, tail := Range(before), "+" + Range(after) + " @@";
    RangeReadsBack(before);
    assert RangeLine(before, after) == "@@ " + ['-'] + (x + [' '] + tail);
    SplitAtChar("@@ ", '-', x + [' '] + tail);
    SplitAtChar(x, ' ', tail);
  }

  lemma NewRangeReadsBack(before: seq<string>, after: seq<string>)
    ensures ReadNewRange(RangeLine(before, after)) == Lined(if |after| > 0 then 1 else 0, |after|)
  {
    var head, y := "@@ -" + Range(before) + " ", Range(after);
    RangeReadsBack(before);
    RangeReadsBack(after);
    assert RangeLine(before, after) == head + ['+'] + (y + [' '] + "@@");
    SplitAtChar(head, '+', y + [' '] + "@@");
    SplitAtChar(y, ' ', "@@");
  }

  lemma JoinedCons(line: string, rest: seq<string>)
    ensures Joined([line] + rest) == line + "\n" + Joined(rest)
  {
    assert ([line] + rest)[1..] == rest;
  }

  lemma JoinedThree(a: string, b: string, c: string)
    ensures Joined([a] + ([b] + [c])) == a + "\n" + (b + "\n" + (c + "\n"))
  {
    JoinedCons(c, []);
    assert [c] + [] == [c] && c + "\n" + "" == c + "\n";
    JoinedCons(b, [c]);
    JoinedCons(a, [b] + [c]);
  }

  lemma RangeIsOneLine(lines: seq<string>)
    ensures NoNewline(Range(lines))
  {
    DecimalPlain(if lines == [] then 0 else 1, '\n');
    DecimalPlain(|lines|, '\n');
  }

  /**
   * The header reads back: each side names the file unless it has no lines there, and each range
   * starts at the first line, if there is one, and counts that side's lines.
   */
  lemma HeaderReadsBack(path: string, before: seq<string>, after: seq<string>)
    requires NoNewline(path)
    ensures var lines := Terminated(Header(path, before, after));
      && |lines| == 3
      && ReadSide(lines[0], "--- /dev/null", "--- a/") == (if before == [] then None else Some(path))
      && ReadSide(lines[1], "+++ /dev/null", "+++ b/") == (if after == [] then None else Some(path))
      && ReadOldRange(lines[2]) == Lined(if before == [] then 0 else 1, |before|)
      && ReadNewRange(lines[2]) == Lined(if after == [] then 0 else 1, |after|)
  {
    var a := if before == [] then "--- /dev/null" else "--- a/" + path;
    var b := if after == [] then "+++ /dev/null" else "+++ b/" + path;
    HeaderIsThreeLines(path, before, after, a, b);
    OldRangeReadsBack(before, after);
    NewRangeReadsBack(before, after);
    OldSideReadsBack(path, before);
    NewSideReadsBack(path, after);
  }

  lemma OldSideReadsBack(path: string, before: seq<string>)
    ensures ReadSide(if before == [] then "--- /dev/null" else "--- a/" + path, "--- /dev/null", "--- a/")
         == if before == [] then None else Some(path)
  {
    SideReadsBack("--- ", "a/", path);
    assert "--- " + "a/" == "--- a/" && "--- " + "/dev/null" == "--- /dev/null";
  }

  lemma NewSideReadsBack(path: string, after: seq<string>)
    ensures ReadSide(if after == [] then "+++ /dev/null" else "+++ b/" + path, "+++ /dev/null", "+++ b/")
         == if after == [] then None else Some(path)
  {
    SideReadsBack("+++ ", "b/", path);
    assert "+++ " + "b/" == "+++ b/" && "+++ " + "/dev/null" == "+++ /dev/null";
  }

  lemma SideReadsBack(mark: string, prefix: string, path: string)
    requires prefix != [] && prefix[0] != '/'
    ensures ReadSide(mark + "/dev/null", mark + "/dev/null", mark + prefix).None?
    ensures ReadSide(mark + prefix + path, mark + "/dev/null", mark + prefix) == Some(path)
  {
    assert (mark + prefix + path)[|mark|] == prefix[0] && (mark + "/dev/null")[|mark|] == '/';
    assert (mark + prefix + path)[..|mark + prefix|] == mark + prefix;
    assert (mark + prefix + path)[|mark + prefix|..] == path;
  }

  lemma RangeLineEnds(path: string, before: seq<string>, after: seq<string>)
    ensures Header(path, before, after) == FileHeader(path, before, after) + (RangeLine(before, after) + "\n")
  {
  }

  lemma HeaderRegroups(a: string, b: string, c: string)
    ensures a + b + (c + "\n") == a + (b + (c + "\n"))
  {
  }

  lemma HeaderIsThreeLines(path: string, before: seq<string>, after: seq<string>, a: string, b: string)
    requires NoNewline(path)
    requires a == if before == [] then "--- /dev/null" else "--- a/" + path
    requires b == if after == [] then "+++ /dev/null" else "+++ b/" + path
    ensures Terminated(Header(path, before, after)) == [a] + ([b] + [RangeLine(before, after)])
  {
    RangeIsOneLine(before);
    RangeIsOneLine(after);
    HeaderIsJoined(path, before, after, a, b);
    TerminatedJoined([a] + ([b] + [RangeLine(before, after)]));
  }

  lemma HeaderIsJoined(path: string, before: seq<string>, after: seq<string>, a: string, b: string)
    requires a == if before == [] then "--- /dev/null" else "--- a/" + path
    requires b == if after == [] then "+++ /dev/null" else "+++ b/" + path
    ensures Header(path, before, after) == Joined([a] + ([b] + [RangeLine(before, after)]))
  {
    assert "--- /dev/null\n" == "--- /dev/null" + "\n" && "+++ /dev/null\n" == "+++ /dev/null" + "\n";
    assert FileHeader(path, before, after) == (a + "\n") + (b + "\n");
    HeaderRegroups(a + "\n", b + "\n", RangeLine(before, after));
    RangeLineEnds(path, before, after);
    JoinedThree(a, b, RangeLine(before, after));
  }
}
