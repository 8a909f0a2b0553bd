/** Splitting a multi-file Git diff into file changes (crates/agent/src/lib.rs). */
module DiffSplitter {
  import opened Text

  datatype FileChangeKind = Create | Modify | Delete | Rename

  datatype FileChange = FileChange(path: string, kind: FileChangeKind, diff: string)

  datatype Failure = NoSections | NoHeader | NoPath

  datatype Result<+T> = Ok(value: T) | Err(error: Failure)

  const HEADER := "diff --git "

  predicate IsHeader(line: string) {
    StartsWith(line, HEADER)
  }

  // ---------------------------------------------------------------- sections

  /** The lines from each header up to the next, adding one line at a time. */
  function Sections(lines: seq<string>): seq<seq<string>> {
    if lines == [] then []
    else Added(Sections(lines[..|lines| - 1]), lines[|lines| - 1])
  }

  /** A header opens a section; any other line joins the open one, if there is one. */
  function Added(groups: seq<seq<string>>, line: string): seq<seq<string>> {
    if IsHeader(line) then groups + [[line]]
    else if groups == [] then []
    else groups[..|groups| - 1] + [groups[|groups| - 1] + [line]]
  }

  function Concat(groups: seq<seq<string>>): seq<string> {
    if groups == [] then [] else groups[0] + Concat(groups[1..])
  }

  function Texts(groups: seq<seq<string>>): (r: seq<string>)
    ensures |r| == |groups|
    ensures forall i :: 0 <= i < |groups| ==> r[i] == Joined(groups[i])
  {
    seq(|groups|, i requires 0 <= i < |groups| => Joined(groups[i]))
  }

  function JoinTexts(texts: seq<string>): string {
    if texts == [] then [] else texts[0] + JoinTexts(texts[1..])
  }

  /** Index of the first header line, or the length when there is none. */
  function FirstHeader(lines: seq<string>): (k: nat)
    ensures k <= |lines|
    ensures forall i :: 0 <= i < k ==> !IsHeader(lines[i])
    ensures k < |lines| ==> IsHeader(lines[k])
  {
    if lines == [] || IsHeader(lines[0]) then 0 else 1 + FirstHeader(lines[1..])
  }

  function HeaderCount(lines: seq<string>): nat {
    if lines == [] then 0 else HeaderCount(lines[..|lines| - 1]) + (if IsHeader(lines[|lines| - 1]) then 1 else 0)
  }

  /** A section starts with its header and holds no other. */
  ghost predicate OneHeader(group: seq<string>) {
    && group != [] && IsHeader(group[0])
    && forall i :: 1 <= i < |group| ==> !IsHeader(group[i])
  }

  ghost predicate AllOneHeader(groups: seq<seq<string>>) {
    forall i :: 0 <= i < |groups| ==> OneHeader(groups[i])
  }

  // ---------------------------------------------------------------- one section

  /** The rest of the last line that starts with the prefix. */
  function LastAfter(lines: seq<string>, prefix: string): Option<string> {
    if lines == [] then None
    else if StartsWith(lines[|lines| - 1], prefix) then Some(lines[|lines| - 1][|prefix|..])
    else LastAfter(lines[..|lines| - 1], prefix)
  }

  /** The rest of the first line that starts with the prefix. */
  function FirstAfter(lines: seq<string>, prefix: string): Option<string> {
    if lines == [] then None
    else
      var earlier := FirstAfter(lines[..|lines| - 1], prefix);
      if earlier.Some? then earlier
      else if StartsWith(lines[|lines| - 1], prefix) then Some(lines[|lines| - 1][|prefix|..])
      else None
  }

  /** A side's path: its last rename line wins over its first file line, wherever they stand. */
  function SidePath(lines: seq<string>, rename: string, file: string): Option<string> {
    OrElse(LastAfter(lines, rename), FirstAfter(lines, file))
  }

  predicate OccursAt(s: string, pattern: string, i: nat) {
    i + |pattern| <= |s| && s[i..i + |pattern|] == pattern
  }

  /** The last place at or before `k` where the pattern occurs. */
  function LastOccurrence(s: string, pattern: string, k: nat): (r: Option<nat>)
    ensures r.Some? ==> r.value <= k && OccursAt(s, pattern, r.value)
    ensures forall i :: (if r.Some? then r.value else -1) < i <= k ==> !OccursAt(s, pattern, i)
  {
    if OccursAt(s, pattern, k) then Some(k)
    else if k == 0 then None
    else LastOccurrence(s, pattern, k - 1)
  }

  /** `str::rsplit_once`. */
  function RSplitOnce(s: string, pattern: string): Option<(string, string)> {
    var at := LastOccurrence(s, pattern, |s|);
    if at.Some? then Some((s[..at.value], s[at.value + |pattern|..])) else None
  }

  const HEADER_A := "diff --git a/"
  const SEPARATOR := " b/"

  predicate AnyLine(lines: seq<string>, prefix: string, whole: string) {
    exists i :: 0 <= i < |lines| && (StartsWith(lines[i], prefix) || lines[i] == whole)
  }

  function Classify(lines: seq<string>, oldPath: Option<string>, newPath: Option<string>): FileChangeKind {
    if AnyLine(lines, "new file mode ", "--- /dev/null") then Create
    else if AnyLine(lines, "deleted file mode ", "+++ /dev/null") then Delete
    else if oldPath != newPath then Rename
    else Modify
  }

  /** The change one section describes, from its lines and the paths its body names. */
  function Resolve(section: string, lines: seq<string>, oldPath: Option<string>, newPath: Option<string>): Result<FileChange> {
    var missing := oldPath.None? || newPath.None?;
    if missing && (lines == [] || !StartsWith(lines[0], HEADER_A)) then Err(NoHeader)
    else
      var split := if missing then RSplitOnce(lines[0][|HEADER_A|..], SEPARATOR) else None;
      var from := if split.Some? then OrElse(oldPath, Some(split.value.0)) else oldPath;
      var to := if split.Some? then OrElse(newPath, Some(split.value.1)) else newPath;
      var kind := Classify(lines, from, to);
      var path := if kind == Delete then from else OrElse(to, from);
      if path.None? || path.value == [] then Err(NoPath)
      else Ok(FileChange(path.value, kind, section))
  }

  function ParseSection(section: string): Result<FileChange> {
    var lines := Lines(section);
    Resolve(section, lines, SidePath(lines, "rename from ", "--- a/"), SidePath(lines, "rename to ", "+++ b/"))
  }

  /** `collect` into a `Result`: every section's change, or the first failure. */
  function ParseAll(sections: seq<string>): Result<seq<FileChange>> {
    if sections == [] then Ok([])
    else
      var first := ParseSection(sections[0]);
      if first.Err? then Err(first.error)
      else
        var rest := ParseAll(sections[1..]);
        if rest.Err? then rest else Ok([first.value] + rest.value)
  }

  function FileChanges(diff: string): Result<seq<FileChange>> {
    if Trim(diff) == [] then Ok([])
    else
      var sections := Texts(Sections(Lines(diff)));
      if sections == [] then Err(NoSections) else ParseAll(sections)
  }

  // ---------------------------------------------------------------- the loops

  /** The loop's two variables: the finished sections' texts and the text of the open one. */
  ghost predicate Collected(groups: seq<seq<string>>, sections: seq<string>, current: string) {
    && (forall i :: 0 <= i < |groups| ==> groups[i] != [])
    && if groups == [] then current == [] && sections == []
       else current == Joined(groups[|groups| - 1]) && sections == Texts(groups[..|groups| - 1])
  }

  lemma CurrentEmpty(groups: seq<seq<string>>, sections: seq<string>, current: string)
    requires Collected(groups, sections, current)
    ensures current == [] <==> groups == []
  {
  }

  lemma CollectedTexts(groups: seq<seq<string>>, sections: seq<string>, current: string)
    requires Collected(groups, sections, current)
    ensures Texts(groups) == if groups == [] then sections else sections + [current]
  {
  }

  lemma CollectHeader(groups: seq<seq<string>>, sections: seq<string>, current: string, line: string)
    requires Collected(groups, sections, current)
    ensures Collected(groups + [[line]], if current != [] then sections + [current] else sections, [] + line + "\n")
  {
    CollectedTexts(groups, sections, current);
    CurrentEmpty(groups, sections, current);
    assert (groups + [[line]])[..|groups|] == groups;
    JoinedOne(line);
  }

  lemma CollectLine(groups: seq<seq<string>>, sections: seq<string>, current: string, line: string)
    requires Collected(groups, sections, current) && groups != []
    ensures Collected(groups[..|groups| - 1] + [groups[|groups| - 1] + [line]], sections, current + line + "\n")
  {
    var last, init := groups[|groups| - 1], groups[..|groups| - 1];
    JoinedAppend(last, [line]);
    JoinedOne(line);
    assert (init + [last + [line]])[..|init|] == init;
    assert current + (line + "\n") == current + line + "\n";
  }

  lemma SectionsSnoc(lines: seq<string>, n: nat)
    requires n < |lines|
    ensures Sections(lines[..n + 1]) == Added(Sections(lines[..n]), lines[n])
  {
    assert lines[..n + 1][..n] == lines[..n];
  }

  /** One turn of the loop. */
  lemma Collect(groups: seq<seq<string>>, sections: seq<string>, current: string, line: string)
    requires Collected(groups, sections, current)
    ensures var closing := IsHeader(line) && current != [];
      var kept := if closing then [] else current;
      Collected(Added(groups, line), if closing then sections + [current] else sections,
                if kept != [] || IsHeader(line) then kept + line + "\n" else kept)
  {
    CurrentEmpty(groups, sections, current);
    if IsHeader(line) {
      CollectHeader(groups, sections, current, line);
    } else if current != [] {
      CollectLine(groups, sections, current, line);
    }
  }

  method SplitSections(diff: string) returns (sections: seq<string>)
    ensures sections == Texts(Sections(Lines(diff)))
  {
    var lines := Lines(diff);
    sections := [];
    var current := [];
    assert lines[..0] == [];
    for n := 0 to |lines|
      invariant Collected(Sections(lines[..n]), sections, current)
    {
      var line := lines[n];
      SectionsSnoc(lines, n);
      Collect(Sections(lines[..n]), sections, current, line);
      if IsHeader(line) && current != [] {
        sections := sections + [current];
        current := [];
      }
      if current != [] || IsHeader(line) {
        current := current + line + "\n";
      }
    }
    assert lines[..|lines|] == lines;
    CurrentEmpty(Sections(lines), sections, current);
    CollectedTexts(Sections(lines), sections, current);
    if current != [] {
      sections := sections + [current];
    }
  }

  method ScanPaths(lines: seq<string>) returns (oldPath: Option<string>, newPath: Option<string>)
    ensures oldPath == SidePath(lines, "rename from ", "--- a/")
    ensures newPath == SidePath(lines, "rename to ", "+++ b/")
  {
    oldPath, newPath := None, None;
    assert lines[..0] == [];
    for n := 0 to |lines|
      invariant oldPath == SidePath(lines[..n], "rename from ", "--- a/")
      invariant newPath == SidePath(lines[..n], "rename to ", "+++ b/")
    {
      var line := lines[n];
      assert lines[..n + 1][..n] == lines[..n];
      PrefixesDiffer(line);
      if StartsWith(line, "rename from ") {
        oldPath := Some(line[|"rename from "|..]);
      } else if StartsWith(line, "rename to ") {
        newPath := Some(line[|"rename to "|..]);
      } else if StartsWith(line, "--- a/") {
        oldPath := if oldPath.Some? then oldPath else Some(line[|"--- a/"|..]);
      } else if StartsWith(line, "+++ b/") {
        newPath := if newPath.Some? then newPath else Some(line[|"+++ b/"|..]);
      }
    }
    assert lines[..|lines|] == lines;
  }

  method ReadSection(section: string) returns (change: Result<FileChange>)
    ensures change == ParseSection(section)
  {
    var lines := Lines(section);
    var oldPath, newPath := ScanPaths(lines);
    change := Resolve(section, lines, oldPath, newPath);
  }

  method ReadSections(sections: seq<string>) returns (result: Result<seq<FileChange>>)
    ensures result == ParseAll(sections)
  {
    var changes: seq<FileChange> := [];
    assert sections[0..] == sections;
    PrependNothing(ParseAll(sections));
    for n := 0 to |sections|
      invariant ParseAll(sections) == Prepend(changes, ParseAll(sections[n..]))
    {
      assert sections[n..][1..] == sections[n + 1..];
      var change := ReadSection(sections[n]);
      if change.Err? {
        return Err(change.error);
      }
      PrependOne(changes, change.value, ParseAll(sections[n + 1..]));
      changes := changes + [change.value];
    }
    assert sections[|sections|..] == [] && changes + [] == changes;
    return Ok(changes);
  }

  function Prepend(changes: seq<FileChange>, rest: Result<seq<FileChange>>): Result<seq<FileChange>> {
    if rest.Err? then rest else Ok(changes + rest.value)
  }

  lemma PrependNothing(rest: Result<seq<FileChange>>)
    ensures Prepend([], rest) == rest
  {
    assert rest.Ok? ==> [] + rest.value == rest.value;
  }

  lemma PrependOne(changes: seq<FileChange>, change: FileChange, rest: Result<seq<FileChange>>)
    ensures Prepend(changes, Prepend([change], rest)) == Prepend(changes + [change], rest)
  {
    assert rest.Ok? ==> changes + ([change] + rest.value) == (changes + [change]) + rest.value;
  }

  method FileChangesFromUnifiedDiff(diff: string) returns (result: Result<seq<FileChange>>)
    ensures result == FileChanges(diff)
  {
    if Trim(diff) == [] {
      return Ok([]);
    }
    var sections := SplitSections(diff);
    if sections == [] {
      return Err(NoSections);
    }
    result := ReadSections(sections);
  }

  lemma PrefixesDiffer(line: string)
    ensures StartsWith(line, "rename from ") ==> line[0] == 'r' && line[7] == 'f'
    ensures StartsWith(line, "rename to ") ==> line[0] == 'r' && line[7] == 't'
    ensures StartsWith(line, "--- a/") ==> line[0] == '-'
    ensures StartsWith(line, "+++ b/") ==> line[0] == '+'
  {
    if StartsWith(line, "rename from ") { assert line[0] == "rename from "[0] && line[7] == "rename from "[7]; }
    if StartsWith(line, "rename to ") { assert line[0] == "rename to "[0] && line[7] == "rename to "[7]; }
    if StartsWith(line, "--- a/") { assert line[0] == "--- a/"[0]; }
    if StartsWith(line, "+++ b/") { assert line[0] == "+++ b/"[0]; }
  }

  lemma JoinedOne(line: string)
    ensures Joined([line]) == line + "\n"
  {
    assert Joined([line][1..]) == [];
  }

  // ---------------------------------------------------------------- conservation

  lemma {:induction false} ConcatSnoc(groups: seq<seq<string>>, last: seq<string>)
    ensures Concat(groups + [last]) == Concat(groups) + last
  {
    if groups == [] {
      assert Concat([last][1..]) == [];
    } else {
      assert (groups + [last])[1..] == groups[1..] + [last];
      ConcatSnoc(groups[1..], last);
    }
  }

  lemma {:induction false} FirstHeaderOfPrefix(lines: seq<string>, k: nat)
    requires k <= |lines|
    ensures FirstHeader(lines[..k]) == if FirstHeader(lines) < k then FirstHeader(lines) else k
  {
    if k > 0 && !IsHeader(lines[0]) {
      assert lines[..k][1..] == lines[1..][..k - 1];
      FirstHeaderOfPrefix(lines[1..], k - 1);
    }
  }

  /**
   * The sections hold, in order and exactly once, every line from the first header on; each
   * starts with a header and holds no other, and there is one per header line.
   */
  lemma {:induction false} SectionsConserve(lines: seq<string>)
    ensures AllOneHeader(Sections(lines))
    ensures Concat(Sections(lines)) == lines[FirstHeader(lines)..]
    ensures |Sections(lines)| == HeaderCount(lines)
    ensures Sections(lines) == [] <==> FirstHeader(lines) == |lines|
  {
    if lines != [] {
      var n := |lines| - 1;
      SectionsConserve(lines[..n]);
      FirstHeaderOfPrefix(lines, n);
      SliceSnoc(lines, FirstHeader(lines));
      AddLine(Sections(lines[..n]), lines[n]);
    }
  }

  lemma AddLine(groups: seq<seq<string>>, line: string)
    requires AllOneHeader(groups)
    ensures AllOneHeader(Added(groups, line))
    ensures Concat(Added(groups, line)) == if IsHeader(line) || groups != [] then Concat(groups) + [line] else []
  {
    if IsHeader(line) {
      ConcatSnoc(groups, [line]);
    } else if groups != [] {
      assert groups == groups[..|groups| - 1] + [groups[|groups| - 1]];
      ConcatExtend(groups[..|groups| - 1], groups[|groups| - 1], line);
      assert OneHeader(groups[|groups| - 1]);
    }
  }

  lemma SliceSnoc(lines: seq<string>, k: nat)
    requires lines != [] && k <= |lines|
    ensures lines[k..] == if k < |lines| then lines[..|lines| - 1][k..] + [lines[|lines| - 1]] else []
  {
  }

  lemma ConcatExtend(init: seq<seq<string>>, last: seq<string>, line: string)
    ensures Concat(init + [last + [line]]) == Concat(init + [last]) + [line]
  {
    ConcatSnoc(init, last);
    ConcatSnoc(init, last + [line]);
    var c := Concat(init);
    assert c + (last + [line]) == (c + last) + [line];
  }

  lemma FirstHeaderIs(lines: seq<string>, k: nat)
    requires k <= |lines| && forall i :: 0 <= i < k ==> !IsHeader(lines[i])
    requires k < |lines| ==> IsHeader(lines[k])
    ensures FirstHeader(lines) == k
  {
  }

  /** The first section ends where the next header stands. */
  lemma FirstSectionLength(groups: seq<seq<string>>)
    requires groups != [] && AllOneHeader(groups)
    ensures Concat(groups) != [] && |groups[0]| == 1 + FirstHeader(Concat(groups)[1..])
  {
    var all, k := Concat(groups), |groups[0]|;
    assert OneHeader(groups[0]);
    assert forall i :: 1 <= i < k ==> all[i] == groups[0][i];
    assert all == groups[0] + Concat(groups[1..]);
    if |groups| > 1 {
      assert OneHeader(groups[1]) && groups[1..][0] == groups[1];
      assert all[k] == Concat(groups[1..])[0] == groups[1][0];
      assert all[1..][k - 1] == all[k];
    } else {
      assert groups[1..] == [] && |all| == k;
    }
    FirstHeaderIs(all[1..], k - 1);
  }

  /** Conservation and the one-header shape leave no freedom: they determine the sections. */
  lemma {:induction false} SectionsUnique(a: seq<seq<string>>, b: seq<seq<string>>)
    requires AllOneHeader(a) && AllOneHeader(b) && Concat(a) == Concat(b)
    ensures a == b
  {
    if a != [] {
      FirstSectionLength(a);
    }
    if b != [] {
      FirstSectionLength(b);
    }
    if a != [] && b != [] {
      assert a[0] == Concat(a)[..|a[0]|] && b[0] == Concat(b)[..|b[0]|];
      assert Concat(a[1..]) == Concat(a)[|a[0]|..] && Concat(b[1..]) == Concat(b)[|b[0]|..];
      SectionsUnique(a[1..], b[1..]);
      assert a == [a[0]] + a[1..] && b == [b[0]] + b[1..];
    }
  }

  lemma {:induction false} JoinTextsOfGroups(groups: seq<seq<string>>)
    ensures JoinTexts(Texts(groups)) == Joined(Concat(groups))
  {
    if groups != [] {
      assert Texts(groups)[1..] == Texts(groups[1..]);
      JoinTextsOfGroups(groups[1..]);
      JoinedAppend(groups[0], Concat(groups[1..]));
    }
  }

  function Diffs(changes: seq<FileChange>): (r: seq<string>)
    ensures |r| == |changes|
    ensures forall i :: 0 <= i < |changes| ==> r[i] == changes[i].diff
  {
    seq(|changes|, i requires 0 <= i < |changes| => changes[i].diff)
  }

  lemma {:induction false} ParseAllKeepsSections(sections: seq<string>)
    ensures ParseAll(sections).Ok? <==> forall i :: 0 <= i < |sections| ==> ParseSection(sections[i]).Ok?
    ensures ParseAll(sections).Ok? ==> Diffs(ParseAll(sections).value) == sections
  {
    if sections != [] {
      var rest := sections[1..];
      ParseAllKeepsSections(rest);
      assert sections == [sections[0]] + rest;
      AllReadable([sections[0]], rest);
      if ParseAll(sections).Ok? {
        assert ParseAll(sections).value[0].diff == sections[0];
        DiffsCons(ParseSection(sections[0]).value, ParseAll(rest).value);
      }
    }
  }

  lemma DiffsCons(first: FileChange, rest: seq<FileChange>)
    ensures Diffs([first] + rest) == [first.diff] + Diffs(rest)
  {
  }

  lemma AllReadable(a: seq<string>, b: seq<string>)
    ensures (forall i :: 0 <= i < |a + b| ==> ParseSection((a + b)[i]).Ok?) <==>
            ((forall i :: 0 <= i < |a| ==> ParseSection(a[i]).Ok?) && forall i :: 0 <= i < |b| ==> ParseSection(b[i]).Ok?)
  {
    assert forall i :: 0 <= i < |a| ==> (a + b)[i] == a[i];
    assert forall i :: 0 <= i < |b| ==> (a + b)[|a| + i] == b[i];
  }

  /**
   * A successful split has one change per header line, and its diffs joined together are
   * every line from the first header on. A blank diff has no changes; any other diff without
   * a header is an error, and one with headers fails exactly when some section cannot be read.
   */
  lemma SplitConserves(diff: string)
    ensures var lines := Lines(diff);
      var result := FileChanges(diff);
      && (Blank(diff) ==> result == Ok([]))
      && (!Blank(diff) && HeaderCount(lines) == 0 ==> result == Err(NoSections))
      && (!Blank(diff) && HeaderCount(lines) > 0 ==>
            (result.Ok? <==> forall i :: 0 <= i < |Sections(lines)| ==> ParseSection(Joined(Sections(lines)[i])).Ok?))
      && (!Blank(diff) && result.Ok? ==>
            && |result.value| == HeaderCount(lines)
            && Diffs(result.value) == Texts(Sections(lines))
            && JoinTexts(Diffs(result.value)) == Joined(lines[FirstHeader(lines)..]))
  {
    var lines := Lines(diff);
    TrimEmptyIsBlank(diff);
    SectionsConserve(lines);
    var texts := Texts(Sections(lines));
    ParseAllKeepsSections(texts);
    JoinTextsOfGroups(Sections(lines));
    if !Blank(diff) && HeaderCount(lines) > 0 {
      assert FileChanges(diff) == ParseAll(texts);
      assert forall i :: 0 <= i < |texts| ==> texts[i] == Joined(Sections(lines)[i]);
    }
  }

  // ---------------------------------------------------------------- the header's own paths

  predicate Contains(s: string, pattern: string) {
    exists i | 0 <= i <= |s| :: OccursAt(s, pattern, i)
  }

  /** Behind the middle separator, the header's separators are exactly those of what follows. */
  lemma LaterOccurrence(path: string, rest: string, i: nat)
    requires |path| < i
    ensures OccursAt(path + SEPARATOR + rest, SEPARATOR, i) <==> |path| + 3 <= i && OccursAt(rest, SEPARATOR, i - |path| - 3)
  {
    var s, n := path + SEPARATOR + rest, |path|;
    assert s[n + 1] == 'b' && s[n + 2] == '/';
    if i < n + 3 {
      assert i + 3 <= |s| ==> s[i..i + 3][0] == s[i];
    } else if i + 3 <= |s| {
      var there, here := rest[i - n - 3..i - n], s[i..i + 3];
      assert there[0] == here[0] && there[1] == here[1] && there[2] == here[2];
      assert there == here;
    }
  }

  /** Splitting at the last separator finds the middle one exactly if what follows holds none. */
  lemma HeaderSplits(path: string, rest: string)
    ensures var split := RSplitOnce(path + SEPARATOR + rest, SEPARATOR);
      && split.Some?
      && (!Contains(rest, SEPARATOR) ==> split.value == (path, rest))
      && (Contains(rest, SEPARATOR) ==> |split.value.0| > |path| && |split.value.1| < |rest|)
  {
    var s, n := path + SEPARATOR + rest, |path|;
    assert s[n..n + 3] == SEPARATOR && OccursAt(s, SEPARATOR, n);
    assert s[..n] == path && s[n + 3..] == rest;
    var at := LastOccurrence(s, SEPARATOR, |s|);
    if Contains(rest, SEPARATOR) {
      var i :| 0 <= i <= |rest| && OccursAt(rest, SEPARATOR, i);
      LaterOccurrence(path, rest, i + n + 3);
    } else if at.value > n {
      LaterOccurrence(path, rest, at.value);
    }
  }

  /** A carriage return at the end is not part of a separator. */
  lemma ContainsStripped(path: string)
    ensures Contains(StripCR(path), SEPARATOR) <==> Contains(path, SEPARATOR)
  {
    var short := StripCR(path);
    if Contains(path, SEPARATOR) {
      var i :| 0 <= i <= |path| && OccursAt(path, SEPARATOR, i);
      assert path[i..i + 3][2] == path[i + 2] == '/';
      assert short[i..i + 3] == path[i..i + 3];
      assert OccursAt(short, SEPARATOR, i);
    }
    if Contains(short, SEPARATOR) {
      var i :| 0 <= i <= |short| && OccursAt(short, SEPARATOR, i);
      assert short[i..i + 3] == path[i..i + 3];
      assert OccursAt(path, SEPARATOR, i);
    }
  }

  /** A section whose first line names one path on both sides. */
  function HeaderOnly(path: string, rest: string): string {
    HEADER_A + (path + SEPARATOR + path) + "\n" + rest
  }

  lemma HeaderOnlyLines(path: string, rest: string)
    requires NoNewline(path)
    ensures Lines(HeaderOnly(path, rest)) == [HEADER_A + (path + SEPARATOR + StripCR(path))] + Lines(rest)
  {
    var head := HEADER_A + (path + SEPARATOR);
    HeaderIsOneLine(path);
    FirstLineOf(HEADER_A + (path + SEPARATOR + path), rest);
    StripAppended(head, path);
    Regroup(HEADER_A, path + SEPARATOR, path);
    Regroup(HEADER_A, path + SEPARATOR, StripCR(path));
  }

  lemma Regroup(a: string, b: string, c: string)
    ensures (a + b) + c == a + (b + c)
  {
  }

  lemma HeaderIsOneLine(path: string)
    requires NoNewline(path)
    ensures NoNewline(HEADER_A + (path + SEPARATOR + path))
    ensures var head := HEADER_A + (path + SEPARATOR); head[|head| - 1] == '/'
  {
    assert NoNewline(HEADER_A) && NoNewline(SEPARATOR);
  }

  lemma FirstLineOf(line: string, rest: string)
    requires NoNewline(line)
    ensures Lines(line + "\n" + rest) == [StripCR(line)] + Lines(rest)
  {
    FirstNewlineOfLine(line, rest);
    var s := line + "\n" + rest;
    assert s[..|line|] == line && s[|line| + 1..] == rest;
  }

  lemma StripAppended(head: string, tail: string)
    requires head != [] && head[|head| - 1] != '\r'
    ensures StripCR(head + tail) == head + StripCR(tail)
  {
    if tail == [] {
      assert head + tail == head;
    } else {
      assert (head + tail)[..|head + tail| - 1] == head + tail[..|tail| - 1];
    }
  }

  predicate NamesNoSide(lines: seq<string>) {
    SidePath(lines, "rename from ", "--- a/").None? && SidePath(lines, "rename to ", "+++ b/").None?
  }

  /** The lines mark the file as deleted and not as created. */
  predicate MarkedDeleted(lines: seq<string>) {
    && !MarkedCreated(lines)
    && exists i :: 0 <= i < |lines| && (StartsWith(lines[i], "deleted file mode ") || lines[i] == "+++ /dev/null")
  }

  predicate MarkedCreated(lines: seq<string>) {
    exists i :: 0 <= i < |lines| && (StartsWith(lines[i], "new file mode ") || lines[i] == "--- /dev/null")
  }

  lemma HeaderRest(text: string)
    ensures StartsWith(HEADER_A + text, HEADER_A) && (HEADER_A + text)[|HEADER_A|..] == text
  {
  }

  /** What two sides found in a header make of a section that names neither. */
  function FromHeader(section: string, sides: (string, string)): Result<FileChange> {
    var kind := Classify(Lines(section), Some(sides.0), Some(sides.1));
    var reported := if kind == Delete then sides.0 else sides.1;
    if reported == [] then Err(NoPath) else Ok(FileChange(reported, kind, section))
  }

  lemma ResolveFromHeader(section: string, text: string)
    requires Lines(section) != [] && Lines(section)[0] == HEADER_A + text && NamesNoSide(Lines(section))
    requires RSplitOnce(text, SEPARATOR).Some?
    ensures ParseSection(section) == FromHeader(section, RSplitOnce(text, SEPARATOR).value)
  {
    HeaderRest(text);
  }

  /** What the header alone makes of a section. */
  lemma HeaderResolves(path: string, rest: string)
    requires NoNewline(path) && NamesNoSide(Lines(HeaderOnly(path, rest)))
    ensures var split := RSplitOnce(path + SEPARATOR + StripCR(path), SEPARATOR);
      split.Some? && ParseSection(HeaderOnly(path, rest)) == FromHeader(HeaderOnly(path, rest), split.value)
  {
    HeaderSplits(path, StripCR(path));
    HeaderOnlyLines(path, rest);
    ResolveFromHeader(HeaderOnly(path, rest), path + SEPARATOR + StripCR(path));
  }

  lemma DeleteIffMarked(lines: seq<string>, from: Option<string>, to: Option<string>)
    ensures Classify(lines, from, to) == Delete <==> MarkedDeleted(lines)
  {
  }

  lemma FromHeaderReports(section: string, sides: (string, string), path: string)
    ensures var result := FromHeader(section, sides);
      (result.Ok? && result.value.path == path) <==>
      (path != [] && path == if MarkedDeleted(Lines(section)) then sides.0 else sides.1)
  {
    DeleteIffMarked(Lines(section), Some(sides.0), Some(sides.1));
  }

  /**
   * When only the header names the file, its path is reported exactly if it is not empty, does
   * not contain the separator, and does not end in a carriage return unless the file is deleted.
   */
  lemma HeaderPathRecovered(path: string, rest: string)
    requires NoNewline(path) && NamesNoSide(Lines(HeaderOnly(path, rest)))
    ensures var section := HeaderOnly(path, rest);
      var result := ParseSection(section);
      (result.Ok? && result.value.path == path) <==>
      (path != [] && !Contains(path, SEPARATOR) && (StripCR(path) == path || MarkedDeleted(Lines(section))))
  {
    HeaderSplits(path, StripCR(path));
    ContainsStripped(path);
    HeaderResolves(path, rest);
    FromHeaderReports(HeaderOnly(path, rest), RSplitOnce(path + SEPARATOR + StripCR(path), SEPARATOR).value, path);
  }

  lemma NoSeparator(s: string)
    requires |s| < 3
    ensures !Contains(s, SEPARATOR)
  {
  }

  lemma Mismatch(line: string, prefix: string, i: nat)
    requires i < |prefix| && (i < |line| ==> line[i] != prefix[i])
    ensures !StartsWith(line, prefix) && line != prefix
  {
  }

  lemma OnlyLine(line: string, prefix: string, whole: string)
    ensures LastAfter([line], prefix).None? <==> !StartsWith(line, prefix)
    ensures FirstAfter([line], prefix).None? <==> !StartsWith(line, prefix)
    ensures AnyLine([line], prefix, whole) <==> StartsWith(line, prefix) || line == whole
  {
    assert [line][..0] == [] && [line][0] == line;
  }

  /** A header line is none of the lines that name a side or mark a file. */
  lemma HeaderAlone(line: string)
    requires |line| > 1 && line[0] == 'd' && line[1] == 'i'
    ensures NamesNoSide([line])
    ensures !AnyLine([line], "new file mode ", "--- /dev/null") && !AnyLine([line], "deleted file mode ", "+++ /dev/null")
  {
    Mismatch(line, "rename from ", 0);
    Mismatch(line, "rename to ", 0);
    Mismatch(line, "--- a/", 0);
    Mismatch(line, "+++ b/", 0);
    Mismatch(line, "new file mode ", 0);
    Mismatch(line, "deleted file mode ", 1);
    Mismatch(line, "--- /dev/null", 0);
    Mismatch(line, "+++ /dev/null", 0);
    OnlyLine(line, "rename from ", []);
    OnlyLine(line, "rename to ", []);
    OnlyLine(line, "--- a/", []);
    OnlyLine(line, "+++ b/", []);
    OnlyLine(line, "new file mode ", "--- /dev/null");
    OnlyLine(line, "deleted file mode ", "+++ /dev/null");
  }

  /** A lone header whose two sides come out differently is reported as a rename to the second. */
  lemma LoneHeaderRenames(path: string, from: string, to: string)
    requires NoNewline(path) && to != [] && from != to && !Contains(to, SEPARATOR)
    requires path + SEPARATOR + StripCR(path) == from + SEPARATOR + to
    ensures NamesNoSide(Lines(HeaderOnly(path, [])))
    ensures ParseSection(HeaderOnly(path, [])) == Ok(FileChange(to, Rename, HeaderOnly(path, [])))
  {
    HeaderOnlyLines(path, []);
    var line := HEADER_A + (path + SEPARATOR + StripCR(path));
    assert line[0] == 'd' && line[1] == 'i';
    assert Lines(HeaderOnly(path, [])) == [line];
    HeaderAlone(line);
    HeaderResolves(path, []);
    HeaderSplits(from, to);
  }

  /** Two paths that are not reported: one loses its carriage return, the other its directory. */
  lemma HeaderPathsLost()
    ensures ParseSection(HeaderOnly("x\r", [])) == Ok(FileChange("x", Rename, HeaderOnly("x\r", [])))
    ensures ParseSection(HeaderOnly("x b/y", [])) == Ok(FileChange("y", Rename, HeaderOnly("x b/y", [])))
  {
    ReturnIsLost();
    DirectoryIsLost();
  }

  lemma ReturnIsLost()
    ensures ParseSection(HeaderOnly("x\r", [])) == Ok(FileChange("x", Rename, HeaderOnly("x\r", [])))
  {
    NoSeparator("x");
    LoneHeaderRenames("x\r", "x\r", "x");
  }

  lemma DirectoryIsLost()
    ensures ParseSection(HeaderOnly("x b/y", [])) == Ok(FileChange("y", Rename, HeaderOnly("x b/y", [])))
  {
    NoSeparator("y");
    LoneHeaderRenames("x b/y", "x b/y b/x", "y");
  }

  // ---------------------------------------------------------------- hunks that look like headers

  /** A line of a hunk: its heading, or a line with its mark. */
  predicate HunkLine(line: string) {
    line != [] && line[0] in " +-@\\"
  }

  predicate HunkLines(lines: seq<string>) {
    forall i :: 0 <= i < |lines| ==> HunkLine(lines[i])
  }

  lemma AnyLineAppend(a: seq<string>, b: seq<string>, prefix: string, whole: string)
    ensures AnyLine(a + b, prefix, whole) <==> AnyLine(a, prefix, whole) || AnyLine(b, prefix, whole)
  {
    var all := a + b;
    assert forall i :: 0 <= i < |a| ==> all[i] == a[i];
    assert forall i :: 0 <= i < |b| ==> all[|a| + i] == b[i];
    if AnyLine(b, prefix, whole) {
      var i :| 0 <= i < |b| && (StartsWith(b[i], prefix) || b[i] == whole);
      assert StartsWith(all[|a| + i], prefix) || all[|a| + i] == whole;
    }
    if AnyLine(a, prefix, whole) {
      var i :| 0 <= i < |a| && (StartsWith(a[i], prefix) || a[i] == whole);
      assert StartsWith(all[i], prefix) || all[i] == whole;
    }
  }

  lemma HunksMarkByWholeLine(lines: seq<string>, prefix: string, whole: string)
    requires HunkLines(lines) && (prefix == "new file mode " || prefix == "deleted file mode ")
    ensures AnyLine(lines, prefix, whole) <==> whole in lines
  {
    forall i | 0 <= i < |lines| ensures !StartsWith(lines[i], prefix) {
      assert HunkLine(lines[i]);
      Mismatch(lines[i], prefix, 0);
    }
  }

  /**
   * The marks are looked for in the hunks as well. The hunks leave the kind that the lines before
   * them give alone exactly if no removed line reads `-- /dev/null` while that kind is not Create,
   * and no added line reads `++ /dev/null` while it is neither Create nor Delete.
   */
  lemma HunksKeepKind(head: seq<string>, hunks: seq<string>, oldPath: Option<string>, newPath: Option<string>)
    requires HunkLines(hunks)
    ensures var kind := Classify(head, oldPath, newPath);
      (Classify(head + hunks, oldPath, newPath) == kind) <==>
      (kind == Create || ("--- /dev/null" !in hunks && (kind == Delete || "+++ /dev/null" !in hunks)))
  {
    AnyLineAppend(head, hunks, "new file mode ", "--- /dev/null");
    AnyLineAppend(head, hunks, "deleted file mode ", "+++ /dev/null");
    HunksMarkByWholeLine(hunks, "new file mode ", "--- /dev/null");
    HunksMarkByWholeLine(hunks, "deleted file mode ", "+++ /dev/null");
  }

  /** Sides that the lines before the hunks name stay named as they are. */
  lemma {:induction false} HunksKeepSides(head: seq<string>, hunks: seq<string>, rename: string, file: string)
    requires HunkLines(hunks) && (rename == "rename from " || rename == "rename to ")
    requires SidePath(head, rename, file).Some?
    ensures LastAfter(head + hunks, rename) == LastAfter(head, rename)
    ensures FirstAfter(head, file).Some? ==> FirstAfter(head + hunks, file) == FirstAfter(head, file)
    ensures SidePath(head + hunks, rename, file) == SidePath(head, rename, file)
  {
    if hunks == [] {
      assert head + hunks == head;
    } else {
      var n := |hunks| - 1;
      HunksKeepSides(head, hunks[..n], rename, file);
      assert (head + hunks)[..|head + hunks| - 1] == head + hunks[..n];
      assert HunkLine(hunks[n]);
      Mismatch(hunks[n], rename, 0);
    }
  }

  /** A whole section: what its head names is reported, under the same condition on its hunks. */
  lemma SectionKeepsKind(section: string, head: seq<string>, hunks: seq<string>)
    requires Lines(section) == head + hunks && HunkLines(hunks)
    requires SidePath(head, "rename from ", "--- a/").Some? && SidePath(head, "rename to ", "+++ b/").Some?
    ensures var from, to := SidePath(head, "rename from ", "--- a/"), SidePath(head, "rename to ", "+++ b/");
      var kind, result := Classify(head, from, to), ParseSection(section);
      result.Ok? ==>
        ((result.value.kind == kind) <==>
         (kind == Create || ("--- /dev/null" !in hunks && (kind == Delete || "+++ /dev/null" !in hunks))))
  {
    HunksKeepSides(head, hunks, "rename from ", "--- a/");
    HunksKeepSides(head, hunks, "rename to ", "+++ b/");
    HunksKeepKind(head, hunks, SidePath(head, "rename from ", "--- a/"), SidePath(head, "rename to ", "+++ b/"));
  }

  /** A modified file that loses the line `-- /dev/null` is taken for a created one. */
  lemma RemovedLineCreates()
    ensures var head := ["diff --git a/x b/x"] + (["--- a/x"] + ["+++ b/x"]);
      var hunks := ["@@ -1 +0,0 @@", "--- /dev/null"];
      && HunkLines(hunks)
      && Classify(head, Some("x"), Some("x")) == Modify
      && Classify(head + hunks, Some("x"), Some("x")) == Create
  {
    var head := ["diff --git a/x b/x"] + (["--- a/x"] + ["+++ b/x"]);
    var hunks := ["@@ -1 +0,0 @@", "--- /dev/null"];
    HeaderAlone("diff --git a/x b/x");
    FileLine("--- a/x");
    FileLine("+++ b/x");
    AnyLineAppend(["--- a/x"], ["+++ b/x"], "new file mode ", "--- /dev/null");
    AnyLineAppend(["diff --git a/x b/x"], ["--- a/x"] + ["+++ b/x"], "new file mode ", "--- /dev/null");
    AnyLineAppend(["--- a/x"], ["+++ b/x"], "deleted file mode ", "+++ /dev/null");
    AnyLineAppend(["diff --git a/x b/x"], ["--- a/x"] + ["+++ b/x"], "deleted file mode ", "+++ /dev/null");
    assert hunks[1] == "--- /dev/null";
    HunksKeepKind(head, hunks, Some("x"), Some("x"));
    AnyLineAppend(head, hunks, "new file mode ", "--- /dev/null");
    HunksMarkByWholeLine(hunks, "new file mode ", "--- /dev/null");
  }

  lemma FileLine(line: string)
    requires |line| > 4 && line[0] in "-+" && line[4] != '/'
    ensures !AnyLine([line], "new file mode ", "--- /dev/null") && !AnyLine([line], "deleted file mode ", "+++ /dev/null")
  {
    Mismatch(line, "new file mode ", 0);
    Mismatch(line, "deleted file mode ", 0);
    Mismatch(line, "--- /dev/null", 4);
    Mismatch(line, "+++ /dev/null", 4);
    OnlyLine(line, "new file mode ", "--- /dev/null");
    OnlyLine(line, "deleted file mode ", "+++ /dev/null");
  }

  // ---------------------------------------------------------------- what a section reports

  predicate NoneStarts(lines: seq<string>, prefix: string) {
    forall i :: 0 <= i < |lines| ==> !StartsWith(lines[i], prefix)
  }

  /** The last line with this prefix ends in the path. */
  ghost predicate LastNames(lines: seq<string>, prefix: string, path: string) {
    exists i :: 0 <= i < |lines| && lines[i] == prefix + path
                && forall j :: i < j < |lines| ==> !StartsWith(lines[j], prefix)
  }

  /** The first line with this prefix ends in the path. */
  ghost predicate FirstNames(lines: seq<string>, prefix: string, path: string) {
    exists i :: 0 <= i < |lines| && lines[i] == prefix + path
                && forall j :: 0 <= j < i ==> !StartsWith(lines[j], prefix)
  }

  /** The lines name one side: by a rename, or else by the file line. */
  ghost predicate NamesSide(lines: seq<string>, rename: string, file: string, path: string) {
    LastNames(lines, rename, path) || (NoneStarts(lines, rename) && FirstNames(lines, file, path))
  }

  ghost predicate NamesOld(lines: seq<string>, path: string) {
    NamesSide(lines, "rename from ", "--- a/", path)
  }

  ghost predicate NamesNew(lines: seq<string>, path: string) {
    NamesSide(lines, "rename to ", "+++ b/", path)
  }

  ghost predicate SilentOld(lines: seq<string>) {
    NoneStarts(lines, "rename from ") && NoneStarts(lines, "--- a/")
  }

  ghost predicate SilentNew(lines: seq<string>) {
    NoneStarts(lines, "rename to ") && NoneStarts(lines, "+++ b/")
  }

  /** The header's two sides: `a/` and `b/` around the last separator. */
  ghost predicate HeaderNames(lines: seq<string>, from: string, to: string) {
    lines != [] && lines[0] == "diff --git a/" + from + " b/" + to && !Contains(to, " b/")
  }

  lemma StartsAppended(prefix: string, path: string)
    ensures StartsWith(prefix + path, prefix) && (prefix + path)[|prefix|..] == path
  {
  }

  lemma {:induction false} LastAfterIs(lines: seq<string>, prefix: string, i: nat)
    requires i < |lines| && StartsWith(lines[i], prefix)
    requires forall j :: i < j < |lines| ==> !StartsWith(lines[j], prefix)
    ensures LastAfter(lines, prefix) == Some(lines[i][|prefix|..])
  {
    if i < |lines| - 1 {
      LastAfterIs(lines[..|lines| - 1], prefix, i);
    }
  }

  lemma {:induction false} FirstAfterIs(lines: seq<string>, prefix: string, i: nat)
    requires i < |lines| && StartsWith(lines[i], prefix)
    requires forall j :: 0 <= j < i ==> !StartsWith(lines[j], prefix)
    ensures FirstAfter(lines, prefix) == Some(lines[i][|prefix|..])
  {
    if i < |lines| - 1 {
      FirstAfterIs(lines[..|lines| - 1], prefix, i);
    } else {
      NoneAfter(lines[..i], prefix);
    }
  }

  lemma {:induction false} NoneAfter(lines: seq<string>, prefix: string)
    requires NoneStarts(lines, prefix)
    ensures LastAfter(lines, prefix).None? && FirstAfter(lines, prefix).None?
  {
    if lines != [] {
      NoneAfter(lines[..|lines| - 1], prefix);
    }
  }

  lemma SideIsNamed(lines: seq<string>, rename: string, file: string, path: string)
    requires NamesSide(lines, rename, file, path)
    ensures SidePath(lines, rename, file) == Some(path)
  {
    if LastNames(lines, rename, path) {
      var i :| 0 <= i < |lines| && lines[i] == rename + path && forall j :: i < j < |lines| ==> !StartsWith(lines[j], rename);
      StartsAppended(rename, path);
      LastAfterIs(lines, rename, i);
    } else {
      var i :| 0 <= i < |lines| && lines[i] == file + path && forall j :: 0 <= j < i ==> !StartsWith(lines[j], file);
      StartsAppended(file, path);
      FirstAfterIs(lines, file, i);
      NoneAfter(lines, rename);
    }
  }

  lemma SideIsSilent(lines: seq<string>, rename: string, file: string)
    requires NoneStarts(lines, rename) && NoneStarts(lines, file)
    ensures SidePath(lines, rename, file).None?
  {
    NoneAfter(lines, rename);
    NoneAfter(lines, file);
  }

  /** The header is one, but holds no separator. */
  predicate HeaderBare(lines: seq<string>) {
    lines != [] && StartsWith(lines[0], "diff --git a/") && !Contains(lines[0][|"diff --git a/"|..], " b/")
  }

  /** Each side is what its own lines say, or else what the header says of it, if anything. */
  ghost predicate KnowsOld(lines: seq<string>, from: Option<string>) {
    match from
    case Some(path) => NamesOld(lines, path) || (SilentOld(lines) && exists b :: HeaderNames(lines, path, b))
    case None => SilentOld(lines) && HeaderBare(lines)
  }

  ghost predicate KnowsNew(lines: seq<string>, to: Option<string>) {
    match to
    case Some(path) => NamesNew(lines, path) || (SilentNew(lines) && exists a :: HeaderNames(lines, a, path))
    case None => SilentNew(lines) && HeaderBare(lines)
  }

  /** A change is reported unless its path is unknown or empty. */
  function Reported(path: Option<string>, kind: FileChangeKind, section: string): Result<FileChange> {
    if path.None? || path.value == [] then Err(NoPath) else Ok(FileChange(path.value, kind, section))
  }

  lemma HeaderSidesSplit(lines: seq<string>, from: string, to: string)
    requires HeaderNames(lines, from, to)
    ensures StartsWith(lines[0], HEADER_A) && RSplitOnce(lines[0][|HEADER_A|..], SEPARATOR) == Some((from, to))
  {
    HeaderSplits(from, to);
    HeaderRest(from + SEPARATOR + to);
    assert lines[0] == HEADER_A + (from + SEPARATOR + to);
  }

  lemma BareHeaderSplits(lines: seq<string>)
    requires HeaderBare(lines)
    ensures StartsWith(lines[0], HEADER_A) && RSplitOnce(lines[0][|HEADER_A|..], SEPARATOR).None?
  {
  }

  lemma OldIsKnown(lines: seq<string>, from: Option<string>)
    requires KnowsOld(lines, from)
    ensures var side := SidePath(lines, "rename from ", "--- a/");
      if side.Some? then from == side
      else && lines != [] && StartsWith(lines[0], HEADER_A)
           && (var split := RSplitOnce(lines[0][|HEADER_A|..], SEPARATOR);
               from == if split.Some? then Some(split.value.0) else None)
  {
    if from.Some? && NamesOld(lines, from.value) {
      SideIsNamed(lines, "rename from ", "--- a/", from.value);
    } else {
      SideIsSilent(lines, "rename from ", "--- a/");
      if from.Some? {
        var b :| HeaderNames(lines, from.value, b);
        HeaderSidesSplit(lines, from.value, b);
      } else {
        BareHeaderSplits(lines);
      }
    }
  }

  lemma NewIsKnown(lines: seq<string>, to: Option<string>)
    requires KnowsNew(lines, to)
    ensures var side := SidePath(lines, "rename to ", "+++ b/");
      if side.Some? then to == side
      else && lines != [] && StartsWith(lines[0], HEADER_A)
           && (var split := RSplitOnce(lines[0][|HEADER_A|..], SEPARATOR);
               to == if split.Some? then Some(split.value.1) else None)
  {
    if to.Some? && NamesNew(lines, to.value) {
      SideIsNamed(lines, "rename to ", "+++ b/", to.value);
    } else {
      SideIsSilent(lines, "rename to ", "+++ b/");
      if to.Some? {
        var a :| HeaderNames(lines, a, to.value);
        HeaderSidesSplit(lines, a, to.value);
      } else {
        BareHeaderSplits(lines);
      }
    }
  }

  /**
   * A section is reported by the two sides it names: created at the new one, deleted from the old
   * one, else renamed to the new one or modified there. An unknown new side gives way to the old.
   */
  lemma SectionIsReported(section: string, lines: seq<string>, from: Option<string>, to: Option<string>)
    requires lines == Lines(section) && KnowsOld(lines, from) && KnowsNew(lines, to)
    ensures ParseSection(section)
         == if MarkedCreated(lines) then Reported(if to.Some? then to else from, Create, section)
            else if MarkedDeleted(lines) then Reported(from, Delete, section)
            else Reported(if to.Some? then to else from, if from != to then Rename else Modify, section)
  {
    OldIsKnown(lines, from);
    NewIsKnown(lines, to);
  }

  /** A section that leaves a side to its header fails without one. */
  lemma HeaderlessFails(section: string, lines: seq<string>)
    requires lines == Lines(section) && (SilentOld(lines) || SilentNew(lines))
    requires lines == [] || !StartsWith(lines[0], "diff --git a/")
    ensures ParseSection(section) == Err(NoHeader)
  {
    if SilentOld(lines) {
      SideIsSilent(lines, "rename from ", "--- a/");
    } else {
      SideIsSilent(lines, "rename to ", "+++ b/");
    }
  }

  /** A renamed file is reported at its new path. */
  lemma RenameIsReported(section: string, lines: seq<string>, from: string, to: string)
    requires lines == Lines(section) && !MarkedCreated(lines) && !MarkedDeleted(lines)
    requires LastNames(lines, "rename from ", from) && LastNames(lines, "rename to ", to) && from != to && to != []
    ensures ParseSection(section) == Ok(FileChange(to, Rename, section))
  {
    SectionIsReported(section, lines, Some(from), Some(to));
  }

  /** A file named alike on both sides is modified. */
  lemma ModificationIsReported(section: string, lines: seq<string>, path: string)
    requires lines == Lines(section) && !MarkedCreated(lines) && !MarkedDeleted(lines) && path != []
    requires NoneStarts(lines, "rename from ") && FirstNames(lines, "--- a/", path)
    requires NoneStarts(lines, "rename to ") && FirstNames(lines, "+++ b/", path)
    ensures ParseSection(section) == Ok(FileChange(path, Modify, section))
  {
    SectionIsReported(section, lines, Some(path), Some(path));
  }

  /** A created file has only a new side in its body, and is reported there. */
  lemma CreationIsReported(section: string, lines: seq<string>, path: string, a: string, b: string)
    requires lines == Lines(section) && "--- /dev/null" in lines && path != []
    requires SilentOld(lines) && HeaderNames(lines, a, b)
    requires NoneStarts(lines, "rename to ") && FirstNames(lines, "+++ b/", path)
    ensures ParseSection(section) == Ok(FileChange(path, Create, section))
  {
    var i :| 0 <= i < |lines| && lines[i] == "--- /dev/null";
    SectionIsReported(section, lines, Some(a), Some(path));
  }

  /** A deleted file has only an old side in its body, and is reported there. */
  lemma DeletionIsReported(section: string, lines: seq<string>, path: string, a: string, b: string)
    requires lines == Lines(section) && "+++ /dev/null" in lines && !MarkedCreated(lines) && path != []
    requires SilentNew(lines) && HeaderNames(lines, a, b)
    requires NoneStarts(lines, "rename from ") && FirstNames(lines, "--- a/", path)
    ensures ParseSection(section) == Ok(FileChange(path, Delete, section))
  {
    var i :| 0 <= i < |lines| && lines[i] == "+++ /dev/null";
    SectionIsReported(section, lines, Some(path), Some(b));
  }
}
