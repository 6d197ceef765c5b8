/**
 * The stackFiles property: a list of "stack name,file name" lines.
 * MCStack::SetStackFiles parses it into the stack's entry array and
 * MCStack::GetStackFiles prints the array back. This module holds the
 * string functions both rest on (the first-occurrence search and the split
 * at a delimiter of the string library), the specification of the parse
 * (Parse) and of the printout (Format), and the lemmas relating them.
 */
module StackFiles {

  /** One entry of the stack's stackfiles array. */
  datatype StackFile = StackFile(stackname: string, filename: string)

  /**
   * The first index at or after `from` holding `c`, or |s| when there is
   * none: MCStringFirstIndexOfChar, with the caller's fallback to the length.
   */
  function FindChar(s: string, c: char, from: nat): (i: nat)
    requires from <= |s|
    ensures from <= i <= |s|
    ensures i < |s| ==> s[i] == c
    ensures forall j :: from <= j < i ==> s[j] != c
    decreases |s| - from
  {
    if from == |s| then |s|
    else if s[from] == c then from
    else FindChar(s, c, from + 1)
  }

  /** The first-occurrence conditions determine FindChar's result. */
  lemma {:induction false} FindCharUnique(s: string, c: char, from: nat, i: nat)
    requires from <= i <= |s|
    requires i < |s| ==> s[i] == c
    requires forall j :: from <= j < i ==> s[j] != c
    ensures FindChar(s, c, from) == i
    decreases i - from
  {
    if from < i {
      FindCharUnique(s, c, from + 1, i);
    }
  }

  /** In `a + [c] + b` with no `c` in `a`, the first `c` is at |a|. */
  lemma FindCharAfterPrefix(a: string, c: char, b: string)
    requires c !in a
    ensures FindChar(a + [c] + b, c, 0) == |a|
  {
    var s := a + [c] + b;
    forall j | 0 <= j < |a| ensures s[j] != c {
      assert s[j] == a[j];
    }
    FindCharUnique(s, c, 0, |a|);
  }

  /** A string without `c` is searched to its end. */
  lemma FindCharAbsent(s: string, c: char)
    requires c !in s
    ensures FindChar(s, c, 0) == |s|
  {
    FindCharUnique(s, c, 0, |s|);
  }

  /**
   * MCStringDivideAtChar: the part before the first `c` and the part after
   * it; without a `c`, the whole string and an empty tail.
   */
  function DivideAtChar(s: string, c: char): (r: (string, string))
    ensures c !in r.0
    ensures c in s ==> s == r.0 + [c] + r.1
    ensures c !in s ==> r.0 == s && r.1 == []
  {
    var i := FindChar(s, c, 0);
    if i == |s| then (s, []) else (s[..i], s[i + 1..])
  }

  /** The lines of `s`: the pieces between newline characters, in order. */
  function Lines(s: string): (r: seq<string>)
    ensures |r| >= 1
    decreases |s|
  {
    var i := FindChar(s, '\n', 0);
    if i == |s| then [s] else [s[..i]] + Lines(s[i + 1..])
  }

  /** No line holds a newline. */
  lemma {:induction false} LinesHaveNoNewline(s: string)
    ensures forall l :: l in Lines(s) ==> '\n' !in l
    decreases |s|
  {
    var i := FindChar(s, '\n', 0);
    NoNewlineBefore(s, 0);
    assert s[0..i] == s[..i];
    if i < |s| {
      LinesHaveNoNewline(s[i + 1..]);
    } else {
      assert s[..i] == s;
    }
  }

  /** The entry one line contributes: none unless its file part is non-empty. */
  function LineEntry(line: string): seq<StackFile> {
    var (stackname, filename) := DivideAtChar(line, ',');
    if |filename| == 0 then [] else [StackFile(stackname, filename)]
  }

  function ParseLines(lines: seq<string>): seq<StackFile> {
    if lines == [] then [] else LineEntry(lines[0]) + ParseLines(lines[1..])
  }

  /** The entries SetStackFiles stores for the property value `s`. */
  function Parse(s: string): seq<StackFile> {
    ParseLines(Lines(s))
  }

  /** One entry printed as "stackname,filename". */
  function FormatEntry(e: StackFile): string {
    e.stackname + [','] + e.filename
  }

  /** The value GetStackFiles returns: the printed entries joined by newlines. */
  function Format(entries: seq<StackFile>): string {
    if entries == [] then []
    else if |entries| == 1 then FormatEntry(entries[0])
    else FormatEntry(entries[0]) + ['\n'] + Format(entries[1..])
  }

  /** An entry that prints to a line the parser reads back as itself. */
  predicate WellFormed(e: StackFile) {
    ',' !in e.stackname && '\n' !in e.stackname && '\n' !in e.filename && |e.filename| > 0
  }

  // ---- lemmas ----

  lemma {:induction false} ParseLinesAppend(a: seq<string>, b: seq<string>)
    ensures ParseLines(a + b) == ParseLines(a) + ParseLines(b)
  {
    if a != [] {
      assert (a + b)[1..] == a[1..] + b;
      ParseLinesAppend(a[1..], b);
    } else {
      assert a + b == b;
    }
  }

  /** Text without a newline is a single line. */
  lemma ParseSingleLine(t: string)
    requires '\n' !in t
    ensures Parse(t) == LineEntry(t)
  {
    FindCharAbsent(t, '\n');
    assert Lines(t) == [t];
    assert [t][1..] == [];
    assert ParseLines([t]) == LineEntry(t) + ParseLines([]);
  }

  /** Text made of a first line, a newline and more text parses line by line. */
  lemma ParseFirstLine(line: string, rest: string)
    requires '\n' !in line
    ensures Parse(line + ['\n'] + rest) == LineEntry(line) + Parse(rest)
  {
    var t := line + ['\n'] + rest;
    FindCharAfterPrefix(line, '\n', rest);
    assert t[..|line|] == line;
    assert t[|line| + 1..] == rest;
    assert Lines(t) == [line] + Lines(rest);
    ParseLinesAppend([line], Lines(rest));
    assert [line][1..] == [];
  }

  /** The text between `off` and the next newline holds no newline. */
  lemma NoNewlineBefore(s: string, off: nat)
    requires off <= |s|
    ensures '\n' !in s[off..FindChar(s, '\n', off)]
  {
    var nl := FindChar(s, '\n', off);
    var line := s[off..nl];
    forall j | 0 <= j < |line| ensures line[j] != '\n' {
      assert line[j] == s[off + j];
    }
  }

  /**
   * One step of the parse loop, a newline found at `nl`: the entries of the
   * text from `off` are the entry of the line up to `nl`, then the entries
   * of the text after it.
   */
  lemma ParseStepAtNewline(s: string, off: nat, nl: nat)
    requires off <= nl < |s| && nl == FindChar(s, '\n', off)
    ensures Parse(s[off..]) == LineEntry(s[off..nl]) + Parse(s[nl + 1..])
  {
    var line := s[off..nl];
    NoNewlineBefore(s, off);
    assert s[off..] == line + ['\n'] + s[nl + 1..];
    ParseFirstLine(line, s[nl + 1..]);
  }

  /** The last step of the parse loop: no newline after `off`, one line left. */
  lemma ParseStepAtEnd(s: string, off: nat)
    requires off <= |s| && FindChar(s, '\n', off) == |s|
    ensures Parse(s[off..]) == LineEntry(s[off..])
  {
    NoNewlineBefore(s, off);
    ParseSingleLine(s[off..]);
  }

  /** Sequence concatenation is associative. */
  lemma AppendAssoc<T>(a: seq<T>, b: seq<T>, c: seq<T>)
    ensures (a + b) + c == a + (b + c)
  {
  }

  /** An empty line contributes no entry. */
  lemma EmptyLineHasNoEntry()
    ensures LineEntry([]) == []
  {
    assert DivideAtChar([], ',') == ([], []);
  }

  /** The parse loop's invariant: `acc` and the entries of the text from `off` on make up `whole`. */
  predicate Collected(s: string, off: nat, acc: seq<StackFile>, whole: seq<StackFile>)
    requires off <= |s|
  {
    acc + Parse(s[off..]) == whole
  }

  /** Before the parse loop nothing is collected and everything is left. */
  lemma CollectedStart(s: string)
    ensures Collected(s, 0, [], Parse(s))
  {
    assert s[0..] == s;
    assert [] + Parse(s) == Parse(s);
  }

  /**
   * One pass of the parse loop keeps its invariant: `acc` holds the entries
   * of the text before `off`, and `next` adds the entry of the line that
   * ends at the next newline `nl`.
   */
  lemma ParseStep(s: string, off: nat, nl: nat, acc: seq<StackFile>, next: seq<StackFile>, whole: seq<StackFile>)
    requires off <= |s| && nl == FindChar(s, '\n', off)
    requires Collected(s, off, acc, whole)
    requires next == acc + LineEntry(s[off..nl])
    ensures nl < |s| ==> Collected(s, nl + 1, next, whole)
    ensures nl == |s| ==> next == whole
  {
    if nl < |s| {
      ParseStepAtNewline(s, off, nl);
      AppendAssoc(acc, LineEntry(s[off..nl]), Parse(s[nl + 1..]));
    } else {
      ParseStepAtEnd(s, off);
      assert s[off..nl] == s[off..];
    }
  }

  /**
   * One pass of the parse loop's body: a non-empty line is divided at its
   * first comma and yields an entry when the part after the comma is
   * non-empty.
   */
  method ParseLine(line: string) returns (entries: seq<StackFile>)
    ensures entries == LineEntry(line)
  {
    entries := [];
    if |line| > 0 {
      var (stackName, fileName) := DivideAtChar(line, ',');
      if |fileName| != 0 {
        entries := [StackFile(stackName, fileName)];
      }
    } else {
      EmptyLineHasNoEntry();
    }
  }

  /**
   * The parse loop of SetStackFiles: each line up to the next newline that
   * holds a comma with a non-empty file part after it becomes one entry.
   */
  method ParseStackFiles(files: string) returns (newsf: seq<StackFile>)
    ensures newsf == Parse(files)
  {
    newsf := [];
    var oldOffset: nat := 0;
    var length := |files|;
    ghost var whole := Parse(files);
    CollectedStart(files);
    while oldOffset <= length
      invariant oldOffset <= length + 1
      invariant oldOffset <= length ==> Collected(files, oldOffset, newsf, whole)
      invariant oldOffset == length + 1 ==> newsf == whole
      decreases length + 1 - oldOffset
    {
      var newOffset := FindChar(files, '\n', oldOffset);
      var line := files[oldOffset..newOffset];
      ghost var before := newsf;
      var entries := ParseLine(line);
      newsf := newsf + entries;
      ParseStep(files, oldOffset, newOffset, before, newsf, whole);
      oldOffset := newOffset + 1;
    }
  }

  /** A well-formed entry's line parses to exactly that entry. */
  lemma LineEntryOfFormat(e: StackFile)
    requires WellFormed(e)
    ensures LineEntry(FormatEntry(e)) == [e]
  {
    FindCharAfterPrefix(e.stackname, ',', e.filename);
    assert FormatEntry(e)[..|e.stackname|] == e.stackname;
    assert FormatEntry(e)[|e.stackname| + 1..] == e.filename;
  }

  /** Round trip: parsing what GetStackFiles prints gives back the entries. */
  lemma {:induction false} ParseFormat(entries: seq<StackFile>)
    requires forall e :: e in entries ==> WellFormed(e)
    ensures Parse(Format(entries)) == entries
  {
    if entries == [] {
      assert Lines([]) == [[]];
      assert DivideAtChar([], ',') == ([], []);
    } else {
      var e := entries[0];
      assert e in entries;
      var line := FormatEntry(e);
      assert line == e.stackname + [','] + e.filename;
      assert '\n' !in [','];
      assert '\n' !in line;
      LineEntryOfFormat(e);
      if |entries| == 1 {
        ParseSingleLine(line);
        assert entries == [e];
      } else {
        ParseFirstLine(line, Format(entries[1..]));
        assert entries == [e] + entries[1..];
        ParseFormat(entries[1..]);
      }
    }
  }

  lemma {:induction false} ParseLinesWellFormed(lines: seq<string>)
    requires forall l :: l in lines ==> '\n' !in l
    ensures forall e :: e in ParseLines(lines) ==> WellFormed(e)
  {
    if lines != [] {
      var (stackname, filename) := DivideAtChar(lines[0], ',');
      assert '\n' !in lines[0];
      if ',' in lines[0] {
        assert lines[0] == stackname + [','] + filename;
        assert '\n' !in stackname && '\n' !in filename;
      }
      assert forall e :: e in LineEntry(lines[0]) ==> WellFormed(e);
      assert forall l :: l in lines[1..] ==> l in lines;
      ParseLinesWellFormed(lines[1..]);
    }
  }

  /** Every entry the parser stores prints to a line it reads back. */
  lemma ParseWellFormed(s: string)
    ensures forall e :: e in Parse(s) ==> WellFormed(e)
  {
    LinesHaveNoNewline(s);
    ParseLinesWellFormed(Lines(s));
  }

  /** Parsing is idempotent through the printout. */
  lemma ParseFormatParse(s: string)
    ensures Parse(Format(Parse(s))) == Parse(s)
  {
    ParseWellFormed(s);
    ParseFormat(Parse(s));
  }

  lemma {:induction false} ParseLinesFromLines(lines: seq<string>)
    ensures forall e :: e in ParseLines(lines) ==> FormatEntry(e) in lines
  {
    if lines != [] {
      var (stackname, filename) := DivideAtChar(lines[0], ',');
      if |filename| != 0 {
        assert lines[0] == stackname + [','] + filename;
      }
      ParseLinesFromLines(lines[1..]);
    }
  }

  /** Every stored entry is one line of the property value, split at its first comma. */
  lemma ParseEntriesAreLines(s: string)
    ensures forall e :: e in Parse(s) ==> FormatEntry(e) in Lines(s)
  {
    ParseLinesFromLines(Lines(s));
  }

  /** Printing one more entry appends a newline and that entry's line. */
  lemma {:induction false} FormatSnoc(entries: seq<StackFile>, e: StackFile)
    ensures Format(entries + [e]) ==
      if entries == [] then FormatEntry(e) else Format(entries) + ['\n'] + FormatEntry(e)
  {
    var all := entries + [e];
    if |entries| >= 2 {
      var head := FormatEntry(entries[0]) + ['\n'];
      var tail := Format(entries[1..]);
      assert all[0] == entries[0];
      assert all[1..] == entries[1..] + [e];
      FormatSnoc(entries[1..], e);
      assert Format(all) == head + (tail + ['\n'] + FormatEntry(e));
      assert Format(entries) == head + tail;
      AppendAssoc(head, tail, ['\n'] + FormatEntry(e));
      AppendAssoc(tail, ['\n'], FormatEntry(e));
      AppendAssoc(head + tail, ['\n'], FormatEntry(e));
    } else if |entries| == 1 {
      assert all[0] == entries[0];
      assert all[1..] == [e];
    } else {
      assert all == [e];
    }
  }
}
