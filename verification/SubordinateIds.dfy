/** Allocating a range of subordinate ids for a user (pkg/storage/unpriv-setup.go:26-76): a file of
    lines `name:start:size`, to which a range above all others is appended. */
module SubordinateIds {
  import opened Text
  import opened Wrappers

  const FIRST := 100 * 1000
  const SIZE := 65536

  datatype Entry = Entry(name: string, start: int, size: int)

  // Go's int has 64 bits and wraps around.
  function Wrap(x: int): int {
    (x + MAX_INT + 1) % (2 * (MAX_INT + 1)) - MAX_INT - 1
  }

  // ----- what the code computes -----

  datatype Scan = Bad | Present | Highest(end: int)

  function ParseEntry(line: string): Option<Entry> {
    var parts := Split(line, ':');
    if |parts| != 3 then None
    else
      match (Atoi(parts[1]), Atoi(parts[2]))
      case (Some(start), Some(size)) => Some(Entry(parts[0], start, size))
      case _ => None
  }

  function ScanLine(s: Scan, line: string, name: string): Scan {
    if !s.Highest? || line == "" then s
    else if Split(line, ':')[0] == name then Present
    else
      match ParseEntry(line)
      case None => Bad
      case Some(e) => Highest(if Wrap(e.start + e.size) > s.end then Wrap(e.start + e.size) else s.end)
  }

  function ScanLines(lines: seq<string>, name: string): Scan {
    if lines == [] then Highest(FIRST)
    else ScanLine(ScanLines(lines[..|lines| - 1], name), lines[|lines| - 1], name)
  }

  /** The range must not hold the current id. */
  function Start(end: int, currentId: int): int {
    if end <= currentId < Wrap(end + SIZE) then Wrap(end + SIZE) else end
  }

  function Show(start: int): string {
    if start < 0 then "-" + Itoa(-start) else Itoa(start)
  }

  function Line(name: string, start: int): string {
    name + ":" + Show(start) + ":" + Itoa(SIZE)
  }

  function AddSpecificEntries(content: string, name: string, currentId: int): Result<string> {
    match ScanLines(Split(content, '\n'), name)
    case Bad => Err
    case Present => Ok(content)
    case Highest(end) => Ok(content + Line(name, Start(end, currentId)) + "\n")
  }

  /** The scan over the lines, which stops at a malformed line or at the name. */
  method ScanAll(lines: seq<string>, name: string) returns (s: Scan)
    ensures s == ScanLines(lines, name)
  {
    var maxAlloc := 100 * 1000;
    for i := 0 to |lines|
      invariant ScanLines(lines[..i], name) == Highest(maxAlloc)
    {
      ScanNext(lines, i, name);
      var line := lines[i];
      if line != "" {
        var parts := Split(line, ':');
        var entry := ParseEntry(line);
        if parts[0] == name || entry.None? {
          ScanEnds(lines, i + 1, name);
          return if parts[0] == name then Present else Bad;
        }
        var end := Wrap(entry.value.start + entry.value.size);
        if end > maxAlloc {
          maxAlloc := end;
        }
      }
    }
    assert lines[..|lines|] == lines;
    return Highest(maxAlloc);
  }

  method AddEntries(content: string, name: string, currentId: int) returns (r: Result<string>)
    ensures r == AddSpecificEntries(content, name, currentId)
  {
    var found := ScanAll(Split(content, '\n'), name);
    match found {
      case Bad => return Err;
      case Present => return Ok(content);
      case Highest(end) =>
        var maxAlloc := end;
        if maxAlloc <= currentId && currentId < Wrap(maxAlloc + 65536) {
          maxAlloc := Wrap(maxAlloc + 65536);
        }
        return Ok(content + Line(name, maxAlloc) + "\n");
    }
  }

  lemma ScanNext(lines: seq<string>, i: nat, name: string)
    requires i < |lines|
    ensures ScanLines(lines[..i + 1], name) == ScanLine(ScanLines(lines[..i], name), lines[i], name)
  {
    assert lines[..i + 1][..i] == lines[..i];
  }

  lemma {:induction false} ScanEnds(lines: seq<string>, i: nat, name: string)
    requires i <= |lines| && !ScanLines(lines[..i], name).Highest?
    ensures ScanLines(lines, name) == ScanLines(lines[..i], name)
    decreases |lines|
  {
    if i < |lines| {
      assert lines[..|lines| - 1][..i] == lines[..i];
      ScanEnds(lines[..|lines| - 1], i, name);
    } else {
      assert lines[..i] == lines;
    }
  }

  // ----- what the file means -----

  function Entries(lines: seq<string>): Option<seq<Entry>> {
    if lines == [] then Some([])
    else
      match Entries(lines[..|lines| - 1])
      case None => None
      case Some(es) =>
        var line := lines[|lines| - 1];
        if line == "" then Some(es)
        else
          match ParseEntry(line)
          case None => None
          case Some(e) => Some(es + [e])
  }

  function Parse(content: string): Option<seq<Entry>> {
    Entries(Split(content, '\n'))
  }

  predicate Terminated(content: string) {
    content == "" || content[|content| - 1] == '\n'
  }

  predicate Named(es: seq<Entry>, name: string) {
    exists e <- es :: e.name == name
  }

  predicate PlainName(name: string) {
    ':' !in name && '\n' !in name
  }

  /** No start or size is negative, and the ranges end low enough for room more ranges. */
  predicate Fits(es: seq<Entry>, room: nat) {
    forall e <- es :: 0 <= e.start && 0 <= e.size && e.start + e.size + 2 * SIZE * room <= MAX_INT
  }

  predicate Apart(a: Entry, b: Entry) {
    a.start + a.size <= b.start || b.start + b.size <= a.start
  }

  predicate Disjoint(es: seq<Entry>) {
    forall i, j :: 0 <= i < j < |es| ==> Apart(es[i], es[j])
  }

  predicate Holds(e: Entry, id: int) {
    e.start <= id < e.start + e.size
  }

  // ----- scanning a file that parses -----

  predicate IsHighest(es: seq<Entry>, end: int) {
    && end >= FIRST && (forall e <- es :: e.start + e.size <= end)
    && (end == FIRST || exists e <- es :: e.start + e.size == end)
  }

  predicate Scanned(es: seq<Entry>, s: Scan, name: string) {
    if Named(es, name) then s == Present else s.Highest? && IsHighest(es, s.end)
  }

  lemma NamedLast(es: seq<Entry>, e: Entry, name: string)
    ensures Named(es + [e], name) <==> Named(es, name) || e.name == name
  {
    if Named(es, name) {
      var x :| x in es && x.name == name;
      assert x in es + [e];
    }
    assert e in es + [e];
  }

  lemma HighestLast(es: seq<Entry>, e: Entry, end: int)
    requires IsHighest(es, end)
    ensures IsHighest(es + [e], if e.start + e.size > end then e.start + e.size else end)
  {
    var all := es + [e];
    if e.start + e.size > end {
      assert e in all;
    } else if end != FIRST {
      var x :| x in es && x.start + x.size == end;
      assert x in all;
    }
  }

  lemma ScanStep(es: seq<Entry>, s: Scan, line: string, name: string)
    requires Scanned(es, s, name) && line != "" && ParseEntry(line).Some?
    requires Fits([ParseEntry(line).value], 1)
    ensures Scanned(es + [ParseEntry(line).value], ScanLine(s, line, name), name)
  {
    var e := ParseEntry(line).value;
    NamedLast(es, e, name);
    assert e in [e];
    assert Wrap(e.start + e.size) == e.start + e.size;
    assert Split(line, ':')[0] == e.name;
    if s.Highest? {
      HighestLast(es, e, s.end);
    }
  }

  lemma {:induction false} ScanParsed(lines: seq<string>, name: string)
    requires Entries(lines).Some? && Fits(Entries(lines).value, 1)
    ensures Scanned(Entries(lines).value, ScanLines(lines, name), name)
  {
    if lines != [] {
      var before, line := lines[..|lines| - 1], lines[|lines| - 1];
      var es := Entries(before).value;
      assert forall e <- es :: e in Entries(lines).value;
      ScanParsed(before, name);
      if line != "" {
        assert ParseEntry(line).value in es + [ParseEntry(line).value];
        ScanStep(es, ScanLines(before, name), line, name);
      }
    }
  }

  // ----- the line that is added -----

  lemma NoSeparators(start: nat)
    ensures ':' !in Show(start) && '\n' !in Show(start) && ':' !in Itoa(SIZE) && '\n' !in Itoa(SIZE)
  {
    forall c | c in Show(start) || c in Itoa(SIZE) ensures c != ':' && c != '\n' {
      assert IsDigit(c);
    }
  }

  lemma FirstPart(a: string, sep: char)
    requires sep !in a
    ensures Split(a + [sep], sep) == [a] + [""]
  {
    assert "" + a == a;
    SplitAppends("", a, sep);
    SplitAtEnd(a, sep);
  }

  lemma LastPart(head: string, before: seq<string>, c: string, sep: char)
    requires Split(head, sep) == before + [""] && sep !in c
    ensures Split(head + c, sep) == before + [c]
  {
    SplitAppends(head, c, sep);
    assert "" + c == c;
  }

  lemma ThreeParts(a: string, b: string, c: string, sep: char)
    requires sep !in a && sep !in b && sep !in c
    ensures Split(a + [sep] + b + [sep] + c, sep) == [a, b, c]
  {
    FirstPart(a, sep);
    SplitOneMore(a + [sep], [a], b, sep);
    LastPart(a + [sep] + b + [sep], [a] + [b], c, sep);
    assert [a] + [b] + [c] == [a, b, c];
  }

  lemma LineParts(name: string, start: nat)
    requires PlainName(name)
    ensures Split(Line(name, start), ':') == [name, Show(start), Itoa(SIZE)]
  {
    NoSeparators(start);
    ThreeParts(name, Show(start), Itoa(SIZE), ':');
  }

  lemma LineParses(name: string, start: nat)
    requires PlainName(name) && start <= MAX_INT
    ensures ParseEntry(Line(name, start)) == Some(Entry(name, start, SIZE))
  {
    LineParts(name, start);
    AtoiOfItoa(start);
    AtoiOfItoa(SIZE);
  }

  lemma LineHasNoNewline(name: string, start: nat)
    requires PlainName(name)
    ensures '\n' !in Line(name, start) && Line(name, start) != ""
  {
    NoSeparators(start);
  }

  lemma TerminatedLines(content: string)
    requires Terminated(content)
    ensures var ls := Split(content, '\n'); ls == ls[..|ls| - 1] + [""]
  {
  }

  /** On a file that ends its last line, the new line is read back as one more entry. */
  lemma AppendedParses(content: string, name: string, start: nat)
    requires Terminated(content) && Parse(content).Some? && PlainName(name) && start <= MAX_INT
    ensures Terminated(content + Line(name, start) + "\n")
    ensures Parse(content + Line(name, start) + "\n") == Some(Parse(content).value + [Entry(name, start, SIZE)])
  {
    var ls, line := Split(content, '\n'), Line(name, start);
    var before := ls[..|ls| - 1];
    TerminatedLines(content);
    LineHasNoNewline(name, start);
    SplitOneMore(content, before, line, '\n');
    var more := before + [line] + [""];
    assert more[..|more| - 1] == before + [line] && (before + [line])[..|before|] == before;
    assert Entries(ls) == Entries(before);
    LineParses(name, start);
    assert Entries(before + [line]) == Some(Entries(before).value + [Entry(name, start, SIZE)]);
  }

  lemma EndFits(es: seq<Entry>, end: int, room: nat)
    requires room >= 1 && Fits(es, room) && FIRST + 2 * SIZE * room <= MAX_INT && IsHighest(es, end)
    ensures end + 2 * SIZE * room <= MAX_INT && Wrap(end + SIZE) == end + SIZE
  {
  }

  /** What an added range has to be. */
  predicate Fresh(es: seq<Entry>, added: Entry, currentId: int) {
    added.size == SIZE && added.start >= FIRST && !Holds(added, currentId) && forall e <- es :: Apart(e, added)
  }

  lemma StartIsFresh(es: seq<Entry>, name: string, end: int, currentId: int)
    requires Fits(es, 1) && IsHighest(es, end)
    ensures Fresh(es, Entry(name, Start(end, currentId), SIZE), currentId)
    ensures end <= Start(end, currentId) <= end + SIZE
  {
    EndFits(es, end, 1);
  }

  /** A new name is given a range that lies apart from every range in the file and does not hold the
      current id; the file still parses, with that one entry more. */
  lemma NewRangeIsDisjoint(content: string, name: string, currentId: int)
    requires Terminated(content) && PlainName(name) && Parse(content).Some?
    requires Fits(Parse(content).value, 1) && !Named(Parse(content).value, name)
    ensures var es, r := Parse(content).value, AddSpecificEntries(content, name, currentId);
      && r.Ok? && Terminated(r.value) && Parse(r.value).Some?
      && exists added :: Parse(r.value).value == es + [added] && added.name == name && Fresh(es, added, currentId)
  {
    var es := Parse(content).value;
    ScanParsed(Split(content, '\n'), name);
    var end := ScanLines(Split(content, '\n'), name).end;
    StartIsFresh(es, name, end, currentId);
    EndFits(es, end, 1);
    AppendedParses(content, name, Start(end, currentId));
  }

  /** The end of the file matters: appended to a last line that is not ended, the new line is lost in
      it and the file no longer parses. */
  lemma AppendNeedsTerminatedFile(content: string, name: string, start: nat)
    requires Parse(content).Some? && PlainName(name) && start <= MAX_INT
    ensures Parse(content + Line(name, start) + "\n").Some? <==> Terminated(content)
  {
    if Terminated(content) {
      AppendedParses(content, name, start);
    } else {
      MergedLine(content, name, start);
    }
  }

  lemma LastLine(content: string)
    requires !Terminated(content) && Parse(content).Some?
    ensures var ls := Split(content, '\n'); ls[|ls| - 1] != "" && ParseEntry(ls[|ls| - 1]).Some?
  {
  }

  lemma MergedFields(last: string, name: string, start: nat)
    requires |Split(last, ':')| == 3 && PlainName(name)
    ensures |Split(last + Line(name, start), ':')| == 5
  {
    NoSeparators(start);
    SplitAppends(last, name, ':');
    SplitAtEnd(last + name, ':');
    SplitAppends(last + name + ":", Show(start), ':');
    SplitAtEnd(last + name + ":" + Show(start), ':');
    SplitAppends(last + name + ":" + Show(start) + ":", Itoa(SIZE), ':');
    SameText(last, name, ":", Show(start), Itoa(SIZE));
  }

  lemma SameText(a: string, b: string, c: string, d: string, e: string)
    ensures a + (b + c + d + c + e) == a + b + c + d + c + e
  {
  }

  lemma {:induction false} EntriesFail(lines: seq<string>, last: string)
    requires last != "" && ParseEntry(last).None?
    ensures Entries(lines + [last] + [""]).None?
  {
    var most := lines + [last];
    assert (most + [""])[..|most|] == most && most[..|lines|] == lines;
  }

  lemma MergedLine(content: string, name: string, start: nat)
    requires !Terminated(content) && Parse(content).Some? && PlainName(name) && start <= MAX_INT
    ensures Parse(content + Line(name, start) + "\n").None?
  {
    var ls, line := Split(content, '\n'), Line(name, start);
    var last := ls[|ls| - 1];
    LastLine(content);
    LineHasNoNewline(name, start);
    SplitAppends(content, line, '\n');
    SplitAtEnd(content + line, '\n');
    MergedFields(last, name, start);
    EntriesFail(ls[..|ls| - 1], last + line);
  }

  // ----- many calls -----

  datatype Call = Call(name: string, currentId: int)

  function Calls(content: string, calls: seq<Call>): Result<string> {
    if calls == [] then Ok(content)
    else
      var before :- Calls(content, calls[..|calls| - 1]);
      var call := calls[|calls| - 1];
      AddSpecificEntries(before, call.name, call.currentId)
  }

  /** The file parses, its ranges are disjoint, and there is room for that many more. */
  predicate Sound(content: string, room: nat) {
    && Terminated(content) && Parse(content).Some? && Disjoint(Parse(content).value)
    && Fits(Parse(content).value, room) && FIRST + 2 * SIZE * room <= MAX_INT
  }

  lemma DisjointLast(es: seq<Entry>, e: Entry)
    requires Disjoint(es) && forall x <- es :: Apart(x, e)
    ensures Disjoint(es + [e])
  {
    forall i, j | 0 <= i < j < |es| + 1 ensures Apart((es + [e])[i], (es + [e])[j]) {
      if j == |es| {
        assert es[i] in es;
      }
    }
  }

  lemma CallKeepsSound(content: string, name: string, currentId: int, room: nat)
    requires room >= 1 && Sound(content, room) && PlainName(name)
    ensures AddSpecificEntries(content, name, currentId).Ok?
    ensures Sound(AddSpecificEntries(content, name, currentId).value, room - 1)
  {
    var es := Parse(content).value;
    assert Fits(es, 1);
    ScanParsed(Split(content, '\n'), name);
    if !Named(es, name) {
      var end := ScanLines(Split(content, '\n'), name).end;
      EndFits(es, end, room);
      StartIsFresh(es, name, end, currentId);
      AppendedParses(content, name, Start(end, currentId));
      DisjointLast(es, Entry(name, Start(end, currentId), SIZE));
    }
  }

  /** Any calls, in any order and for any names, keep the ranges of the file disjoint. */
  lemma {:induction false} CallsKeepRangesDisjoint(content: string, calls: seq<Call>, room: nat)
    requires Sound(content, room) && |calls| <= room && forall c <- calls :: PlainName(c.name)
    ensures Calls(content, calls).Ok? && Sound(Calls(content, calls).value, room - |calls|)
  {
    if calls != [] {
      var before, call := calls[..|calls| - 1], calls[|calls| - 1];
      assert call in calls;
      CallsKeepRangesDisjoint(content, before, room);
      CallKeepsSound(Calls(content, before).value, call.name, call.currentId, room - |before|);
    }
  }

  /** For a name that has a range nothing changes. */
  lemma SecondCallChangesNothing(content: string, name: string, currentId: int)
    requires Parse(content).Some? && Fits(Parse(content).value, 1) && Named(Parse(content).value, name)
    ensures AddSpecificEntries(content, name, currentId) == Ok(content)
  {
    ScanParsed(Split(content, '\n'), name);
  }
}
