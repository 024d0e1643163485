/** The TLE text filters (dtc.py): scan a list of lines for a name line that passes a
    filter, followed (possibly after other lines) by a line starting "1 " and then a line
    starting "2 ", and copy each such triple out, stripped and newline-terminated. The
    DTC filters look for the "[DTC]" tag in the name; the X2 filters look the stripped
    name up in a target set. The file and streaming variants differ only in where the
    lines come from; writing the output file is not part of this model, the returned flag
    says whether it would be written. */
module Dtc {
  import opened Common
  import opened Text

  /** How a name line is recognised: by a tag it contains (the DTC filters), or by its
      stripped text being one of a set of names (the X2 filters). */
  datatype NameFilter = Tagged(tag: string) | Targets(names: set<string>)

  /** The filter of filter_dtc_satellites and its streaming variant. */
  const DtcFilter: NameFilter := Tagged("[DTC]")

  /** Whether a stripped, non-empty line names a wanted satellite. (The X2 filters strip
      the line once more before the lookup; on a stripped line that changes nothing, see
      Text.StripIdempotent.) */
  predicate Selects(filter: NameFilter, line: string)
  {
    match filter
    case Tagged(tag) => Contains(line, tag)
    case Targets(names) => line in names
  }

  /** The lines as the scan sees them, each stripped. */
  function StripAll(lines: seq<string>): (ls: seq<string>)
    ensures |ls| == |lines|
  {
    if lines == [] then [] else [Strip(lines[0])] + StripAll(lines[1..])
  }

  /** Line `m` as the scan sees it is line `m` stripped. */
  lemma {:induction false} StripAllAt(lines: seq<string>, m: nat)
    requires m < |lines|
    ensures StripAll(lines)[m] == Strip(lines[m])
  {
    if m > 0 {
      StripAllAt(lines[1..], m - 1);
    }
  }

  /** A TLE line numbered `c`: the digit followed by a space. */
  predicate TleLine(s: string, c: char) { |s| >= 2 && s[0] == c && s[1] == ' ' }

  lemma TleLineStartsWith(s: string, c: char)
    ensures TleLine(s, c) <==> StartsWith(s, [c, ' '])
  {
    if |s| >= 2 {
      assert s[..2] == [s[0], s[1]];
    }
  }

  /** Index of the first (stripped) line at or after `from` that is TLE line `c`; at least
      |ls| when there is none. Other lines, blank or not, are passed over. */
  function FindLine(ls: seq<string>, from: nat, c: char): (r: nat)
    ensures from <= r
    ensures r < |ls| ==> TleLine(ls[r], c)
    ensures r >= |ls| ==> r == if from >= |ls| then from else |ls|
    ensures forall m :: from <= m < r && m < |ls| ==> !TleLine(ls[m], c)
    decreases |ls| - from
  {
    if from >= |ls| then from
    else if TleLine(ls[from], c) then from
    else FindLine(ls, from + 1, c)
  }

  /** Every line skipped between `from` and `at` is not TLE line `c`, so the search from
      `from` ends where the search from `at` does. */
  lemma {:induction false} FindLineSkip(ls: seq<string>, from: nat, at: nat, c: char)
    requires from <= at <= |ls|
    requires forall m :: from <= m < at ==> !TleLine(ls[m], c)
    ensures FindLine(ls, from, c) == FindLine(ls, at, c)
    decreases at - from
  {
    if from < at {
      FindLineSkip(ls, from + 1, at, c);
    }
  }

  /** Positions of one complete record: name line, TLE line 1, TLE line 2. */
  datatype Group = Group(nameAt: nat, line1At: nat, line2At: nat)

  predicate GroupAt(ls: seq<string>, filter: NameFilter, g: Group)
  {
    && g.nameAt < g.line1At < g.line2At < |ls|
    && ls[g.nameAt] != []
    && Selects(filter, ls[g.nameAt])
    && TleLine(ls[g.line1At], '1')
    && TleLine(ls[g.line2At], '2')
  }

  /** `gs` is a run of complete records in input order: the first name line is at or
      after `from`, and each record ends before the next one's name line. */
  predicate Records(ls: seq<string>, filter: NameFilter, from: nat, gs: seq<Group>)
    decreases |gs|
  {
    gs == [] ||
    (from <= gs[0].nameAt && GroupAt(ls, filter, gs[0]) && Records(ls, filter, gs[0].line2At + 1, gs[1..]))
  }

  /** The m-th record of such a run is complete, and ends before the next one starts. */
  lemma {:induction false} RecordsAt(ls: seq<string>, filter: NameFilter, from: nat, gs: seq<Group>, m: nat)
    requires Records(ls, filter, from, gs) && m < |gs|
    ensures from <= gs[m].nameAt && GroupAt(ls, filter, gs[m])
    ensures m + 1 < |gs| ==> gs[m].line2At < gs[m + 1].nameAt
    decreases m
  {
    if m > 0 {
      RecordsAt(ls, filter, gs[0].line2At + 1, gs[1..], m - 1);
    }
  }

  /** The records the scan finds in the stripped lines from line `i` on. After a complete
      record the scan resumes after its second TLE line; a name line without both TLE lines
      after it advances the scan by one line only. */
  function Groups(ls: seq<string>, filter: NameFilter, i: nat): (gs: seq<Group>)
    decreases |ls| - i
  {
    if i >= |ls| then []
    else if ls[i] == [] || !Selects(filter, ls[i]) then Groups(ls, filter, i + 1)
    else
      var j := FindLine(ls, i + 1, '1');
      var k := FindLine(ls, j + 1, '2');
      if j < |ls| && k < |ls| then [Group(i, j, k)] + Groups(ls, filter, k + 1)
      else Groups(ls, filter, i + 1)
  }

  /** A complete record at `i`: the records found from `i` on are it, then those found
      after its TLE line 2. */
  lemma GroupsHit(ls: seq<string>, filter: NameFilter, i: nat, j: nat, k: nat)
    requires i < |ls| && ls[i] != [] && Selects(filter, ls[i])
    requires j == FindLine(ls, i + 1, '1') && k == FindLine(ls, j + 1, '2')
    requires j < |ls| && k < |ls|
    ensures Groups(ls, filter, i) == [Group(i, j, k)] + Groups(ls, filter, k + 1)
    ensures GroupAt(ls, filter, Group(i, j, k))
  {
  }

  /** The scan finds a run of complete, non-overlapping records in input order, none
      before line `i`. */
  lemma {:induction false} GroupsSound(ls: seq<string>, filter: NameFilter, i: nat)
    ensures Records(ls, filter, i, Groups(ls, filter, i))
    decreases |ls| - i
  {
    if i < |ls| {
      var j := FindLine(ls, i + 1, '1');
      var k := FindLine(ls, j + 1, '2');
      if ls[i] != [] && Selects(filter, ls[i]) && j < |ls| && k < |ls| {
        GroupsSound(ls, filter, k + 1);
        GroupsHit(ls, filter, i, j, k);
        var gs := Groups(ls, filter, i);
        assert gs[1..] == Groups(ls, filter, k + 1);
      } else {
        GroupsSound(ls, filter, i + 1);
        if ls[i] != [] && Selects(filter, ls[i]) {
          GroupsIncomplete(ls, filter, i, j, k);
        } else {
          GroupsSkipped(ls, filter, i);
        }
        RecordsWeaken(ls, filter, i, i + 1, Groups(ls, filter, i + 1));
      }
    }
  }

  lemma RecordsWeaken(ls: seq<string>, filter: NameFilter, from: nat, later: nat, gs: seq<Group>)
    requires from <= later && Records(ls, filter, later, gs)
    ensures Records(ls, filter, from, gs)
  {
  }

  /** Line `n`, or the empty line past the end (records found by the scan never reach
      past the end, see GroupsSound). */
  function LineAt(ls: seq<string>, n: nat): string
  {
    if n < |ls| then ls[n] else []
  }

  /** The output lines of one record: name, line 1 and line 2, each followed by a newline. */
  function Record(ls: seq<string>, g: Group): seq<string>
  {
    [LineAt(ls, g.nameAt) + "\n", LineAt(ls, g.line1At) + "\n", LineAt(ls, g.line2At) + "\n"]
  }

  /** The output lines for a list of records, one triple per record. */
  function Emit(ls: seq<string>, gs: seq<Group>): (out: seq<string>)
    ensures |out| == 3 * |gs|
  {
    if gs == [] then [] else Record(ls, gs[0]) + Emit(ls, gs[1..])
  }

  /** Line `c` of the m-th output triple is line `c` of the m-th record. */
  lemma {:induction false} EmitAt(ls: seq<string>, gs: seq<Group>, m: nat, c: nat)
    requires m < |gs| && c < 3
    ensures Emit(ls, gs)[3 * m + c] == Record(ls, gs[m])[c]
  {
    var rest := Emit(ls, gs[1..]);
    assert Emit(ls, gs) == Record(ls, gs[0]) + rest;
    if m > 0 {
      EmitAt(ls, gs[1..], m - 1, c);
      assert gs[1..][m - 1] == gs[m];
    }
  }

  /** The search for the next TLE line numbered `c` from line `from` on: blank lines and
      lines that are not that TLE line are passed over. Returns the stripped line found and
      its index, or nothing and an index at or past the end. */
  method FindTleLine(lines: seq<string>, from: nat, c: char) returns (tle: Option<string>, at: nat)
    ensures at == FindLine(StripAll(lines), from, c)
    ensures tle.Some? <==> at < |lines|
    ensures tle.Some? ==> tle.value == Strip(lines[at])
  {
    ghost var ls := StripAll(lines);
    at := from;
    while at < |lines|
      invariant from <= at
      invariant from <= |lines| ==> at <= |lines|
      invariant from > |lines| ==> at == from
      invariant forall m :: from <= m < at && m < |lines| ==> !TleLine(ls[m], c)
      decreases |lines| - at
    {
      var line := Strip(lines[at]);
      StripAllAt(lines, at);
      TleLineStartsWith(line, c);
      if line != [] {
        if StartsWith(line, [c, ' ']) {
          FindLineSkip(ls, from, at, c);
          return Some(line), at;
        }
      }
      at := at + 1;
    }
    if from <= |lines| {
      FindLineSkip(ls, from, at, c);
    }
    tle := None;
  }

  /** A selected name line followed by both TLE lines starts a record: the output from
      line `i` on is that record's three lines, then the output from after line 2 on. */
  lemma GroupsFound(ls: seq<string>, filter: NameFilter, i: nat, j: nat, k: nat, record: seq<string>, next: nat)
    requires i < |ls| && ls[i] != [] && Selects(filter, ls[i])
    requires j == FindLine(ls, i + 1, '1') && k == FindLine(ls, j + 1, '2')
    requires j < |ls| && k < |ls|
    requires record == [ls[i] + "\n", ls[j] + "\n", ls[k] + "\n"] && next == k + 1
    ensures Emit(ls, Groups(ls, filter, i)) == record + Emit(ls, Groups(ls, filter, next))
    ensures |Groups(ls, filter, i)| == 1 + |Groups(ls, filter, next)|
  {
    var gs := Groups(ls, filter, i);
    GroupsHit(ls, filter, i, j, k);
    assert Record(ls, Group(i, j, k)) == record;
    assert gs[1..] == Groups(ls, filter, next);
  }

  /** A name line without both TLE lines after it is passed over. */
  lemma GroupsIncomplete(ls: seq<string>, filter: NameFilter, i: nat, j: nat, k: nat)
    requires i < |ls|
    requires j == FindLine(ls, i + 1, '1') && k == FindLine(ls, j + 1, '2')
    requires j >= |ls| || k >= |ls|
    ensures Groups(ls, filter, i) == Groups(ls, filter, i + 1)
  {
  }

  /** Any other line is passed over: the output from line `i` on is the output from the
      next line on. */
  lemma GroupsSkipped(ls: seq<string>, filter: NameFilter, i: nat)
    requires i < |ls|
    requires ls[i] == [] || !Selects(filter, ls[i])
    ensures Groups(ls, filter, i) == Groups(ls, filter, i + 1)
  {
  }

  lemma AppendAssoc(a: seq<string>, b: seq<string>, c: seq<string>)
    ensures a + b + c == a + (b + c)
  {
  }

  /** The search that follows a selected name line at `i`: TLE line 1, then TLE line 2.
      When both are found the record is the three stripped lines, newline-terminated, and
      the scan goes on after TLE line 2; otherwise there is no record and the scan goes on
      at the next line. */
  method ReadRecord(lines: seq<string>, filter: NameFilter, i: nat)
    returns (found: bool, record: seq<string>, next: nat)
    requires i < |lines|
    requires Strip(lines[i]) != [] && Selects(filter, Strip(lines[i]))
    ensures i < next <= |lines|
    ensures found <==> record != []
    ensures Emit(StripAll(lines), Groups(StripAll(lines), filter, i)) ==
      record + Emit(StripAll(lines), Groups(StripAll(lines), filter, next))
    ensures |Groups(StripAll(lines), filter, i)| ==
      (if found then 1 else 0) + |Groups(StripAll(lines), filter, next)|
  {
    var nameLine := Strip(lines[i]);
    var tle1, j := FindTleLine(lines, i + 1, '1');
    var tle2, k := FindTleLine(lines, j + 1, '2');
    if tle1.Some? && tle2.Some? {
      record := [nameLine + "\n", tle1.value + "\n", tle2.value + "\n"];
      found, next := true, k + 1;
      RecordComplete(lines, filter, i, j, k, record, next);
    } else {
      found, record, next := false, [], i + 1;
      RecordIncomplete(lines, filter, i, j, k, next);
    }
  }

  /** The found branch of the record search, on the unstripped lines. */
  lemma RecordComplete(lines: seq<string>, filter: NameFilter, i: nat, j: nat, k: nat, record: seq<string>, next: nat)
    requires i < |lines| && Strip(lines[i]) != [] && Selects(filter, Strip(lines[i]))
    requires j == FindLine(StripAll(lines), i + 1, '1') && k == FindLine(StripAll(lines), j + 1, '2')
    requires j < |lines| && k < |lines|
    requires record == [Strip(lines[i]) + "\n", Strip(lines[j]) + "\n", Strip(lines[k]) + "\n"] && next == k + 1
    ensures Emit(StripAll(lines), Groups(StripAll(lines), filter, i)) ==
      record + Emit(StripAll(lines), Groups(StripAll(lines), filter, next))
    ensures |Groups(StripAll(lines), filter, i)| == 1 + |Groups(StripAll(lines), filter, next)|
  {
    var ls := StripAll(lines);
    StripAllAt(lines, i);
    StripAllAt(lines, j);
    StripAllAt(lines, k);
    GroupsFound(ls, filter, i, j, k, record, next);
  }

  /** The branch where TLE line 1 or TLE line 2 is missing: nothing is copied and the
      scan resumes at the next line. */
  lemma RecordIncomplete(lines: seq<string>, filter: NameFilter, i: nat, j: nat, k: nat, next: nat)
    requires i < |lines|
    requires j == FindLine(StripAll(lines), i + 1, '1') && k == FindLine(StripAll(lines), j + 1, '2')
    requires j >= |lines| || k >= |lines|
    requires next == i + 1
    ensures Emit(StripAll(lines), Groups(StripAll(lines), filter, i)) ==
      [] + Emit(StripAll(lines), Groups(StripAll(lines), filter, next))
    ensures |Groups(StripAll(lines), filter, i)| == 0 + |Groups(StripAll(lines), filter, next)|
  {
    var ls := StripAll(lines);
    GroupsIncomplete(ls, filter, i, j, k);
    var gs := Groups(ls, filter, next);
    assert Groups(ls, filter, i) == gs;
    assert [] + Emit(ls, gs) == Emit(ls, gs);
  }

  /** A line that is blank or not selected contributes nothing: the output and the
      record count from line `i` on are those from the next line on. */
  lemma PassOver(lines: seq<string>, filter: NameFilter, i: nat, next: nat)
    requires i < |lines| && next == i + 1
    requires Strip(lines[i]) == [] || !Selects(filter, Strip(lines[i]))
    ensures Emit(StripAll(lines), Groups(StripAll(lines), filter, i)) ==
      [] + Emit(StripAll(lines), Groups(StripAll(lines), filter, next))
    ensures |Groups(StripAll(lines), filter, i)| == 0 + |Groups(StripAll(lines), filter, next)|
  {
    var ls := StripAll(lines);
    StripAllAt(lines, i);
    GroupsSkipped(ls, filter, i);
    var gs := Groups(ls, filter, next);
    assert Groups(ls, filter, i) == gs;
    assert [] + Emit(ls, gs) == Emit(ls, gs);
  }

  /** One step of the scan at line `i`: a selected name line starts a record search; any
      other line, blank or not, moves the scan on by one. */
  method ScanAt(lines: seq<string>, filter: NameFilter, i: nat)
    returns (found: bool, record: seq<string>, next: nat)
    requires i < |lines|
    ensures i < next <= |lines|
    ensures found <==> record != []
    ensures Emit(StripAll(lines), Groups(StripAll(lines), filter, i)) ==
      record + Emit(StripAll(lines), Groups(StripAll(lines), filter, next))
    ensures |Groups(StripAll(lines), filter, i)| ==
      (if found then 1 else 0) + |Groups(StripAll(lines), filter, next)|
  {
    var line := Strip(lines[i]);
    if line != [] && Selects(filter, line) {
      found, record, next := ReadRecord(lines, filter, i);
    } else {
      found, record, next := false, [], i + 1;
      PassOver(lines, filter, i, next);
    }
  }

  /** The scanning loop shared by filter_dtc_satellites, filter_x2_satellites and their
      streaming variants. Returns the output lines, the number of records, and whether
      the output would be written. */
  method FilterSatellites(lines: seq<string>, filter: NameFilter)
    returns (filteredLines: seq<string>, count: nat, written: bool)
    ensures var ls := StripAll(lines);
      var gs := Groups(ls, filter, 0);
      filteredLines == Emit(ls, gs) && count == |gs|
    ensures written <==> count > 0
    ensures written <==> filteredLines != []
  {
    ghost var ls := StripAll(lines);
    filteredLines := [];
    count := 0;
    var i := 0;
    while i < |lines|
      invariant 0 <= i <= |lines|
      invariant filteredLines + Emit(ls, Groups(ls, filter, i)) == Emit(ls, Groups(ls, filter, 0))
      invariant count + |Groups(ls, filter, i)| == |Groups(ls, filter, 0)|
      decreases |lines| - i
    {
      var found, record, next := ScanAt(lines, filter, i);
      AppendAssoc(filteredLines, record, Emit(ls, Groups(ls, filter, next)));
      filteredLines := filteredLines + record;
      if found {
        count := count + 1;
      }
      i := next;
    }
    written := filteredLines != [];
  }

  /** The lines of a downloaded text: the text stripped, split at newlines. */
  function StreamLines(responseText: string): seq<string>
  {
    Split(Strip(responseText), '\n')
  }

  /** The streaming variants scan the lines of the downloaded text. */
  method FilterSatellitesStreaming(responseText: string, filter: NameFilter)
    returns (filteredLines: seq<string>, count: nat, written: bool)
    ensures filteredLines == Emit(StripAll(StreamLines(responseText)), Groups(StripAll(StreamLines(responseText)), filter, 0))
    ensures count == |Groups(StripAll(StreamLines(responseText)), filter, 0)|
    ensures written <==> count > 0
  {
    var lines := StreamLines(responseText);
    filteredLines, count, written := FilterSatellites(lines, filter);
  }

  /** A TLE line keeps its prefix when a newline is appended. */
  lemma TleLineNewline(l: string, c: char)
    requires TleLine(l, c)
    ensures TleLine(l + "\n", c)
  {
    assert (l + "\n")[0] == l[0] && (l + "\n")[1] == l[1];
  }

  /** The m-th output triple of a run of complete records. */
  lemma OutputAt(ls: seq<string>, filter: NameFilter, from: nat, gs: seq<Group>, m: nat)
    requires Records(ls, filter, from, gs) && m < |gs|
    ensures GroupAt(ls, filter, gs[m])
    ensures Emit(ls, gs)[3 * m] == ls[gs[m].nameAt] + "\n"
    ensures TleLine(Emit(ls, gs)[3 * m + 1], '1') && TleLine(Emit(ls, gs)[3 * m + 2], '2')
    ensures m + 1 < |gs| ==> gs[m].line2At < gs[m + 1].nameAt
  {
    RecordsAt(ls, filter, from, gs, m);
    EmitAt(ls, gs, m, 0);
    EmitAt(ls, gs, m, 1);
    EmitAt(ls, gs, m, 2);
    TleLineNewline(ls[gs[m].line1At], '1');
    TleLineNewline(ls[gs[m].line2At], '2');
  }

  /** Every record copied out is a name line the filter selects followed by a well-formed
      TLE pair: the output is a whole number of triples, the m-th triple's name passes the
      filter, its second line is TLE line 1 and its third TLE line 2; and the records come
      in input order without overlapping. */
  lemma FilteredRecords(lines: seq<string>, filter: NameFilter, m: nat)
    requires m < |Groups(StripAll(lines), filter, 0)|
    ensures var ls := StripAll(lines);
      var gs := Groups(ls, filter, 0);
      var out := Emit(ls, gs);
      && |out| == 3 * |gs|
      && GroupAt(ls, filter, gs[m])
      && out[3 * m] == ls[gs[m].nameAt] + "\n"
      && ls[gs[m].nameAt] == Strip(lines[gs[m].nameAt])
      && TleLine(out[3 * m + 1], '1')
      && TleLine(out[3 * m + 2], '2')
      && (m + 1 < |gs| ==> gs[m].nameAt < gs[m].line1At < gs[m].line2At < gs[m + 1].nameAt)
  {
    var ls := StripAll(lines);
    var gs := Groups(ls, filter, 0);
    GroupsSound(ls, filter, 0);
    OutputAt(ls, filter, 0, gs, m);
    StripAllAt(lines, gs[m].nameAt);
  }

  /** The target names used when X2_SATELLITES is not set. */
  const DefaultX2Satellites: string := "x2-33686,x2-33675,x2-33655,x2-33608"

  /** `targets` holds exactly the non-empty stripped pieces. */
  ghost predicate StrippedNames(targets: set<string>, parts: seq<string>)
  {
    forall t :: t in targets <==> t != [] && t in StripAll(parts)
  }

  /** The non-empty stripped pieces of a split value. */
  function NonEmptyStripped(parts: seq<string>): set<string>
  {
    if parts == [] then {}
    else (if Strip(parts[0]) != [] then {Strip(parts[0])} else {}) + NonEmptyStripped(parts[1..])
  }

  /** The fold keeps exactly the non-empty stripped pieces. */
  lemma {:induction false} NonEmptyStrippedNames(parts: seq<string>)
    ensures StrippedNames(NonEmptyStripped(parts), parts)
  {
    if parts != [] {
      var rest := parts[1..];
      NonEmptyStrippedNames(rest);
      var ps := StripAll(parts);
      assert ps == [Strip(parts[0])] + StripAll(rest);
      forall t
        ensures t in NonEmptyStripped(parts) <==> t != [] && t in ps
      {
        assert t in ps <==> t == ps[0] || t in StripAll(rest);
      }
    }
  }

  /** One step of the fold. */
  lemma NonEmptyStrippedCons(p: string, rest: seq<string>)
    ensures NonEmptyStripped([p] + rest) == (if Strip(p) != [] then {Strip(p)} else {}) + NonEmptyStripped(rest)
  {
    assert ([p] + rest)[1..] == rest;
  }

  /** The X2_SATELLITES value in effect: the environment's (None when unset) or the default. */
  function X2Setting(env: Option<string>): string
  {
    if env.Some? then env.value else DefaultX2Satellites
  }

  /** The X2 target set: the comma-separated names of the setting, stripped, empty ones
      dropped. */
  function X2Targets(setting: string): set<string>
  {
    NonEmptyStripped(Split(setting, ','))
  }

  /** A name is a target exactly when it is a non-empty stripped piece of the setting. */
  lemma X2TargetsNames(setting: string)
    ensures StrippedNames(X2Targets(setting), Split(setting, ','))
  {
    NonEmptyStrippedNames(Split(setting, ','));
  }


  /** A name that survives the setting's parsing unchanged: non-empty, no comma, no
      whitespace at either end. */
  predicate Plain(name: string)
  {
    name != [] && ',' !in name && !IsSpace(name[0]) && !IsSpace(name[|name| - 1])
  }

  /** Four names without commas, comma-joined, split back into those four names. */
  lemma SplitFour(a: string, b: string, c: string, d: string)
    requires Plain(a) && Plain(b) && Plain(c) && Plain(d)
    ensures Split(a + [','] + (b + [','] + (c + [','] + d)), ',') == [a] + ([b] + ([c] + [d]))
  {
    SplitNone(d, ',');
    SplitCons(c, d, ',');
    SplitCons(b, c + [','] + d, ',');
    SplitCons(a, b + [','] + (c + [','] + d), ',');
  }

  /** Four names that are already stripped are kept as they are. */
  lemma NonEmptyStrippedFour(a: string, b: string, c: string, d: string)
    requires Plain(a) && Plain(b) && Plain(c) && Plain(d)
    ensures NonEmptyStripped([a] + ([b] + ([c] + [d]))) == {a, b, c, d}
  {
    StripUnchanged(a);
    StripUnchanged(b);
    StripUnchanged(c);
    StripUnchanged(d);
    var t3 := [d];
    var t2 := [c] + t3;
    var t1 := [b] + t2;
    assert t3[1..] == [];
    assert NonEmptyStripped(t3) == {d};
    NonEmptyStrippedCons(c, t3);
    NonEmptyStrippedCons(b, t2);
    NonEmptyStrippedCons(a, t1);
  }

  /** The default setting is the four default names joined by commas. */
  lemma DefaultX2Parts()
    ensures X2Setting(None) == "x2-33686" + [','] + ("x2-33675" + [','] + ("x2-33655" + [','] + "x2-33608"))
  {
  }

  lemma DefaultX2NamesPlain()
    ensures Plain("x2-33686") && Plain("x2-33675") && Plain("x2-33655") && Plain("x2-33608")
  {
  }

  /** The default target set is the four X2 names. */
  lemma DefaultX2Targets()
    ensures X2Targets(X2Setting(None)) == {"x2-33686", "x2-33675", "x2-33655", "x2-33608"}
  {
    var a, b, c, d := "x2-33686", "x2-33675", "x2-33655", "x2-33608";
    DefaultX2Parts();
    DefaultX2NamesPlain();
    SplitFour(a, b, c, d);
    NonEmptyStrippedFour(a, b, c, d);
  }

  /** A target set with no names selects nothing, so the filter finds no record. */
  lemma {:induction false} NoTargetsNoGroups(ls: seq<string>, i: nat)
    ensures Groups(ls, Targets({}), i) == []
    decreases |ls| - i
  {
    if i < |ls| {
      NoTargetsNoGroups(ls, i + 1);
    }
  }

  /** An empty X2_SATELLITES value gives no targets, so the X2 filter then finds no record. */
  lemma EmptyX2TargetsSelectNothing(lines: seq<string>)
    ensures X2Targets(X2Setting(Some(""))) == {}
    ensures Groups(StripAll(lines), Targets(X2Targets(X2Setting(Some("")))), 0) == []
  {
    SplitNone("", ',');
    StripUnchanged("");
    NoTargetsNoGroups(StripAll(lines), 0);
  }
}
