/** The frontend's ephemeris handling (js/EphemerisManager.js): whether a download may use
    the copy cached within the last 24 hours, the fixed-stride parse of the downloaded TLE
    text into name/line-1/line-2 records, and the per-constellation filter. Fetching,
    local storage, the progress bar and the dropdown are not part of this model. */
module EphemerisManager {
  import opened Common
  import opened Text
  import Server

  // ---------------------------------------------------------------------------
  // Cache freshness (downloadEphemeris)
  // ---------------------------------------------------------------------------

  /** 24 hours in milliseconds. */
  const CacheLifetime: int := 24 * 60 * 60 * 1000

  datatype DownloadPlan = NoConstellation | UseCache | Fetch

  /** The decision taken before any data is read. `lastUpdate` is the stored timestamp in
      milliseconds (None when it is missing, empty or not a number), `now` the clock. */
  function PlanDownload(constellation: string, lastUpdate: Option<int>, now: int): (plan: DownloadPlan)
    ensures plan == NoConstellation <==> constellation == []
    ensures plan == UseCache <==>
      constellation != [] && lastUpdate.Some? && now - lastUpdate.value < 86400000
  {
    if constellation == [] then NoConstellation
    else if lastUpdate.Some? && now - lastUpdate.value < CacheLifetime then UseCache
    else Fetch
  }

  /** A fetch stores the clock as the new timestamp: the cached copy is then used for the
      next 24 hours exactly, and never again afterwards. A timestamp from the future (the
      clock set back) also counts as fresh. */
  lemma CacheWindow(constellation: string, fetchedAt: int, now: int)
    requires constellation != []
    ensures PlanDownload(constellation, Some(fetchedAt), now) == UseCache <==> now < fetchedAt + CacheLifetime
    ensures PlanDownload(constellation, Some(fetchedAt), fetchedAt) == UseCache
    ensures now >= fetchedAt + CacheLifetime ==> PlanDownload(constellation, Some(fetchedAt), now) == Fetch
    ensures PlanDownload(constellation, None, now) == Fetch
  {
  }

  // ---------------------------------------------------------------------------
  // Constellation filter (shouldIncludeSatellite)
  // ---------------------------------------------------------------------------

  /** The international designators the "x2" constellation keeps. */
  const X2Ids: seq<string> := ["2025-067A", "2025-067B", "2025-067C", "2025-067D"]

  predicate ShouldIncludeSatellite(constellation: string, name: string, noradId: string)
  {
    if constellation == "starlink_dtc" then
      Contains(ToLowerAscii(name), "dtc") || Contains(ToLowerAscii(name), "direct")
    else if constellation == "x2" then ContainsAny(name, X2Ids)
    else true
  }

  /** JavaScript's `subs.some(id => s.includes(id))`. */
  predicate ContainsAny(s: string, subs: seq<string>)
    decreases |subs|
  {
    subs != [] && (Contains(s, subs[0]) || ContainsAny(s, subs[1..]))
  }

  /** `some` holds exactly when one of the pieces is contained. */
  lemma {:induction false} ContainsAnyAt(s: string, subs: seq<string>)
    ensures ContainsAny(s, subs) <==> exists k :: 0 <= k < |subs| && Contains(s, subs[k])
    decreases |subs|
  {
    if subs != [] {
      ContainsAnyAt(s, subs[1..]);
      if ContainsAny(s, subs[1..]) {
        var k :| 0 <= k < |subs[1..]| && Contains(s, subs[1..][k]);
        assert subs[k + 1] == subs[1..][k];
      }
      if exists k :: 0 <= k < |subs| && Contains(s, subs[k]) {
        var k :| 0 <= k < |subs| && Contains(s, subs[k]);
        if k > 0 {
          assert subs[1..][k - 1] == subs[k];
        }
      }
    }
  }

  /** Lower-casing twice is lower-casing once. */
  lemma ToLowerAsciiIdempotent(s: string)
    ensures ToLowerAscii(ToLowerAscii(s)) == ToLowerAscii(s)
  {
    var t := ToLowerAscii(s);
    assert forall i :: 0 <= i < |t| ==> !('A' <= t[i] <= 'Z');
  }

  /** The filter ignores the NORAD id; the DTC filter ignores letter case; a name naming one
      of the four X2 designators is kept by the X2 filter; every other constellation keeps
      everything. */
  lemma ShouldIncludeSatelliteCases(constellation: string, name: string, noradId: string, other: string, k: nat)
    ensures ShouldIncludeSatellite(constellation, name, noradId) == ShouldIncludeSatellite(constellation, name, other)
    ensures ShouldIncludeSatellite("starlink_dtc", ToLowerAscii(name), noradId) ==
      ShouldIncludeSatellite("starlink_dtc", name, noradId)
    ensures k < |X2Ids| && Contains(name, X2Ids[k]) ==> ShouldIncludeSatellite("x2", name, noradId)
    ensures constellation != "starlink_dtc" && constellation != "x2" ==>
      ShouldIncludeSatellite(constellation, name, noradId)
  {
    ToLowerAsciiIdempotent(name);
    ContainsAnyAt(name, X2Ids);
  }

  // ---------------------------------------------------------------------------
  // The stride-3 parse (processSatellites)
  // ---------------------------------------------------------------------------

  datatype Satellite = Satellite(name: string, line1: string, line2: string, noradId: string)

  /** The NORAD id: characters 2 to 6 of line 1, trimmed. */
  function NoradId(line1: string): (id: string)
    ensures |id| <= 5
  {
    Strip(Substring(line1, 2, 7))
  }

  /** The record read from a block of three lines, when the block is well formed: a
      non-blank name (trimmed) and two lines carrying their line numbers, taken as they are. */
  function TripleAt(first: string, line1: string, line2: string): Option<Satellite>
  {
    var name := Strip(first);
    if name != [] && line1 != [] && line2 != [] && StartsWith(line1, "1 ") && StartsWith(line2, "2 ")
    then Some(Satellite(name, line1, line2, NoradId(line1)))
    else None
  }

  /** What a block contributes: its record when it is well formed and the filter keeps it,
      nothing otherwise. */
  function Kept(constellation: string, block: seq<string>): (kept: seq<Satellite>)
    requires |block| >= 3
    ensures |kept| <= 1
  {
    var t := TripleAt(block[0], block[1], block[2]);
    if t.Some? && ShouldIncludeSatellite(constellation, t.value.name, t.value.noradId) then [t.value] else []
  }

  /** The records kept from the blocks of three lines at the start of `lines`, while a whole
      block remains; lines past the last whole block are ignored. */
  function Parse(constellation: string, lines: seq<string>): (sats: seq<Satellite>)
    ensures 3 * |sats| <= |lines|
    decreases |lines|
  {
    if |lines| < 3 then []
    else Kept(constellation, lines) + Parse(constellation, lines[3..])
  }

  /** A record the parse can produce: a trimmed non-empty name, a TLE pair the server
      accepts, the id read from line 1, and a name the filter keeps. */
  predicate Accepted(constellation: string, s: Satellite)
  {
    && s.name != [] && Strip(s.name) == s.name
    && StartsWith(s.line1, "1 ") && StartsWith(s.line2, "2 ")
    && s.noradId == NoradId(s.line1)
    && ShouldIncludeSatellite(constellation, s.name, s.noradId)
  }

  /** An accepted record passes the server's TLE check. */
  lemma AcceptedValidTle(constellation: string, s: Satellite)
    requires Accepted(constellation, s)
    ensures Server.ValidTle(Server.SatelliteData(s.name, s.line1, s.line2))
  {
  }

  /** Every record the parse returns is accepted. */
  lemma {:induction false} ParseSound(constellation: string, lines: seq<string>)
    ensures forall s :: s in Parse(constellation, lines) ==> Accepted(constellation, s)
    decreases |lines|
  {
    if |lines| >= 3 {
      ParseSound(constellation, lines[3..]);
      StripIdempotent(lines[0]);
    }
  }

  /** processSatellites: split the text at newlines and read it block by block. */
  method ProcessSatellites(constellation: string, ephemerisData: string) returns (satellites: seq<Satellite>)
    ensures satellites == Parse(constellation, Split(ephemerisData, '\n'))
  {
    var lines := Split(ephemerisData, '\n');
    satellites := [];
    var i := 0;
    while i + 2 < |lines|
      invariant i <= |lines|
      invariant satellites + Parse(constellation, lines[i..]) == Parse(constellation, lines)
      decreases |lines| - i
    {
      var kept := ReadBlock(constellation, lines, i);
      var next := i + 3;
      ParseStep(constellation, lines, i, next);
      SeqAppendAssoc(satellites, kept, Parse(constellation, lines[next..]));
      satellites := satellites + kept;
      i := next;
    }
  }

  /** One step of the parse: the block at line `i`, then the blocks from line `i` + 3. */
  lemma ParseStep(constellation: string, lines: seq<string>, i: nat, next: nat)
    requires i + 2 < |lines| && next == i + 3
    ensures Parse(constellation, lines[i..]) == Kept(constellation, lines[i..]) + Parse(constellation, lines[next..])
  {
    assert lines[i..][3..] == lines[next..];
  }

  lemma SeqAppendAssoc(a: seq<Satellite>, b: seq<Satellite>, c: seq<Satellite>)
    ensures a + b + c == a + (b + c)
  {
  }

  /** The body of the parse loop for the block at line `i`. */
  method ReadBlock(constellation: string, lines: seq<string>, i: nat) returns (kept: seq<Satellite>)
    requires i + 2 < |lines|
    ensures kept == Kept(constellation, lines[i..])
  {
    kept := [];
    var name := Strip(lines[i]);
    var line1 := lines[i + 1];
    var line2 := lines[i + 2];
    assert lines[i..][0] == lines[i] && lines[i..][1] == line1 && lines[i..][2] == line2;
    if name != [] && line1 != [] && line2 != [] && StartsWith(line1, "1 ") && StartsWith(line2, "2 ") {
      var noradId := Strip(Substring(line1, 2, 7));
      if ShouldIncludeSatellite(constellation, name, noradId) {
        kept := [Satellite(name, line1, line2, noradId)];
      }
    }
  }

  // ---------------------------------------------------------------------------
  // Round trip: records written out as TLE text are read back
  // ---------------------------------------------------------------------------

  /** The three lines of each record, in order. */
  function Lines(sats: seq<Satellite>): (lines: seq<string>)
    ensures |lines| == 3 * |sats|
  {
    if sats == [] then [] else [sats[0].name, sats[0].line1, sats[0].line2] + Lines(sats[1..])
  }

  /** Parsing the lines of accepted records gives the records back. */
  lemma {:induction false} ParseLines(constellation: string, sats: seq<Satellite>)
    requires forall k :: 0 <= k < |sats| ==> Accepted(constellation, sats[k])
    ensures Parse(constellation, Lines(sats)) == sats
  {
    if sats != [] {
      var s, rest := sats[0], sats[1..];
      assert Accepted(constellation, s);
      ParseLines(constellation, rest);
      var tail := Lines(rest);
      LinesCons(sats, s, rest, tail);
      ParseCons(constellation, s, Lines(sats), tail);
      assert sats == [s] + rest;
    }
  }

  lemma LinesCons(sats: seq<Satellite>, s: Satellite, rest: seq<Satellite>, tail: seq<string>)
    requires sats != [] && s == sats[0] && rest == sats[1..] && tail == Lines(rest)
    ensures Lines(sats) == [s.name, s.line1, s.line2] + tail
  {
  }

  /** The block of an accepted record, followed by more lines, parses to that record
      followed by the parse of the rest. */
  lemma ParseCons(constellation: string, s: Satellite, lines: seq<string>, tail: seq<string>)
    requires Accepted(constellation, s)
    requires lines == [s.name, s.line1, s.line2] + tail
    ensures Parse(constellation, lines) == [s] + Parse(constellation, tail)
  {
    assert lines[3..] == tail;
    assert lines[0] == s.name && lines[1] == s.line1 && lines[2] == s.line2;
    TripleAccepted(constellation, s);
  }

  /** The lines of an accepted record read back as that record. */
  lemma TripleAccepted(constellation: string, s: Satellite)
    requires Accepted(constellation, s)
    ensures TripleAt(s.name, s.line1, s.line2) == Some(s)
  {
  }

  /** No field of the record holds a newline. */
  predicate OneLine(s: Satellite)
  {
    '\n' !in s.name && '\n' !in s.line1 && '\n' !in s.line2
  }

  /** TLE text written from accepted single-line records, one line each, is parsed back into
      exactly those records. */
  lemma ProcessRoundTrip(constellation: string, sats: seq<Satellite>)
    requires forall k :: 0 <= k < |sats| ==> Accepted(constellation, sats[k]) && OneLine(sats[k])
    ensures Parse(constellation, Split(Join(Lines(sats), '\n'), '\n')) == sats
  {
    ParseLines(constellation, sats);
    if sats == [] {
      SplitNone([], '\n');
    } else {
      LinesOneLine(sats);
      JoinSplit(Lines(sats), '\n');
    }
  }

  lemma {:induction false} LinesOneLine(sats: seq<Satellite>)
    requires forall k :: 0 <= k < |sats| ==> OneLine(sats[k])
    ensures forall k :: 0 <= k < |Lines(sats)| ==> '\n' !in Lines(sats)[k]
  {
    if sats != [] {
      LinesOneLine(sats[1..]);
      var block := [sats[0].name, sats[0].line1, sats[0].line2];
      assert OneLine(sats[0]);
      assert Lines(sats) == block + Lines(sats[1..]);
    }
  }
}
