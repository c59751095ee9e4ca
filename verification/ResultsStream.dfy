/** The results stream: one line for each execution as it finishes, in a file that writes may fail on
    halfway. */
module ResultsStream {
  import opened Tally

  // ----- Lines -----

  /** The complete lines of a text, and what follows the last newline. */
  function Parse(s: string): (r: (seq<string>, string)) {
    if s == "" then ([], "")
    else
      var (lines, tail) := Parse(s[..|s| - 1]);
      if s[|s| - 1] == '\n' then (lines + [tail], "") else (lines, tail + [s[|s| - 1]])
  }

  function Lines(s: string): seq<string> { Parse(s).0 }
  function Tail(s: string): string { Parse(s).1 }

  predicate OneLine(s: string) { '\n' !in s }

  lemma {:induction false} ParseText(s: string, t: string)
    requires OneLine(t)
    ensures Parse(s + t) == (Lines(s), Tail(s) + t)
    decreases |t|
  {
    if t == "" {
      assert s + t == s && Tail(s) + t == Tail(s);
    } else {
      var k := |t| - 1;
      ParseText(s, t[..k]);
      assert (s + t)[..|s + t| - 1] == s + t[..k];
      assert Tail(s) + t == Tail(s) + t[..k] + [t[k]];
    }
  }

  lemma ParseNewline(s: string)
    ensures Parse(s + "\n") == (Lines(s) + [Tail(s)], "")
  {
    assert (s + "\n")[..|s|] == s;
  }

  // ----- The stream -----

  /** What a write took, and whether it failed; one that did not fail took everything. */
  datatype Write = Write(taken: nat, failed: bool)

  predicate Possible(line: string, w: Write) {
    w.taken <= |line| && (!w.failed ==> w.taken == |line|)
  }

  /** `written` and `lost` are history: the records whose write succeeded and those whose write did not. */
  datatype Stream = Stream(file: string, torn: bool, written: seq<string>, lost: seq<string>)

  /** What is written for a record: behind a torn line, the newline that closes it comes first. */
  function LineFor(torn: bool, record: string): string {
    (if torn then "\n" else "") + record + "\n"
  }

  function Wrote(st: Stream, record: string, w: Write): Stream
    requires Possible(LineFor(st.torn, record), w)
  {
    st.(file := st.file + LineFor(st.torn, record)[..w.taken],
        torn := w.failed && (w.taken > 0 || st.torn),
        written := if w.failed then st.written else st.written + [record],
        lost := if w.failed then st.lost + [record] else st.lost)
  }

  /** A new stream on a file that may hold the lines of an earlier run, the last one unfinished. */
  function Opened(content: string): Stream {
    Stream(if content != "" && content[|content| - 1] != '\n' then content + "\n" else content, false, [], [])
  }

  /** The stream on its file, as the engine's observer keeps it. */
  class ResultsFile {
    var file: string
    var torn: bool
    ghost var written: seq<string>
    ghost var lost: seq<string>

    ghost function View(): Stream
      reads this
    {
      Stream(file, torn, written, lost)
    }

    constructor (content: string)
      ensures View() == Opened(content)
    {
      file := if content != "" && content[|content| - 1] != '\n' then content + "\n" else content;
      torn, written, lost := false, [], [];
    }

    /** `record` is the execution as one line of JSON, or nothing when it cannot be encoded. */
    method ExecutionFinished(record: Option<string>, w: Write) returns (ok: bool)
      requires record.Some? ==> Possible(LineFor(torn, record.value), w)
      modifies this
      ensures View() == if record.None? then old(View()) else Wrote(old(View()), record.value, w)
      ensures ok <==> record.Some? && !w.failed
    {
      if record.None? {
        return false;
      }
      var line := record.value + "\n";
      if torn {
        line := "\n" + line;
      }
      assert line == LineFor(torn, record.value);
      file := file + line[..w.taken];
      torn := w.failed && (w.taken > 0 || torn);
      if w.failed {
        lost := lost + [record.value];
      } else {
        written := written + [record.value];
      }
      ok := !w.failed;
    }
  }

  // ----- Every sequence of writes -----

  datatype Event = Event(record: string, write: Write)

  function Next(st: Stream, e: Event): Stream {
    if Possible(LineFor(st.torn, e.record), e.write) then Wrote(st, e.record, e.write) else st
  }

  function Run(st: Stream, events: seq<Event>): Stream {
    if events == [] then st else Next(Run(st, events[..|events| - 1]), events[|events| - 1])
  }

  /** `places[k]` is the line that record `k` of those written is. */
  ghost predicate Placed(lines: seq<string>, written: seq<string>, places: seq<nat>) {
    && |places| == |written|
    && (forall k | 0 <= k < |places| :: places[k] < |lines| && lines[places[k]] == written[k])
    && (forall j, k | 0 <= j < k < |places| :: places[j] < places[k])
  }

  /** A line that is no record: it was there before, or is what a failed write left of one. */
  ghost predicate Fragment(line: string, lost: seq<string>) {
    line == "" || exists k | 0 <= k < |lost| :: line <= lost[k]
  }

  /** Behind the lines that are `kept`, every line is the place of a record or a fragment. */
  ghost predicate Explained(lines: seq<string>, kept: seq<string>, places: seq<nat>, lost: seq<string>) {
    && kept <= lines
    && forall i | |kept| <= i < |lines| :: i in places || Fragment(lines[i], lost)
  }

  ghost predicate Inv(st: Stream, kept: seq<string>, places: seq<nat>) {
    && Placed(Lines(st.file), st.written, places)
    && (forall k | 0 <= k < |places| :: |kept| <= places[k])
    && Explained(Lines(st.file), kept, places, st.lost)
    && (if st.torn then Fragment(Tail(st.file), st.lost) else Tail(st.file) == "")
    && forall k | 0 <= k < |st.lost| :: OneLine(st.lost[k])
  }

  /** The text after closing a torn line, if there is one. */
  ghost function Closing(st: Stream): string {
    if st.torn then st.file + "\n" else st.file
  }

  lemma ClosedParse(st: Stream)
    requires !st.torn ==> Tail(st.file) == ""
    ensures Parse(Closing(st)) == (if st.torn then Lines(st.file) + [Tail(st.file)] else Lines(st.file), "")
  {
    ParseNewline(st.file);
  }

  /** A write that took everything adds the record as a line of its own. */
  lemma WholeParse(st: Stream, record: string)
    requires OneLine(record) && (!st.torn ==> Tail(st.file) == "")
    ensures Parse(st.file + LineFor(st.torn, record)) == (Lines(Closing(st)) + [record], "")
  {
    ClosedParse(st);
    ParseText(Closing(st), record);
    ParseNewline(Closing(st) + record);
    assert "" + record == record;
    assert st.file + LineFor(st.torn, record) == Closing(st) + record + "\n";
  }

  lemma PartOfLine(torn: bool, record: string, taken: nat)
    requires (if torn then 1 else 0) <= taken < |LineFor(torn, record)|
    ensures LineFor(torn, record)[..taken] == (if torn then "\n" else "") + record[..taken - if torn then 1 else 0]
  {
  }

  /** A write that took part of a line leaves part of the record behind the closed lines. */
  lemma PartParse(st: Stream, record: string, taken: nat)
    requires OneLine(record) && (!st.torn ==> Tail(st.file) == "")
    requires (if st.torn then 1 else 0) <= taken < |LineFor(st.torn, record)|
    ensures var piece := record[..taken - if st.torn then 1 else 0];
      Parse(st.file + LineFor(st.torn, record)[..taken]) == (Lines(Closing(st)), piece)
  {
    var piece := record[..taken - if st.torn then 1 else 0];
    PartOfLine(st.torn, record, taken);
    ClosedParse(st);
    ParseText(Closing(st), piece);
    hide *;
    ClosingThen(st, piece);
    assert "" + piece == piece;
  }

  lemma ClosingThen(st: Stream, text: string)
    ensures st.file + ((if st.torn then "\n" else "") + text) == Closing(st) + text
  {
  }

  lemma ExplainedMore(lines: seq<string>, kept: seq<string>, places: seq<nat>, lost: seq<string>, record: string)
    requires Explained(lines, kept, places, lost)
    ensures Explained(lines, kept, places, lost + [record])
  {
    forall i | |kept| <= i < |lines|
      ensures Fragment(lines[i], lost) ==> Fragment(lines[i], lost + [record])
    {
      FragmentMore(lines[i], lost, record);
    }
  }

  lemma ExplainedPlace(lines: seq<string>, kept: seq<string>, places: seq<nat>, lost: seq<string>, record: string)
    requires Explained(lines, kept, places, lost)
    ensures Explained(lines + [record], kept, places + [|lines|], lost)
  {
    hide Fragment;
    forall i | |kept| <= i < |lines + [record]|
      ensures i in places + [|lines|] || Fragment((lines + [record])[i], lost)
    {
      assert i < |lines| ==> (lines + [record])[i] == lines[i];
    }
  }

  lemma FragmentMore(line: string, lost: seq<string>, record: string)
    ensures Fragment(line, lost) ==> Fragment(line, lost + [record])
  {
    if Fragment(line, lost) && line != "" {
      var k :| 0 <= k < |lost| && line <= lost[k];
      assert (lost + [record])[k] == lost[k];
    }
  }

  /** Closing a torn line keeps every record where it is, and adds at most a fragment. */
  lemma ClosedOk(st: Stream, kept: seq<string>, places: seq<nat>)
    requires Inv(st, kept, places)
    ensures Placed(Lines(Closing(st)), st.written, places)
    ensures Explained(Lines(Closing(st)), kept, places, st.lost)
  {
    ClosedParse(st);
    hide Fragment;
  }

  ghost function PlacesAfter(st: Stream, places: seq<nat>, w: Write): seq<nat> {
    if w.failed then places else places + [|Lines(Closing(st))|]
  }

  lemma PlacedMore(lines: seq<string>, written: seq<string>, places: seq<nat>, record: string)
    requires Placed(lines, written, places)
    ensures Placed(lines + [record], written + [record], places + [|lines|])
    ensures Placed(lines + [record], written, places)
  {
  }

  lemma ExplainedOne(lines: seq<string>, kept: seq<string>, places: seq<nat>, lost: seq<string>, line: string)
    requires Explained(lines, kept, places, lost) && Fragment(line, lost)
    ensures Explained(lines + [line], kept, places, lost)
  {
    hide Fragment;
  }

  /** The invariant, from its parts. */
  lemma InvOf(st: Stream, lines: seq<string>, tail: string, kept: seq<string>, places: seq<nat>)
    requires Parse(st.file) == (lines, tail)
    requires Placed(lines, st.written, places) && Explained(lines, kept, places, st.lost)
    requires forall k | 0 <= k < |places| :: |kept| <= places[k]
    requires if st.torn then Fragment(tail, st.lost) else tail == ""
    requires forall k | 0 <= k < |st.lost| :: OneLine(st.lost[k])
    ensures Inv(st, kept, places)
  {
    hide Parse, Fragment, Placed, Explained;
  }

  /** And its parts, from the invariant. */
  lemma PartsOf(st: Stream, kept: seq<string>, places: seq<nat>)
    requires Inv(st, kept, places)
    ensures var lines := Lines(Closing(st));
      && Placed(lines, st.written, places) && Explained(lines, kept, places, st.lost) && |kept| <= |lines|
      && Placed(Lines(st.file), st.written, places) && Explained(Lines(st.file), kept, places, st.lost)
    ensures forall k | 0 <= k < |places| :: |kept| <= places[k]
    ensures if st.torn then Fragment(Tail(st.file), st.lost) else Tail(st.file) == ""
    ensures forall k | 0 <= k < |st.lost| :: OneLine(st.lost[k])
  {
    ClosedOk(st, kept, places);
    hide Parse, Fragment;
  }

  lemma SuccessKeeps(st: Stream, kept: seq<string>, places: seq<nat>, record: string, w: Write)
    requires Inv(st, kept, places) && OneLine(record) && Possible(LineFor(st.torn, record), w) && !w.failed
    ensures Inv(Wrote(st, record, w), kept, PlacesAfter(st, places, w))
  {
    var line := LineFor(st.torn, record);
    assert line[..|line|] == line;
    var closed := Lines(Closing(st));
    hide Inv, Parse, LineFor, Placed, Explained, Fragment, OneLine, Closing, Lines, Tail;
    PartsOf(st, kept, places);
    WholeParse(st, record);
    PlacedMore(closed, st.written, places, record);
    ExplainedPlace(closed, kept, places, st.lost, record);
    InvOf(Wrote(st, record, w), closed + [record], "", kept, places + [|closed|]);
  }

  /** A write that failed after it took all of the line. */
  lemma FailedWhole(st: Stream, kept: seq<string>, places: seq<nat>, record: string, w: Write)
    requires Inv(st, kept, places) && OneLine(record) && Possible(LineFor(st.torn, record), w)
    requires w.failed && w.taken == |LineFor(st.torn, record)|
    ensures Inv(Wrote(st, record, w), kept, places)
  {
    var line := LineFor(st.torn, record);
    assert line[..|line|] == line && |line| > 0;
    var closed := Lines(Closing(st));
    hide Inv, Parse, LineFor, Placed, Explained, Fragment, OneLine, Closing, Lines, Tail;
    PartsOf(st, kept, places);
    WholeParse(st, record);
    PlacedMore(closed, st.written, places, record);
    ExplainedMore(closed, kept, places, st.lost, record);
    LostIsFragment(record, record, st.lost);
    LostIsFragment("", record, st.lost);
    ExplainedOne(closed, kept, places, st.lost + [record], record);
    InvOf(Wrote(st, record, w), closed + [record], "", kept, places);
  }

  /** A write that failed after it took part of the line. */
  lemma FailedPart(st: Stream, kept: seq<string>, places: seq<nat>, record: string, w: Write)
    requires Inv(st, kept, places) && OneLine(record) && Possible(LineFor(st.torn, record), w)
    requires w.failed && (if st.torn then 1 else 0) <= w.taken < |LineFor(st.torn, record)|
    ensures Inv(Wrote(st, record, w), kept, places)
  {
    LineLength(st.torn, record);
    hide Inv, Parse, LineFor, Placed, Explained, Fragment, OneLine, Closing, Lines, Tail;
    var piece := record[..w.taken - if st.torn then 1 else 0];
    PartsOf(st, kept, places);
    PartParse(st, record, w.taken);
    ExplainedMore(Lines(Closing(st)), kept, places, st.lost, record);
    LostIsFragment(piece, record, st.lost);
    InvOf(Wrote(st, record, w), Lines(Closing(st)), piece, kept, places);
  }

  lemma LineLength(torn: bool, record: string)
    ensures |LineFor(torn, record)| == |record| + if torn then 2 else 1
  {
  }

  /** A write that failed and took nothing, behind a line that is torn already. */
  lemma FailedNothing(st: Stream, kept: seq<string>, places: seq<nat>, record: string, w: Write)
    requires Inv(st, kept, places) && OneLine(record) && Possible(LineFor(st.torn, record), w)
    requires w.failed && st.torn && w.taken == 0
    ensures Inv(Wrote(st, record, w), kept, places)
  {
    hide Inv, Parse, LineFor, Placed, Explained, Fragment, OneLine, Closing;
    assert st.file + LineFor(st.torn, record)[..0] == st.file;
    PartsOf(st, kept, places);
    ExplainedMore(Lines(st.file), kept, places, st.lost, record);
    FragmentMore(Tail(st.file), st.lost, record);
    InvOf(Wrote(st, record, w), Lines(st.file), Tail(st.file), kept, places);
  }

  lemma FailureKeeps(st: Stream, kept: seq<string>, places: seq<nat>, record: string, w: Write)
    requires Inv(st, kept, places) && OneLine(record) && Possible(LineFor(st.torn, record), w) && w.failed
    ensures Inv(Wrote(st, record, w), kept, places)
  {
    hide Inv, Wrote, OneLine, LineFor;
    if w.taken == |LineFor(st.torn, record)| {
      FailedWhole(st, kept, places, record, w);
    } else if st.torn && w.taken == 0 {
      FailedNothing(st, kept, places, record, w);
    } else {
      FailedPart(st, kept, places, record, w);
    }
  }

  lemma LostIsFragment(piece: string, record: string, lost: seq<string>)
    requires piece <= record
    ensures Fragment(piece, lost + [record])
  {
    assert (lost + [record])[|lost|] == record;
  }

  lemma {:induction false} RunKeeps(st: Stream, kept: seq<string>, places: seq<nat>, events: seq<Event>)
    returns (after: seq<nat>)
    requires Inv(st, kept, places) && forall i | 0 <= i < |events| :: OneLine(events[i].record)
    ensures Inv(Run(st, events), kept, after)
  {
    after := places;
    if events != [] {
      var e := events[|events| - 1];
      after := RunKeeps(st, kept, places, events[..|events| - 1]);
      var q := Run(st, events[..|events| - 1]);
      hide Inv;
      if Possible(LineFor(q.torn, e.record), e.write) {
        if e.write.failed {
          FailureKeeps(q, kept, after, e.record, e.write);
        } else {
          SuccessKeeps(q, kept, after, e.record, e.write);
          after := PlacesAfter(q, after, e.write);
        }
      }
    }
  }

  /** An unfinished last line of an earlier run is closed off as a line of its own. */
  lemma OpenedLines(content: string)
    ensures var file := Opened(content).file;
      && Tail(file) == ""
      && Lines(file) == Lines(content) + if Tail(content) == "" then [] else [Tail(content)]
  {
    ParseNewline(content);
    TailOf(content);
  }

  lemma TailOf(s: string)
    ensures Tail(s) == "" <==> s == "" || s[|s| - 1] == '\n'
  {
  }

  /** The records whose write did not fail, or did, in order. */
  function Records(st: Stream, events: seq<Event>, failed: bool): seq<string> {
    if events == [] then []
    else
      var k := |events| - 1;
      var e := events[k];
      Records(st, events[..k], failed)
      + if Possible(LineFor(Run(st, events[..k]).torn, e.record), e.write) && e.write.failed == failed
        then [e.record] else []
  }

  lemma {:induction false} HistoryIs(st: Stream, events: seq<Event>)
    ensures Run(st, events).written == st.written + Records(st, events, false)
    ensures Run(st, events).lost == st.lost + Records(st, events, true)
  {
    if events != [] {
      HistoryIs(st, events[..|events| - 1]);
      hide Possible, LineFor;
    }
  }

  /** Whatever the writes took and whichever failed: every record whose write succeeded is a whole line
      of the file, at a place of its own and in order, behind what the file held before; every line at no
      such place is what a failed write left of its record. */
  lemma EveryRecordIsALine(content: string, events: seq<Event>) returns (places: seq<nat>)
    requires forall i | 0 <= i < |events| :: OneLine(events[i].record)
    ensures var st := Run(Opened(content), events);
      var kept := Lines(Opened(content).file);
      && Placed(Lines(st.file), Records(Opened(content), events, false), places)
      && (forall k | 0 <= k < |places| :: |kept| <= places[k])
      && Explained(Lines(st.file), kept, places, Records(Opened(content), events, true))
  {
    var st := Opened(content);
    OpenedLines(content);
    places := RunKeeps(st, Lines(st.file), [], events);
    HistoryIs(st, events);
    hide Run, Records;
  }
}
