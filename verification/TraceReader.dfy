/** The chunked line reader on top of the correlator and the fault window
    (gst/rockchipmpp/gstmppfaultbridge.c:742-810). */
module TraceReader {
  import opened Options
  import opened FaultLog
  import opened FaultWindow
  import opened FaultCorrelator
  import opened TraceText
  import opened TracePrint

  /** Longest partial line that is carried to the next read. */
  const LIMIT := 65536
  const NUL := 0 as char

  /** strchr of a newline, where a NUL ends the string: its position, or |s|. */
  function NewlineAt(s: string): (i: nat)
    ensures i <= |s|
    ensures i < |s| ==> s[i] == '\n' && forall j :: 0 <= j < i ==> s[j] != '\n' && s[j] != NUL
    ensures i == |s| && NUL !in s ==> '\n' !in s
  {
    if s == [] || s[0] == '\n' then 0
    else if s[0] == NUL then |s|
    else
      assert s == [s[0]] + s[1..];
      1 + NewlineAt(s[1..])
  }

  /** The whole lines of a string and what is left behind the last. */
  function Cut(s: string): (r: (seq<string>, string))
    ensures |r.1| <= |s|
    decreases |s|
  {
    var i := NewlineAt(s);
    if i == |s| then ([], s)
    else
      var (lines, rest) := Cut(s[i + 1..]);
      ([s[..i]] + lines, rest)
  }

  /** One read: the lines it completes, and the partial line kept for the next. */
  function Read(partial: string, chunk: string): (seq<string>, string) {
    var (lines, rest) := Cut(partial + chunk);
    (lines, if |rest| > LIMIT then [] else rest)
  }

  /** All lines of a sequence of reads, and the partial line in the end. */
  function Reads(partial: string, chunks: seq<string>): (seq<string>, string) {
    if chunks == [] then ([], partial)
    else
      var (lines, rest) := Reads(partial, chunks[..|chunks| - 1]);
      var (more, last) := Read(rest, chunks[|chunks| - 1]);
      (lines + more, last)
  }

  function Joined(chunks: seq<string>): string {
    if chunks == [] then [] else Joined(chunks[..|chunks| - 1]) + chunks[|chunks| - 1]
  }

  predicate Plain(s: string) { NUL !in s }

  /** No line is too long to be carried. */
  predicate Short(s: string) {
    var (lines, rest) := Cut(s);
    |rest| <= LIMIT && forall l :: l in lines ==> |l| <= LIMIT
  }

  // ---- cutting a text in pieces

  lemma {:induction false} NewlineIs(s: string, i: nat)
    requires i < |s| && s[i] == '\n' && forall j :: 0 <= j < i ==> s[j] != '\n' && s[j] != NUL
    ensures NewlineAt(s) == i
    decreases i
  {
    if i > 0 { NewlineIs(s[1..], i - 1); }
  }

  /** What is left has no newline. */
  lemma {:induction false} RestHasNone(s: string)
    requires Plain(s)
    ensures '\n' !in Cut(s).1 && Plain(Cut(s).1)
    decreases |s|
  {
    var i := NewlineAt(s);
    if i < |s| { RestHasNone(s[i + 1..]); }
  }

  lemma CutAt(s: string, i: nat)
    requires i == NewlineAt(s) < |s|
    ensures Cut(s) == ([s[..i]] + Cut(s[i + 1..]).0, Cut(s[i + 1..]).1)
  {}

  lemma CutNowhere(s: string)
    requires NewlineAt(s) == |s|
    ensures Cut(s) == ([], s)
  {}

  /** A line in front. */
  lemma CutLine(line: string, rest: string)
    requires '\n' !in line && NUL !in line
    ensures Cut(line + ("\n" + rest)) == ([line] + Cut(rest).0, Cut(rest).1)
  {
    var s, i := line + ("\n" + rest), |line|;
    assert forall j :: 0 <= j < i ==> s[j] == line[j] && line[j] in line;
    NewlineIs(s, i);
    assert s[..i] == line && s[i + 1..] == rest;
    CutAt(s, i);
  }

  lemma Reassociated<T>(x: seq<T>, y: seq<T>, z: seq<T>, b: seq<T>)
    ensures x + (y + z) + b == x + (y + (z + b))
  {}

  /** A text whose first line is known, with more behind it. */
  lemma CutBehindLine(line: string, rest: string, b: string, more: (seq<string>, string), second: (seq<string>, string))
    requires '\n' !in line && NUL !in line && Cut(rest + b) == (more.0 + second.0, second.1)
    ensures Cut(line + ("\n" + rest) + b) == ([line] + more.0 + second.0, second.1)
  {
    Reassociated(line, "\n", rest, b);
    CutLine(line, rest + b);
    assert [line] + (more.0 + second.0) == [line] + more.0 + second.0;
  }

  /** Cutting a text is cutting its beginning, and then what that left with the rest. */
  lemma {:induction false} CutJoined(a: string, b: string, first: (seq<string>, string), second: (seq<string>, string))
    requires Plain(a) && first == Cut(a) && second == Cut(first.1 + b)
    ensures Cut(a + b) == (first.0 + second.0, second.1)
    decreases |a|
  {
    var i := NewlineAt(a);
    if i < |a| {
      var line, rest := a[..i], a[i + 1..];
      var more := Cut(rest);
      CutAt(a, i);
      FirstLine(a, i);
      CutJoined(rest, b, more, second);
      CutBehindLine(line, rest, b, more, second);
    } else {
      CutNowhere(a);
      assert [] + second.0 == second.0;
    }
  }

  lemma FirstLine(a: string, i: nat)
    requires Plain(a) && i == NewlineAt(a) < |a|
    ensures a == a[..i] + ("\n" + a[i + 1..]) && '\n' !in a[..i] && NUL !in a[..i]
  {
    SplitAt(a, i);
    assert forall k :: 0 <= k < i ==> a[..i][k] == a[k];
  }

  /** The beginning of a text with short lines leaves a short rest. */
  lemma RestIsShort(a: string, b: string)
    requires Plain(a) && Plain(b) && Short(a + b)
    ensures |Cut(a).1| <= LIMIT
  {
    var r := Cut(a).1;
    var s := r + b;
    CutJoined(a, b, Cut(a), Cut(s));
    RestHasNone(a);
    var i := NewlineAt(s);
    NewlineBehind(r, b);
    if i < |s| {
      CutAt(s, i);
      assert s[..i] in Cut(a + b).0;
    }
  }

  lemma NewlineBehind(r: string, b: string)
    requires '\n' !in r
    ensures NewlineAt(r + b) >= |r|
  {
    assert forall k :: 0 <= k < |r| ==> (r + b)[k] == r[k] && r[k] in r;
  }

  /** However a text without NULs and without overlong lines is cut into reads, exactly its lines come out, in
      order, and what is kept is what is left of it. */
  lemma {:induction false} ReadsAreTheLines(chunks: seq<string>, after: string)
    requires Plain(Joined(chunks)) && Plain(after) && Short(Joined(chunks) + after)
    ensures Reads([], chunks) == Cut(Joined(chunks))
    decreases |chunks|
  {
    if chunks != [] {
      var p, c := chunks[..|chunks| - 1], chunks[|chunks| - 1];
      var before := Joined(p);
      assert Joined(chunks) == before + c;
      assert Plain(before) && Plain(c) by {
        assert forall i :: 0 <= i < |before| ==> before[i] == (before + c)[i];
        assert forall i :: 0 <= i < |c| ==> c[i] == (before + c)[|before| + i];
      }
      assert before + c + after == before + (c + after);
      ReadsAreTheLines(p, c + after);
      CutJoined(before, c, Cut(before), Cut(Cut(before).1 + c));
      RestIsShort(before + c, after);
    } else {
      assert Cut(Joined(chunks)) == ([], []);
    }
  }

  // ---- printing and reading back

  /** Every record on a line of its own. */
  function Text(lines: seq<string>): string {
    if lines == [] then [] else lines[0] + "\n" + Text(lines[1..])
  }

  predicate OneLine(s: string) { '\n' !in s && NUL !in s && |s| <= LIMIT }

  predicate AllOneLine(lines: seq<string>) {
    forall l :: l in lines ==> OneLine(l)
  }

  lemma NothingIsCut()
    ensures Plain(Text([])) && Cut(Text([])) == ([], [])
  {
    assert NewlineAt(Text([])) == 0;
  }

  lemma {:induction false} TextIsCut(lines: seq<string>)
    requires AllOneLine(lines)
    ensures Plain(Text(lines)) && Cut(Text(lines)) == (lines, [])
    decreases |lines|
  {
    hide Cut, NewlineAt;
    if lines == [] {
      NothingIsCut();
    } else {
      var l, more := lines[0], lines[1..];
      assert l in lines && forall x :: x in more ==> x in lines;
      TextIsCut(more);
      CutLine(l, Text(more));
      assert Text(lines) == l + ("\n" + Text(more));
      assert lines == [l] + more;
    }
  }

  ghost predicate Recordable(traces: seq<Trace>) {
    forall i :: 0 <= i < |traces| ==> TraceOk(traces[i]) && OneLine(Line(traces[i]))
  }

  function Lines(traces: seq<Trace>): (r: seq<string>)
    requires forall i :: 0 <= i < |traces| ==> Printable(traces[i].event)
    ensures |r| == |traces| && forall i :: 0 <= i < |r| ==> r[i] == Line(traces[i])
  {
    seq(|traces|, i requires 0 <= i < |traces| => Line(traces[i]))
  }

  /** Events printed as trace lines, the text cut into reads at any points: the reader feeds exactly those lines,
      in order, and each is read as the event it was printed from. */
  lemma PrintChunkParse(traces: seq<Trace>, chunks: seq<string>)
    requires Recordable(traces) && Joined(chunks) == Text(Lines(traces))
    ensures Reads([], chunks) == (Lines(traces), [])
    ensures forall i :: 0 <= i < |traces| ==> Parsed(Reads([], chunks).0[i]) == traces[i].event
  {
    var lines := Lines(traces);
    assert AllOneLine(lines);
    TextIsCut(lines);
    assert Joined(chunks) + [] == Joined(chunks);
    ReadsAreTheLines(chunks, []);
    forall i | 0 <= i < |traces| ensures Parsed(lines[i]) == traces[i].event {
      PrintedIsParsed(traces[i]);
    }
  }

  // ---- the bridge

  datatype Bridge = Bridge(log: Log, window: Window)

  /** One line: fed to the correlator, an owned fault accounted. */
  function LineFed(b: Bridge, line: string, now: int, threshold: nat): (Bridge, bool) {
    var (log, verdict) := Fed(b.log, Parsed(line));
    if verdict.FaultOwned? then
      var (window, crossed) := Accounted(b.window, now, threshold);
      (Bridge(log, window), crossed)
    else (b.(log := log), false)
  }

  /** Lines in order; whether any of them crossed the threshold. */
  function LinesFed(b: Bridge, lines: seq<string>, now: int, threshold: nat): (Bridge, bool) {
    if lines == [] then (b, false)
    else
      var (before, crossed) := LinesFed(b, lines[..|lines| - 1], now, threshold);
      var (after, again) := LineFed(before, lines[|lines| - 1], now, threshold);
      (after, crossed || again)
  }

  lemma {:induction false} LinesFedJoined(b: Bridge, x: seq<string>, y: seq<string>, now: int, threshold: nat)
    ensures var (mid, first) := LinesFed(b, x, now, threshold);
            var (end, second) := LinesFed(mid, y, now, threshold);
            LinesFed(b, x + y, now, threshold) == (end, first || second)
    decreases |y|
  {
    if y == [] {
      assert x + y == x;
    } else {
      var p := y[..|y| - 1];
      LinesFedJoined(b, x, p, now, threshold);
      assert (x + y)[..|x + y| - 1] == x + p;
    }
  }

  lemma LinesFedNone(b: Bridge, now: int, threshold: nat)
    ensures LinesFed(b, [], now, threshold) == (b, false)
  {}

  lemma NextFed(b: Bridge, lines: seq<string>, line: string, now: int, threshold: nat, fed: (Bridge, bool))
    returns (next: (Bridge, bool))
    requires fed == LinesFed(b, lines, now, threshold)
    ensures next == LinesFed(b, lines + [line], now, threshold)
    ensures var (end, second) := LineFed(fed.0, line, now, threshold);
            next == (end, fed.1 || second)
  {
    LinesFedOne(b, lines, line, now, threshold);
    next := LinesFed(b, lines + [line], now, threshold);
  }

  lemma LinesFedOne(b: Bridge, lines: seq<string>, line: string, now: int, threshold: nat)
    ensures var (mid, first) := LinesFed(b, lines, now, threshold);
            var (end, second) := LineFed(mid, line, now, threshold);
            LinesFed(b, lines + [line], now, threshold) == (end, first || second)
  {
    assert (lines + [line])[..|lines + [line]| - 1] == lines;
  }

  // ---- polls

  /** The reads one poll makes, and when. */
  datatype Poll = Poll(chunks: seq<string>, now: int)

  /** A run of polls: the bridge and the partial line it is left with. */
  function Polled(b: Bridge, polls: seq<Poll>, threshold: nat): (Bridge, string) {
    if polls == [] then (b, [])
    else
      var (before, partial) := Polled(b, polls[..|polls| - 1], threshold);
      var last := polls[|polls| - 1];
      var (lines, rest) := Reads(partial, last.chunks);
      (LinesFed(before, lines, last.now, threshold).0, rest)
  }

  /** All reads of a run of polls. */
  function AllReads(polls: seq<Poll>): seq<string> {
    if polls == [] then [] else AllReads(polls[..|polls| - 1]) + polls[|polls| - 1].chunks
  }

  /** The correlator after these events. */
  function EventsFed(l: Log, events: seq<Event>): Log {
    if events == [] then l else Fed(EventsFed(l, events[..|events| - 1]), events[|events| - 1]).0
  }

  function EventsOf(lines: seq<string>): (r: seq<Event>)
    ensures |r| == |lines| && forall i :: 0 <= i < |r| ==> r[i] == Parsed(lines[i])
  {
    seq(|lines|, i requires 0 <= i < |lines| => Parsed(lines[i]))
  }

  lemma {:induction false} EventsFedJoined(l: Log, x: seq<Event>, y: seq<Event>)
    ensures EventsFed(l, x + y) == EventsFed(EventsFed(l, x), y)
    decreases |y|
  {
    if y == [] {
      assert x + y == x;
    } else {
      EventsFedJoined(l, x, y[..|y| - 1]);
      assert (x + y)[..|x + y| - 1] == x + y[..|y| - 1];
    }
  }

  /** Lines reach the correlator as their events, whatever the time and the threshold are. */
  lemma {:induction false} LinesAreEvents(b: Bridge, lines: seq<string>, now: int, threshold: nat)
    ensures LinesFed(b, lines, now, threshold).0.log == EventsFed(b.log, EventsOf(lines))
    decreases |lines|
  {
    hide Parsed, Fed, Accounted;
    if lines != [] {
      var p := lines[..|lines| - 1];
      LinesAreEvents(b, p, now, threshold);
      assert EventsOf(lines)[..|lines| - 1] == EventsOf(p);
      LineIsEvent(LinesFed(b, p, now, threshold).0, lines[|lines| - 1], now, threshold);
    }
  }

  lemma LineIsEvent(b: Bridge, line: string, now: int, threshold: nat)
    ensures LineFed(b, line, now, threshold).0.log == Fed(b.log, Parsed(line)).0
  {
    hide Parsed, Fed, Accounted;
  }

  lemma ReadsLast(partial: string, chunks: seq<string>, chunk: string)
    ensures var (lines, rest) := Reads(partial, chunks);
            var (more, last) := Read(rest, chunk);
            Reads(partial, chunks + [chunk]) == (lines + more, last)
  {
    assert (chunks + [chunk])[..|chunks|] == chunks;
  }

  lemma NoReads(partial: string)
    ensures Reads(partial, []) == ([], partial)
  {}

  lemma {:induction false} ReadsJoined(partial: string, x: seq<string>, y: seq<string>)
    ensures var got := Reads(partial, x);
            var more := Reads(got.1, y);
            Reads(partial, x + y) == (got.0 + more.0, more.1)
    decreases |y|
  {
    hide Reads, Read;
    var got := Reads(partial, x);
    if y == [] {
      NoReads(got.1);
      assert x + y == x && got.0 + [] == got.0;
    } else {
      var p, chunk := y[..|y| - 1], y[|y| - 1];
      ReadsJoined(partial, x, p);
      ReadsLast(partial, x + p, chunk);
      ReadsLast(got.1, p, chunk);
      assert x + y == x + p + [chunk] && y == p + [chunk];
      var more := Reads(got.1, p);
      Regrouped(got.0, more.0, Read(more.1, chunk).0);
    }
  }

  lemma Regrouped<T>(x: seq<T>, y: seq<T>, z: seq<T>)
    ensures x + y + z == x + (y + z)
  {}

  lemma {:induction false} PollsAreReads(b: Bridge, polls: seq<Poll>, threshold: nat)
    ensures Polled(b, polls, threshold).0.log == EventsFed(b.log, EventsOf(Reads([], AllReads(polls)).0))
    ensures Polled(b, polls, threshold).1 == Reads([], AllReads(polls)).1
    decreases |polls|
  {
    if polls != [] {
      var p, last := polls[..|polls| - 1], polls[|polls| - 1];
      PollsAreReads(b, p, threshold);
      ReadsJoined([], AllReads(p), last.chunks);
      OnePollIsReads(b, polls, threshold);
    }
  }

  lemma LastPoll(b: Bridge, polls: seq<Poll>, threshold: nat)
    requires polls != []
    ensures var before, last := Polled(b, polls[..|polls| - 1], threshold), polls[|polls| - 1];
            var more := Reads(before.1, last.chunks);
            Polled(b, polls, threshold) == (LinesFed(before.0, more.0, last.now, threshold).0, more.1)
  {}

  lemma EventsOfJoined(x: seq<string>, y: seq<string>)
    ensures EventsOf(x + y) == EventsOf(x) + EventsOf(y)
  {
    hide Parsed;
  }

  /** What the last poll adds. */
  lemma OnePollIsReads(b: Bridge, polls: seq<Poll>, threshold: nat)
    requires polls != []
    requires var before := Polled(b, polls[..|polls| - 1], threshold);
             var got := Reads([], AllReads(polls[..|polls| - 1]));
             before.0.log == EventsFed(b.log, EventsOf(got.0)) && before.1 == got.1
    ensures var got := Reads([], AllReads(polls[..|polls| - 1]));
            var more := Reads(got.1, polls[|polls| - 1].chunks);
            Polled(b, polls, threshold).0.log == EventsFed(b.log, EventsOf(got.0 + more.0))
            && Polled(b, polls, threshold).1 == more.1
  {
    hide Polled, Reads, AllReads, EventsFed, EventsOf, LinesFed;
    var last := polls[|polls| - 1];
    var before := Polled(b, polls[..|polls| - 1], threshold);
    var got := Reads([], AllReads(polls[..|polls| - 1]));
    var more := Reads(got.1, last.chunks);
    LastPoll(b, polls, threshold);
    LinesAreEvents(before.0, more.0, last.now, threshold);
    EventsOfJoined(got.0, more.0);
    EventsFedJoined(b.log, EventsOf(got.0), EventsOf(more.0));
  }

  function EventsIn(traces: seq<Trace>): (r: seq<Event>)
    ensures |r| == |traces| && forall i :: 0 <= i < |r| ==> r[i] == traces[i].event
  {
    seq(|traces|, i requires 0 <= i < |traces| => traces[i].event)
  }

  /** Events printed as trace lines, the text cut into reads at any points and the reads into polls at any times: the
      correlator ends up as if it had been fed the events themselves, and nothing is left over. */
  lemma PolledAsTheEvents(b: Bridge, traces: seq<Trace>, polls: seq<Poll>, threshold: nat)
    requires Recordable(traces) && Joined(AllReads(polls)) == Text(Lines(traces))
    ensures Polled(b, polls, threshold).0.log == EventsFed(b.log, EventsIn(traces))
    ensures Polled(b, polls, threshold).1 == []
  {
    hide Parsed;
    PollsAreReads(b, polls, threshold);
    PrintChunkParse(traces, AllReads(polls));
    assert EventsOf(Lines(traces)) == EventsIn(traces);
  }

  /** The next whole line of a buffer, and what cutting the rest gives. */
  lemma NextLine(text: string, start: nat, newline: nat, line: string, rest: (seq<string>, string))
    returns (after: (seq<string>, string))
    requires start + newline < |text| && newline == NewlineAt(text[start..])
    requires line == text[start..start + newline] && rest == Cut(text[start..])
    ensures rest == ([line] + after.0, after.1) && after == Cut(text[start + newline + 1..])
  {
    after := Cut(text[start + newline + 1..]);
    assert line == text[start..][..newline];
    assert text[start + newline + 1..] == text[start..][newline + 1..];
    CutAt(text[start..], newline);
  }

  class FaultBridge {
    const corr: Correlator
    const counter: Counter
    var partial: string

    constructor (threshold: nat)
      ensures Valid() && View() == Bridge(Empty, Closed) && partial == [] && counter.threshold == threshold
      ensures fresh(corr) && fresh(corr.entries) && fresh(counter)
    {
      corr := new Correlator();
      counter := new Counter(threshold);
      partial := [];
    }

    ghost predicate Valid()
      reads this, corr, corr.entries, counter
    {
      corr.Valid()
    }

    ghost function View(): Bridge
      reads this, corr, counter
    {
      Bridge(corr.View(), counter.View())
    }

    /** One turn of the inner loop of gst_mpp_fault_bridge_poll. */
    method FeedLine(line: string, now: int) returns (crossed: bool)
      requires Valid()
      modifies corr, corr.entries, counter
      ensures Valid() && (View(), crossed) == LineFed(old(View()), line, now, counter.threshold)
    {
      var e := ParseLine(line);
      var verdict := corr.Feed(e);
      crossed := false;
      if verdict.FaultOwned? {
        crossed := counter.Account(now);
      }
    }

    /** The inner loop: every whole line of the buffer is fed; `start` is where the rest begins. */
    method FeedWholeLines(now: int) returns (crossed: bool, start: nat)
      requires Valid()
      modifies corr, corr.entries, counter
      ensures Valid() && (View(), crossed) == LinesFed(old(View()), Cut(partial).0, now, counter.threshold)
      ensures start <= |partial| && partial[start..] == Cut(partial).1
    {
      hide Parsed, Fed, Cut, LineFed, LinesFed;
      crossed, start := false, 0;
      ghost var was, cut := View(), Cut(partial);
      LinesFedNone(was, now, counter.threshold);
      ghost var lines: seq<string>, rest := [], cut;
      ghost var fed := LinesFed(was, [], now, counter.threshold);
      var newline := NewlineAt(partial[start..]);
      assert partial[start..] == partial && [] + cut.0 == cut.0;
      while start + newline < |partial|
        invariant start <= |partial| && newline == NewlineAt(partial[start..])
        invariant cut == (lines + rest.0, rest.1) && rest == Cut(partial[start..])
        invariant fed == LinesFed(was, lines, now, counter.threshold)
        invariant Valid() && (View(), crossed) == fed
        decreases |partial| - start
      {
        var line := partial[start..start + newline];
        ghost var after := NextLine(partial, start, newline, line, rest);
        assert lines + ([line] + after.0) == lines + [line] + after.0;
        var again := FeedLine(line, now);
        fed := NextFed(was, lines, line, now, counter.threshold, fed);
        lines, rest := lines + [line], after;
        crossed := crossed || again;
        start := start + newline + 1;
        newline := NewlineAt(partial[start..]);
      }
      CutNowhere(partial[start..]);
      assert lines + [] == lines;
    }

    /** What follows a read: whole lines are fed, the rest is kept unless it is too long. */
    method DrainLines(now: int) returns (crossed: bool)
      requires Valid()
      modifies this, corr, corr.entries, counter
      ensures Valid() && (View(), crossed) == LinesFed(old(View()), Cut(old(partial)).0, now, counter.threshold)
      ensures partial == if |Cut(old(partial)).1| > LIMIT then [] else Cut(old(partial)).1
    {
      var start;
      crossed, start := FeedWholeLines(now);
      partial := partial[start..];
      if |partial| > LIMIT { partial := []; }
    }

    /** gst_mpp_fault_bridge_poll; `chunks` are the successful reads of this poll. */
    method Poll(chunks: seq<string>, now: int) returns (crossed: bool)
      requires Valid()
      modifies this, corr, corr.entries, counter
      ensures Valid() && (View(), crossed)
                         == LinesFed(old(View()), Reads(old(partial), chunks).0, now, counter.threshold)
      ensures partial == Reads(old(partial), chunks).1
    {
      crossed := false;
      ghost var was, start := View(), partial;
      var i := 0;
      while i < |chunks|
        invariant 0 <= i <= |chunks|
        invariant Valid() && (View(), crossed) == LinesFed(was, Reads(start, chunks[..i]).0, now, counter.threshold)
        invariant partial == Reads(start, chunks[..i]).1
      {
        assert chunks[..i + 1][..i] == chunks[..i];
        ghost var before := Reads(start, chunks[..i]);
        partial := partial + chunks[i];
        LinesFedJoined(was, before.0, Cut(partial).0, now, counter.threshold);
        var again := DrainLines(now);
        crossed := crossed || again;
        i := i + 1;
      }
      assert chunks[..i] == chunks;
    }
  }
}
