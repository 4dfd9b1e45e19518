/** One line of trace text: finding an event's payload, reading its number fields, and printing lines that
    are read back as the event they were printed from (gst/rockchipmpp/gstmppfaultbridge.c:67-122 and 255-366). */
module TraceText {
  import opened Options
  import opened FaultLog

  // ---- substrings

  predicate At(s: string, pat: string, i: int) {
    0 <= i && i + |pat| <= |s| && s[i..i + |pat|] == pat
  }

  /** strstr from `from` on: the first occurrence. */
  function Find(s: string, pat: string, from: nat): (r: Option<nat>)
    ensures r.Some? ==> from <= r.value && At(s, pat, r.value) && forall j :: from <= j < r.value ==> !At(s, pat, j)
    ensures r.None? ==> forall j :: from <= j ==> !At(s, pat, j)
    decreases |s| - from
  {
    if from > |s| then None else if At(s, pat, from) then Some(from) else Find(s, pat, from + 1)
  }

  /** One wrong character rules an occurrence out. */
  lemma NotHere(s: string, pat: string, i: int, k: nat)
    requires k < |pat| && 0 <= i && (i + |pat| > |s| || s[i + k] != pat[k])
    ensures !At(s, pat, i)
  {
    if i + |pat| <= |s| { assert s[i..i + |pat|][k] == s[i + k]; }
  }

  lemma CharAt(s: string, pat: string, i: int, k: nat)
    requires At(s, pat, i) && k < |pat|
    ensures s[i + k] == pat[k]
  {
    assert s[i..i + |pat|][k] == s[i + k];
  }

  /** Words whose first or last character comes only there cannot overlap themselves. */
  predicate Simple(word: string) {
    |word| > 0 && ((forall j :: 0 < j < |word| ==> word[j] != word[0])
                   || (forall j :: 0 <= j < |word| - 1 ==> word[j] != word[|word| - 1]))
  }

  lemma NoOverlap(s: string, word: string, i: int, j: int)
    requires Simple(word) && At(s, word, i) && i < j < i + |word|
    ensures !At(s, word, j)
  {
    var n := |word|;
    CharAt(s, word, i, j - i);
    CharAt(s, word, i, n - 1);
    if word[j - i] != word[0] {
      NotHere(s, word, j, 0);
    } else {
      NotHere(s, word, j, i + n - 1 - j);
    }
  }

  // ---- words at a token boundary

  /** The word begins a token and is followed by `after`. */
  predicate Begins(s: string, word: string, after: string, i: int) {
    At(s, word, i) && (i == 0 || s[i - 1] == ' ') && At(s, after, i + |word|)
  }

  /** The first such place from `from` on. */
  function Least(s: string, word: string, after: string, from: nat): (r: Option<nat>)
    ensures r.Some? ==> from <= r.value && Begins(s, word, after, r.value)
    ensures forall j :: from <= j && (r.Some? ==> j < r.value) ==> !Begins(s, word, after, j)
    decreases |s| - from
  {
    if from > |s| then None else if Begins(s, word, after, from) then Some(from) else Least(s, word, after, from + 1)
  }

  /** What stands behind the first such place. */
  function Behind(s: string, word: string, after: string): Option<string> {
    var i := Least(s, word, after, 0);
    if i.Some? then Some(s[i.value + |word| + |after|..]) else None
  }

  lemma LeastIs(s: string, word: string, after: string, from: nat, i: Option<nat>)
    requires i.Some? ==> from <= i.value && Begins(s, word, after, i.value)
    requires forall j :: from <= j && (i.Some? ==> j < i.value) ==> !Begins(s, word, after, j)
    ensures Least(s, word, after, from) == i
  {
    var r := Least(s, word, after, from);
    assert r.Some? ==> Begins(s, word, after, r.value);
    assert i.Some? ==> Begins(s, word, after, i.value);
  }

  function LeastFrom(s: string, word: string, after: string, at: Option<nat>): Option<nat> {
    if at.Some? then Least(s, word, after, at.value) else None
  }

  /** An occurrence that begins no token may be skipped whole. */
  lemma Skip(s: string, word: string, after: string, i: nat)
    requires Simple(word) && At(s, word, i) && !Begins(s, word, after, i)
    ensures Least(s, word, after, i) == LeastFrom(s, word, after, Find(s, word, i + |word|))
  {
    var r := LeastFrom(s, word, after, Find(s, word, i + |word|));
    forall j | i <= j && (r.Some? ==> j < r.value) ensures !Begins(s, word, after, j) {
      if i < j < i + |word| { NoOverlap(s, word, i, j); }
    }
    LeastIs(s, word, after, i, r);
  }

  lemma FromTheFirst(s: string, word: string, after: string)
    ensures Least(s, word, after, 0) == LeastFrom(s, word, after, Find(s, word, 0))
  {
    LeastIs(s, word, after, 0, LeastFrom(s, word, after, Find(s, word, 0)));
  }

  lemma Here(s: string, word: string, after: string, i: nat)
    requires Begins(s, word, after, i) && Least(s, word, after, 0) == Least(s, word, after, i)
    ensures Behind(s, word, after) == Some(s[i + |word| + |after|..])
  {
    LeastIs(s, word, after, i, Some(i));
  }

  lemma Nowhere(s: string, word: string, after: string)
    requires Least(s, word, after, 0) == None
    ensures Behind(s, word, after) == None
  {}

  /** gst_mpp_fault_event_payload. */
  method EventPayload(line: string, name: string) returns (payload: Option<string>)
    requires Simple(name)
    ensures payload == Behind(line, name, ": ")
  {
    hide Behind, Least;
    var at := Find(line, name, 0);
    FromTheFirst(line, name, ": ");
    ghost var least := Least(line, name, ": ", 0);
    while at.Some?
      invariant at.Some? ==> At(line, name, at.value)
      invariant least == LeastFrom(line, name, ": ", at)
      decreases if at.Some? then |line| - at.value + 1 else 0
    {
      var i := at.value;
      var after := i + |name|;
      if (i == 0 || line[i - 1] == ' ') && At(line, ": ", after) {
        Here(line, name, ": ", i);
        return Some(line[after + 2..]);
      }
      Skip(line, name, ": ", i);
      at := Find(line, name, after);
    }
    Nowhere(line, name, ": ");
    payload := None;
  }

  // ---- numbers

  /** What isspace accepts. */
  predicate Space(c: char) { c == ' ' || 9 as char <= c <= 13 as char }

  /** Value of a digit in bases up to 36, or 36. */
  function Digit(c: char): (d: nat)
    ensures d <= 36
  {
    if '0' <= c <= '9' then (c - '0') as int
    else if 'a' <= c <= 'z' then (c - 'a') as int + 10
    else if 'A' <= c <= 'Z' then (c - 'A') as int + 10 else 36
  }

  /** How many characters are digits of the base. */
  function Digits(s: string, base: nat): (n: nat)
    requires base <= 36
    ensures n <= |s| && (forall i :: 0 <= i < n ==> Digit(s[i]) < base) && (n < |s| ==> Digit(s[n]) >= base)
  {
    if s == [] || Digit(s[0]) >= base then 0 else 1 + Digits(s[1..], base)
  }

  function ValueOf(s: string, base: nat): nat {
    if s == [] then 0 else ValueOf(s[..|s| - 1], base) * base + Digit(s[|s| - 1])
  }

  function Blanks(s: string): (n: nat)
    ensures n <= |s|
  {
    if s == [] || !Space(s[0]) then 0 else 1 + Blanks(s[1..])
  }

  const MAX64 := 0x7FFF_FFFF_FFFF_FFFF

  /** Sixteen behind 0x, eight behind another 0, ten otherwise. */
  function Unsigned(s: string): Option<nat> {
    if |s| >= 2 && s[0] == '0' && (s[1] == 'x' || s[1] == 'X') then
      var n := Digits(s[2..], 16);
      Some(ValueOf(s[2..][..n], 16))
    else
      var base := if s != [] && s[0] == '0' then 8 else 10;
      var n := Digits(s, base);
      if n == 0 then None else Some(ValueOf(s[..n], base))
  }

  /** g_ascii_strtoll with base 0, where an out-of-range number counts as an error. */
  function Strtoll(text: string): Option<int> {
    var s := text[Blanks(text)..];
    var minus := s != [] && s[0] == '-';
    var v := Unsigned(if s != [] && (s[0] == '-' || s[0] == '+') then s[1..] else s);
    if v.None? || v.value > (if minus then MAX64 + 1 else MAX64) then None
    else
      var n: int := v.value;
      Some(if minus then -n else n)
  }

  function FieldOf(payload: string, key: string): Option<int> {
    var value := Behind(payload, key, "");
    if value.Some? then Strtoll(value.value) else None
  }

  /** gst_mpp_fault_parse_field. */
  method ParseField(payload: string, key: string) returns (field: Option<int>)
    requires Simple(key)
    ensures field == FieldOf(payload, key)
  {
    hide Behind, Least, Strtoll;
    var at := Find(payload, key, 0);
    FromTheFirst(payload, key, "");
    ghost var least := Least(payload, key, "", 0);
    while at.Some?
      invariant at.Some? ==> At(payload, key, at.value)
      invariant least == LeastFrom(payload, key, "", at)
      decreases if at.Some? then |payload| - at.value + 1 else 0
    {
      var i := at.value;
      var value := i + |key|;
      if i != 0 && payload[i - 1] != ' ' {
        Skip(payload, key, "", i);
        at := Find(payload, key, value);
        continue;
      }
      Here(payload, key, "", i);
      return Strtoll(payload[value..]);
    }
    Nowhere(payload, key, "");
    field := None;
  }

  // ---- one line

  /** (guint32) and (gint32). */
  function Unsigned32(x: int): nat { x % 0x1_0000_0000 }

  function Signed32(x: int): int {
    var u := x % 0x1_0000_0000;
    if u >= 0x8000_0000 then u - 0x1_0000_0000 else u
  }

  const QUEUED := "mpp_task_queued"
  const SELECTED := "mpp_core_selected"
  const DONE := "mpp_task_done"
  const ERROR := "mpp_task_error"

  predicate Contains(s: string, pat: string) { Find(s, pat, 0).Some? }

  const SESSION := "session="
  const TASK := "task="
  const CORE := "core="

  /** A queued event, from its two fields if both were read. */
  function QueuedOf(session: Option<int>, task: Option<int>): Event {
    if session.None? || task.None? then Other else Queued(Unsigned32(session.value), Unsigned32(task.value))
  }

  /** The task and core of the three other events, both missing if either is. */
  function PairOf(task: Option<int>, core: Option<int>): Option<(int, int)> {
    if task.None? || core.None? then None else Some((Unsigned32(task.value), Signed32(core.value)))
  }

  function QueuedIn(payload: string): Event { QueuedOf(FieldOf(payload, SESSION), FieldOf(payload, TASK)) }

  function TaskAndCore(payload: string): Option<(int, int)> {
    PairOf(FieldOf(payload, TASK), FieldOf(payload, CORE))
  }

  /** The event of a line: the parsing half of gst_mpp_fault_correlator_feed_line. */
  function Parsed(line: string): Event {
    if line == [] then Other
    else if Contains(line, "LOST ") && Contains(line, "EVENTS") then Lost
    else if line[0] == '#' then Other
    else
      var queued := Behind(line, QUEUED, ": ");
      var selected := Behind(line, SELECTED, ": ");
      var done := Behind(line, DONE, ": ");
      var error := Behind(line, ERROR, ": ");
      if queued.Some? then QueuedIn(queued.value)
      else if selected.Some? then
        var f := TaskAndCore(selected.value);
        if f.None? then Other else CoreSelected(f.value.0, f.value.1)
      else if done.Some? then
        var f := TaskAndCore(done.value);
        if f.None? then Other else Done(f.value.0, f.value.1)
      else if error.Some? then
        var f := TaskAndCore(error.value);
        if f.None? then Other else Error(f.value.0, f.value.1)
      else Other
  }

  lemma NamesAreSimple()
    ensures Simple(QUEUED) && Simple(SELECTED) && Simple(DONE) && Simple(ERROR)
    ensures Simple(SESSION) && Simple(TASK) && Simple(CORE)
  {}

  /** The task= and core= fields of a payload. */
  method ParseTaskAndCore(payload: string) returns (f: Option<(int, int)>)
    ensures f == TaskAndCore(payload)
  {
    NamesAreSimple();
    var task := ParseField(payload, TASK);
    if task.None? { return None; }
    var core := ParseField(payload, CORE);
    if core.None? { return None; }
    f := Some((Unsigned32(task.value), Signed32(core.value)));
  }

  /** The parsing half of gst_mpp_fault_correlator_feed_line. */
  method ParseLine(line: string) returns (e: Event)
    ensures e == Parsed(line)
  {
    if line == [] { return Other; }
    if Find(line, "LOST ", 0).Some? && Find(line, "EVENTS", 0).Some? { return Lost; }
    if line[0] == '#' { return Other; }
    NamesAreSimple();
    var payload := EventPayload(line, QUEUED);
    if payload.Some? {
      var session := ParseField(payload.value, SESSION);
      if session.None? { return Other; }
      var task := ParseField(payload.value, TASK);
      if task.None? { return Other; }
      return Queued(Unsigned32(session.value), Unsigned32(task.value));
    }
    var f;
    payload := EventPayload(line, SELECTED);
    if payload.Some? {
      f := ParseTaskAndCore(payload.value);
      return if f.None? then Other else CoreSelected(f.value.0, f.value.1);
    }
    payload := EventPayload(line, DONE);
    if payload.Some? {
      f := ParseTaskAndCore(payload.value);
      return if f.None? then Other else Done(f.value.0, f.value.1);
    }
    payload := EventPayload(line, ERROR);
    if payload.Some? {
      f := ParseTaskAndCore(payload.value);
      return if f.None? then Other else Error(f.value.0, f.value.1);
    }
    e := Other;
  }
}
