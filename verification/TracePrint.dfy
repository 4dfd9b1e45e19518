/** Printing an event as the kernel's trace does, and reading it back. */
module TracePrint {
  import opened Options
  import opened FaultLog
  import opened TraceText

  const DIGITS := "0123456789"

  function Decimal(n: nat): (s: string)
    ensures |s| > 0
  {
    if n < 10 then [DIGITS[n]] else Decimal(n / 10) + [DIGITS[n % 10]]
  }

  /** A record: what stands before the event name, the event, and what follows the two fields that are read. */
  datatype Trace = Trace(prefix: string, event: Event, tail: string)

  function NameOf(e: Event): string {
    match e
    case Queued(_, _) => QUEUED
    case CoreSelected(_, _) => SELECTED
    case Done(_, _) => DONE
    case Error(_, _) => ERROR
    case _ => ""
  }

  /** Two fields and the rest of a payload. */
  function TwoFields(a: string, x: nat, b: string, y: nat, tail: string): string {
    a + Decimal(x) + " " + b + Decimal(y) + tail
  }

  predicate Word32(x: int) { 0 <= x < 0x1_0000_0000 }

  predicate Core(x: int) { 0 <= x < 0x8000_0000 }

  /** Events whose numbers fit their fields. */
  predicate Printable(e: Event) {
    match e
    case Queued(session, task) => Word32(session) && Word32(task)
    case CoreSelected(task, core) => Word32(task) && Core(core)
    case Done(task, core) => Word32(task) && Core(core)
    case Error(task, core) => Word32(task) && Core(core)
    case _ => false
  }

  function PayloadOf(e: Event, tail: string): string
    requires Printable(e)
  {
    match e
    case Queued(session, task) => TwoFields(SESSION, session, TASK, task, tail)
    case CoreSelected(task, core) => TwoFields(TASK, task, CORE, core, tail)
    case Done(task, core) => TwoFields(CORE, core, TASK, task, tail)
    case Error(task, core) => TwoFields(CORE, core, TASK, task, tail)
  }

  function Line(t: Trace): string
    requires Printable(t.event)
  {
    t.prefix + NameOf(t.event) + ": " + PayloadOf(t.event, t.tail)
  }

  predicate Names(name: string) { name == QUEUED || name == SELECTED || name == DONE || name == ERROR }

  /** No event is named at a token boundary. */
  ghost predicate Nameless(s: string) {
    forall name, i :: Names(name) ==> !Begins(s, name, ": ", i)
  }

  /** The prefix ends a token, names no event itself and begins no comment. */
  ghost predicate PrefixOk(prefix: string) {
    (prefix != [] ==> prefix[|prefix| - 1] == ' ' && prefix[0] != '#') && Nameless(prefix)
  }

  /** The tail is empty or begins with a blank, and names no event either. */
  ghost predicate TailOk(tail: string) {
    (tail != [] ==> tail[0] == ' ') && Nameless(tail)
  }

  const LOST := "LOST "
  const EVENTS := "EVENTS"

  predicate Marker(word: string) { word == LOST || word == EVENTS }

  /** Prefix and tail do not hold both halves of the marker of lost events. */
  predicate Unmarked(prefix: string, tail: string) {
    || (!Contains(prefix, LOST) && !Contains(tail, LOST))
    || (!Contains(prefix, EVENTS) && !Contains(tail, EVENTS))
  }

  ghost predicate TraceOk(t: Trace) {
    Printable(t.event) && PrefixOk(t.prefix) && TailOk(t.tail) && Unmarked(t.prefix, t.tail)
  }

  // ---- pieces of a concatenation

  lemma FirstOf<T>(s: seq<T>, rest: seq<T>)
    requires s != []
    ensures (s + rest)[0] == s[0] && (s + rest)[1..] == s[1..] + rest
  {}

  lemma Pieces<T>(a: seq<T>, b: seq<T>, c: seq<T>)
    ensures (a + (b + c))[|a|..|a| + |b|] == b && (a + (b + c))[|a| + |b|..] == c
    ensures forall k :: 0 <= k < |a| ==> (a + (b + c))[k] == a[k]
  {}

  lemma Part<T>(a: seq<T>, b: seq<T>, i: nat, n: nat)
    requires i + n <= |a|
    ensures (a + b)[i..i + n] == a[i..i + n]
  {}

  lemma SplitAt<T>(a: seq<T>, i: nat)
    requires i < |a|
    ensures a == a[..i] + ([a[i]] + a[i + 1..])
  {}

  // ---- numbers come back

  predicate AllDigits(s: string) { forall i :: 0 <= i < |s| ==> '0' <= s[i] <= '9' }

  lemma DigitIs(d: nat)
    requires d < 10
    ensures '0' <= DIGITS[d] <= '9' && Digit(DIGITS[d]) == d
  {}

  lemma {:induction false} DecimalIs(n: nat)
    ensures AllDigits(Decimal(n)) && ValueOf(Decimal(n), 10) == n
    ensures Decimal(n)[0] == '0' ==> Decimal(n) == "0" && n == 0
    decreases n
  {
    var s := Decimal(n);
    if n < 10 {
      DigitIs(n);
      assert s[..|s| - 1] == [];
      assert ValueOf(s[..|s| - 1], 10) == 0;
    } else {
      DigitIs(n % 10);
      DecimalIs(n / 10);
      assert s[..|s| - 1] == Decimal(n / 10);
      assert s[0] == Decimal(n / 10)[0];
    }
  }

  /** A digit run ends where something else begins. */
  lemma {:induction false} DigitsEnd(s: string, rest: string)
    requires AllDigits(s) && (rest != [] ==> rest[0] == ' ')
    ensures Digits(s + rest, 10) == |s|
    decreases |s|
  {
    if s == [] {
      assert s + rest == rest;
    } else {
      DigitsEnd(s[1..], rest);
      FirstOf(s, rest);
      assert Digit(s[0]) < 10;
      hide Digit;
    }
  }

  lemma UnsignedDecimal(n: nat, rest: string)
    requires rest != [] ==> rest[0] == ' '
    ensures Unsigned(Decimal(n) + rest) == Some(n)
  {
    var d := Decimal(n);
    var s := d + rest;
    DecimalIs(n);
    if d[0] == '0' {
      Zero();
      assert s[0] == '0' && s[1..] == rest && (|s| >= 2 ==> s[1] == ' ');
      assert Digits(rest, 8) == 0 && Digits(s, 8) == 1;
      assert s[..1] == "0";
    } else {
      DigitsEnd(d, rest);
      assert s[0] == d[0] && s[..|d|] == d;
    }
  }

  /** Before a digit there is nothing to skip and no sign. */
  lemma StrtollOfDigit(s: string)
    requires s != [] && '0' <= s[0] <= '9' && Unsigned(s).Some? && Unsigned(s).value <= MAX64
    ensures Strtoll(s) == Some(Unsigned(s).value)
  {
    assert Blanks(s) == 0 && s[0..] == s;
  }

  lemma StrtollDecimal(n: nat, rest: string)
    requires n <= MAX64 && (rest != [] ==> rest[0] == ' ')
    ensures Strtoll(Decimal(n) + rest) == Some(n)
  {
    DecimalIs(n);
    UnsignedDecimal(n, rest);
    assert (Decimal(n) + rest)[0] == Decimal(n)[0];
    StrtollOfDigit(Decimal(n) + rest);
  }

  lemma Zero()
    ensures ValueOf("0", 8) == 0 && Digit('0') == 0
  {
    assert "0"[..|"0"| - 1] == [];
    assert ValueOf("0"[..|"0"| - 1], 8) == 0;
  }

  // ---- fields come back

  /** A key nothing before `i` starts with is found at `i`. */
  lemma FieldHere(s: string, key: string, i: nat, n: nat, rest: string)
    requires |key| > 0 && Begins(s, key, "", i) && s[i + |key|..] == Decimal(n) + rest
    requires n <= MAX64 && (rest != [] ==> rest[0] == ' ')
    requires forall k :: 0 <= k < i ==> s[k] != key[0]
    ensures FieldOf(s, key) == Some(n)
  {
    forall j | 0 <= j < i ensures !Begins(s, key, "", j) {
      NotHere(s, key, j, 0);
    }
    LeastIs(s, key, "", 0, Some(i));
    assert Behind(s, key, "") == Some(s[i + |key|..]);
    StrtollDecimal(n, rest);
  }

  /** A key behind a head that does not have its first letter. */
  lemma FieldBehind(head: string, key: string, n: nat, rest: string)
    requires |key| > 0 && key[0] !in head && (head != [] ==> head[|head| - 1] == ' ')
    requires n <= MAX64 && (rest != [] ==> rest[0] == ' ')
    ensures FieldOf(head + (key + (Decimal(n) + rest)), key) == Some(n)
  {
    var s := head + (key + (Decimal(n) + rest));
    var i := |head|;
    Pieces(head, key, Decimal(n) + rest);
    assert At(s, "", i + |key|);
    assert forall k :: 0 <= k < i ==> head[k] in head;
    FieldHere(s, key, i, n, rest);
  }

  lemma LetterNotInHead(a: string, x: nat, c: char)
    requires c !in a && c != ' ' && !('0' <= c <= '9')
    ensures c !in a + Decimal(x) + " "
  {
    DecimalIs(x);
    assert c !in Decimal(x);
  }

  lemma Shape(a: string, x: string, b: string, y: string, tail: string)
    ensures a + x + " " + b + y + tail == [] + (a + (x + (" " + b + y + tail)))
    ensures a + x + " " + b + y + tail == (a + x + " ") + (b + (y + tail))
  {}

  /** Both fields of a payload come back when the second key's first letter is not in the first. */
  lemma TwoFieldsAreRead(a: string, x: nat, b: string, y: nat, tail: string)
    requires |a| > 0 && |b| > 0 && b[0] !in a && b[0] != ' ' && !('0' <= b[0] <= '9')
    requires x <= MAX64 && y <= MAX64 && (tail != [] ==> tail[0] == ' ')
    ensures FieldOf(TwoFields(a, x, b, y, tail), a) == Some(x)
    ensures FieldOf(TwoFields(a, x, b, y, tail), b) == Some(y)
  {
    Shape(a, Decimal(x), b, Decimal(y), tail);
    FieldBehind([], a, x, " " + b + Decimal(y) + tail);
    LetterNotInHead(a, x, b[0]);
    FieldBehind(a + Decimal(x) + " ", b, y, tail);
  }

  /** The letters that keep the keys apart. */
  lemma KeyLetters()
    ensures |SESSION| > 0 && |TASK| > 0 && |CORE| > 0 && TASK[0] == 't' && CORE[0] == 'c'
    ensures 't' !in SESSION && 't' !in CORE && 'c' !in TASK
  {}

  lemma FitsWord(x: int)
    ensures Word32(x) ==> Unsigned32(x) == x
    ensures Core(x) ==> Signed32(x) == x
  {}

  lemma QueuedFrom(p: string, session: int, task: int)
    requires Word32(session) && Word32(task)
    requires FieldOf(p, SESSION) == Some(session) && FieldOf(p, TASK) == Some(task)
    ensures QueuedIn(p) == Queued(session, task)
  {
    FitsWord(session);
    FitsWord(task);
    assert QueuedIn(p) == QueuedOf(Some(session), Some(task));
  }

  lemma TaskAndCoreFrom(p: string, task: int, core: int)
    requires Word32(task) && Core(core)
    requires FieldOf(p, TASK) == Some(task) && FieldOf(p, CORE) == Some(core)
    ensures TaskAndCore(p) == Some((task, core))
  {
    FitsWord(task);
    FitsWord(core);
    assert TaskAndCore(p) == PairOf(Some(task), Some(core));
  }

  lemma QueuedIsRead(p: string, session: int, task: int, tail: string)
    requires Word32(session) && Word32(task) && TailOk(tail)
    requires p == TwoFields(SESSION, session, TASK, task, tail)
    ensures QueuedIn(p) == Queued(session, task)
  {
    KeyLetters();
    TwoFieldsAreRead(SESSION, session, TASK, task, tail);
    QueuedFrom(p, session, task);
  }

  lemma TaskCoreIsRead(p: string, task: int, core: int, tail: string)
    requires Word32(task) && Core(core) && TailOk(tail)
    requires p == TwoFields(TASK, task, CORE, core, tail) || p == TwoFields(CORE, core, TASK, task, tail)
    ensures TaskAndCore(p) == Some((task, core))
  {
    KeyLetters();
    TwoFieldsAreRead(TASK, task, CORE, core, tail);
    TwoFieldsAreRead(CORE, core, TASK, task, tail);
    TaskAndCoreFrom(p, task, core);
  }

  /** What feed_line makes of a payload under the event's name. */
  predicate Recovers(e: Event, p: string) {
    match e
    case Queued(_, _) => QueuedIn(p) == e
    case CoreSelected(task, core) => TaskAndCore(p) == Some((task, core))
    case Done(task, core) => TaskAndCore(p) == Some((task, core))
    case Error(task, core) => TaskAndCore(p) == Some((task, core))
    case _ => true
  }

  lemma PayloadIsRead(e: Event, tail: string)
    requires Printable(e) && TailOk(tail)
    ensures Recovers(e, PayloadOf(e, tail))
  {
    var p := PayloadOf(e, tail);
    match e
    case Queued(session, task) => QueuedIsRead(p, session, task, tail);
    case CoreSelected(task, core) => TaskCoreIsRead(p, task, core, tail);
    case Done(task, core) => TaskCoreIsRead(p, task, core, tail);
    case Error(task, core) => TaskCoreIsRead(p, task, core, tail);
  }

  // ---- the event name comes back, and no other

  /** Letters the fields of a payload never have. */
  predicate Clear(s: string) { 'm' !in s && 'L' !in s && 'E' !in s }

  lemma ClearParts(a: string, b: string)
    requires Clear(a) && Clear(b)
    ensures Clear(a + b)
  {}

  lemma DecimalIsClear(n: nat)
    ensures Clear(Decimal(n))
  {
    DecimalIs(n);
  }

  lemma TwoFieldsAreClear(a: string, x: nat, b: string, y: nat)
    requires Clear(a) && Clear(b)
    ensures Clear(TwoFields(a, x, b, y, ""))
  {
    DecimalIsClear(x);
    DecimalIsClear(y);
    ClearParts(a, Decimal(x));
    ClearParts(a + Decimal(x), " ");
    ClearParts(a + Decimal(x) + " ", b);
    ClearParts(a + Decimal(x) + " " + b, Decimal(y));
    ClearParts(a + Decimal(x) + " " + b + Decimal(y), "");
  }

  /** The tail stands behind clear fields. */
  lemma PayloadIs(e: Event, tail: string)
    requires Printable(e)
    ensures PayloadOf(e, tail) == PayloadOf(e, "") + tail && Clear(PayloadOf(e, ""))
  {
    match e
    case Queued(session, task) => TwoFieldsAreClear(SESSION, session, TASK, task);
    case CoreSelected(task, core) => TwoFieldsAreClear(TASK, task, CORE, core);
    case Done(task, core) => TwoFieldsAreClear(CORE, core, TASK, task);
    case Error(task, core) => TwoFieldsAreClear(CORE, core, TASK, task);
  }

  /** Names start with an m, have no other, and no blank or capital. */
  lemma NameLetters(name: string, k: nat)
    requires Names(name) && k < |name|
    ensures |name| > 9 && (name[k] == 'm' <==> k == 0) && name[k] != ' ' && name[k] != 'L' && name[k] != 'E'
  {}

  /** Two different names differ in their fifth or tenth letter. */
  lemma NamesDiffer(a: string, b: string)
    requires Names(a) && Names(b) && a != b
    ensures |a| > 9 && |b| > 9 && (a[4] != b[4] || a[9] != b[9])
  {}

  /** A line up to its tail. */
  function Front(prefix: string, name: string, fields: string): string { prefix + name + ": " + fields }

  /** Behind its prefix and up to its tail a line has no m but the first letter of the name, and no capital. */
  lemma FrontLetters(prefix: string, name: string, fields: string, i: nat)
    requires Names(name) && Clear(fields)
    requires |prefix| <= i < |Front(prefix, name, fields)|
    ensures var c := Front(prefix, name, fields)[i];
            (c == 'm' <==> i == |prefix|) && c != 'L' && c != 'E'
  {
    var line := Front(prefix, name, fields);
    var k := i - |prefix|;
    if k < |name| {
      NameLetters(name, k);
      assert line[i] == name[k];
    } else if k >= |name| + 2 {
      assert line[i] == fields[k - |name| - 2];
      assert fields[k - |name| - 2] in fields;
    }
    NameLetters(name, 0);
  }

  /** What begins before the end of the prefix begins within it. */
  lemma WithinPrefix(prefix: string, rest: string, name: string, i: nat)
    requires Names(name) && prefix != [] && prefix[|prefix| - 1] == ' ' && i < |prefix|
    ensures Begins(prefix + rest, name, ": ", i) ==> Begins(prefix, name, ": ", i)
  {
    var line := prefix + rest;
    if Begins(line, name, ": ", i) {
      var last, n := |prefix| - 1, |name|;
      assert line[last] == ' ';
      if i + n > last {
        CharAt(line, name, i, last - i);
        NameLetters(name, last - i);
      }
      CharAt(line, ": ", i + n, 0);
      assert i + n != last;
      Part(prefix, rest, i, n);
      Part(prefix, rest, i + n, 2);
    }
  }

  /** What begins in the tail begins a token of it. */
  lemma WithinTail(front: string, tail: string, name: string, i: nat)
    requires Names(name) && i >= |front| > 0 && (tail != [] ==> tail[0] == ' ')
    ensures Begins(front + tail, name, ": ", i) ==> Begins(tail, name, ": ", i - |front|)
  {
    var line, k := front + tail, i - |front|;
    if Begins(line, name, ": ", i) {
      CharAt(line, name, i, 0);
      NameLetters(name, 0);
      assert line[i] == tail[k] && k > 0 && line[i - 1] == tail[k - 1];
      assert line[i..i + |name|] == tail[k..k + |name|];
      assert line[i + |name|..i + |name| + 2] == tail[k + |name|..k + |name| + 2];
    }
  }

  /** Away from the end of the prefix no event is named. */
  lemma NotElsewhere(prefix: string, name: string, fields: string, tail: string, other: string, i: nat)
    requires Names(name) && Names(other) && PrefixOk(prefix) && Clear(fields) && TailOk(tail) && i != |prefix|
    ensures !Begins(Front(prefix, name, fields) + tail, other, ": ", i)
  {
    var front := Front(prefix, name, fields);
    var line := front + tail;
    if i < |prefix| {
      assert line == prefix + (name + ": " + fields + tail);
      WithinPrefix(prefix, name + ": " + fields + tail, other, i);
    } else if i < |front| {
      NameLetters(other, 0);
      FrontLetters(prefix, name, fields, i);
      NotHere(line, other, i, 0);
    } else {
      WithinTail(front, tail, other, i);
    }
  }

  /** A printed line names its own event, right behind the prefix. */
  lemma ItsName(prefix: string, name: string, fields: string, tail: string)
    requires Names(name) && PrefixOk(prefix) && Clear(fields) && TailOk(tail)
    ensures Behind(Front(prefix, name, fields) + tail, name, ": ") == Some(fields + tail)
  {
    var line, i := Front(prefix, name, fields) + tail, |prefix|;
    BeginsHere(prefix, name, fields + tail);
    assert line == prefix + name + ": " + (fields + tail);
    forall j: nat | j < i ensures !Begins(line, name, ": ", j) { NotElsewhere(prefix, name, fields, tail, name, j); }
    LeastIs(line, name, ": ", 0, Some(i));
  }

  lemma BeginsHere(prefix: string, name: string, payload: string)
    requires prefix != [] ==> prefix[|prefix| - 1] == ' '
    ensures var line, i := prefix + name + ": " + payload, |prefix|;
            Begins(line, name, ": ", i) && line[i + |name| + 2..] == payload
  {
    var line := prefix + name + ": " + payload;
    assert line == prefix + (name + (": " + payload)) && line == (prefix + name) + (": " + payload);
    Pieces(prefix, name, ": " + payload);
    Pieces(prefix + name, ": ", payload);
  }

  /** And no other. */
  lemma NoOtherName(prefix: string, name: string, fields: string, tail: string, other: string)
    requires Names(name) && Names(other) && other != name && PrefixOk(prefix) && Clear(fields) && TailOk(tail)
    ensures Behind(Front(prefix, name, fields) + tail, other, ": ") == None
  {
    var line, i := Front(prefix, name, fields) + tail, |prefix|;
    NamesDiffer(name, other);
    assert line[i + 4] == name[4] && line[i + 9] == name[9];
    NotHere(line, other, i, if name[4] != other[4] then 4 else 9);
    forall j: nat ensures !Begins(line, other, ": ", j) {
      if j != i { NotElsewhere(prefix, name, fields, tail, other, j); }
    }
    LeastIs(line, other, ": ", 0, None);
  }

  lemma OnlyItsName(prefix: string, name: string, fields: string, tail: string, other: string)
    requires Names(name) && Names(other) && PrefixOk(prefix) && Clear(fields) && TailOk(tail)
    ensures Behind(Front(prefix, name, fields) + tail, other, ": ")
            == if other == name then Some(fields + tail) else None
  {
    if other == name { ItsName(prefix, name, fields, tail); } else { NoOtherName(prefix, name, fields, tail, other); }
  }

  lemma MarkerLetters(word: string, k: nat)
    requires Marker(word) && k < |word|
    ensures |word| <= 6 && word[k] != 'm' && (word[0] == 'L' || word[0] == 'E')
  {}

  lemma NoMarkerInFront(prefix: string, name: string, fields: string, tail: string, word: string, i: nat)
    requires Names(name) && Clear(fields) && Marker(word)
    requires i + |word| > |prefix| && i < |Front(prefix, name, fields)|
    ensures !At(Front(prefix, name, fields) + tail, word, i)
  {
    var k := if i < |prefix| then |prefix| - i else 0;
    MarkerLetters(word, k);
    FrontLetters(prefix, name, fields, i + k);
    NotHere(Front(prefix, name, fields) + tail, word, i, k);
  }

  /** Half a marker in a line is one in its prefix or in its tail. */
  lemma MarkerOutside(prefix: string, name: string, fields: string, tail: string, word: string, i: nat)
    requires Names(name) && Clear(fields) && Marker(word) && At(Front(prefix, name, fields) + tail, word, i)
    ensures Contains(prefix, word) || Contains(tail, word)
  {
    var front := Front(prefix, name, fields);
    var line := front + tail;
    if i + |word| <= |prefix| {
      assert line == prefix + (name + ": " + fields + tail);
      Part(prefix, name + ": " + fields + tail, i, |word|);
      assert At(prefix, word, i);
    } else {
      if i < |front| { NoMarkerInFront(prefix, name, fields, tail, word, i); }
      assert line[i..i + |word|] == tail[i - |front|..i - |front| + |word|];
      assert At(tail, word, i - |front|);
    }
  }

  /** It is no marker of lost events. */
  lemma NotLost(prefix: string, name: string, fields: string, tail: string)
    requires Names(name) && Clear(fields) && Unmarked(prefix, tail)
    ensures var line := Front(prefix, name, fields) + tail;
            !(Contains(line, "LOST ") && Contains(line, "EVENTS"))
  {
    var line := Front(prefix, name, fields) + tail;
    if Contains(line, LOST) && Contains(line, EVENTS) {
      MarkerOutside(prefix, name, fields, tail, LOST, Find(line, LOST, 0).value);
      MarkerOutside(prefix, name, fields, tail, EVENTS, Find(line, EVENTS, 0).value);
    }
  }

  /** Reading a printed line gives back the event. */
  lemma PrintedIsParsed(t: Trace)
    requires TraceOk(t)
    ensures Parsed(Line(t)) == t.event
  {
    var name, fields := NameOf(t.event), PayloadOf(t.event, "");
    var line := Line(t);
    PayloadIs(t.event, t.tail);
    PayloadIsRead(t.event, t.tail);
    assert line == Front(t.prefix, name, fields) + t.tail;
    NotLost(t.prefix, name, fields, t.tail);
    NameLetters(name, 0);
    assert line[0] == if t.prefix == [] then name[0] else t.prefix[0];
    OnlyItsName(t.prefix, name, fields, t.tail, QUEUED);
    OnlyItsName(t.prefix, name, fields, t.tail, SELECTED);
    OnlyItsName(t.prefix, name, fields, t.tail, DONE);
    OnlyItsName(t.prefix, name, fields, t.tail, ERROR);
    AllDifferent();
  }

  lemma AllDifferent()
    ensures QUEUED != SELECTED && QUEUED != DONE && QUEUED != ERROR
    ensures SELECTED != DONE && SELECTED != ERROR && DONE != ERROR
  {
    assert QUEUED[4] != SELECTED[4] && DONE[4] != SELECTED[4] && ERROR[4] != SELECTED[4];
    assert QUEUED[9] != DONE[9] && QUEUED[9] != ERROR[9] && DONE[9] != ERROR[9];
  }
}
