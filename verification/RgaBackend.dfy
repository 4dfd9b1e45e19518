/** The backend around an abstract operation (gst/rockchipmpp/gstmpprgabackend.c:581-709): callers begin and
    finish under its lock, but operate and interleave outside it. */
module RgaBackend {
  import opened Options
  import opened TupleTable

  datatype Result = Unavailable | TupleDemoted | Success | DeviceLost | BlitFailed

  /** How an operation ended. */
  datatype Outcome = Good | NoDevice | Bad

  class Backend {
    var initialized: bool
    var available: bool
    const tuples: Table

    constructor ()
      ensures Valid() && View() == Untried && fresh(tuples)
    {
      initialized, available := false, false;
      tuples := new Table();
    }

    ghost predicate Valid()
      reads this, tuples
    {
      tuples.Valid() && (available ==> initialized)
    }

    ghost function View(): State
      reads this, tuples
    {
      State(initialized, available, tuples.entries)
    }

    /** gst_mpp_rga_backend_init; `supported` is what the probe would find. */
    method Init(supported: bool) returns (usable: bool)
      requires Valid()
      modifies this
      ensures Valid() && View() == Probed(old(View()), supported) && usable == available
    {
      if initialized { return available; }
      initialized := true;
      if supported { available := true; }
      usable := available;
    }

    /** The section of gst_mpp_rga_backend_begin after the probe. */
    method Begin(key: Key) returns (result: Result)
      requires Valid() && initialized
      modifies tuples
      ensures Valid() && result == BeginResult(old(View()), key) && View() == Checked(old(View()), key)
    {
      if !available { return Unavailable; }
      var try := tuples.ShouldTry(key);
      result := if try then Result.Success else TupleDemoted;
    }

    /** gst_mpp_rga_backend_finish. */
    method Finish(key: Key, outcome: Outcome) returns (result: Result)
      requires Valid()
      modifies this, tuples
      ensures Valid() && View() == Finished(old(View()), key, outcome)
      ensures result == match outcome case Good => Result.Success case NoDevice => DeviceLost case Bad => BlitFailed
    {
      match outcome
      case Good =>
        tuples.Succeeded(key);
        result := Result.Success;
      case NoDevice =>
        available := false;
        result := DeviceLost;
      case Bad =>
        var _, _ := tuples.Failed(key);
        result := BlitFailed;
    }
  }

  // ---- over a whole run

  datatype State = State(initialized: bool, available: bool, tuples: seq<Entry>)

  const Untried := State(false, false, [])

  function Probed(s: State, supported: bool): State {
    if s.initialized then s else s.(initialized := true, available := supported)
  }

  function BeginResult(s: State, key: Key): Result {
    if !s.available then Unavailable else if Skips(HealthOf(s.tuples, key)) then TupleDemoted else Result.Success
  }

  function Checked(s: State, key: Key): State {
    if s.available then s.(tuples := Recorded(s.tuples, key, Check)) else s
  }

  function Finished(s: State, key: Key, outcome: Outcome): State {
    match outcome
    case Good => s.(tuples := Recorded(s.tuples, key, Event.Success))
    case NoDevice => s.(available := false)
    case Bad => s.(tuples := Recorded(s.tuples, key, Failure))
  }

  /** One critical section of some caller. `Enter` and `Try` are the two sections of a begin. */
  datatype Action = Enter(key: Key, supported: bool) | Try(key: Key) | End(key: Key, outcome: Outcome)

  /** The backend, the tuples of the callers between the sections of a begin, and those being operated on. */
  datatype World = World(state: State, entered: multiset<Key>, operating: multiset<Key>)

  predicate Enabled(w: World, a: Action) {
    match a
    case Enter(_, _) => true
    case Try(key) => key in w.entered
    case End(key, _) => key in w.operating
  }

  function Next(w: World, a: Action): World
    requires Enabled(w, a)
  {
    match a
    case Enter(key, supported) =>
      var s := Probed(w.state, supported);
      World(s, if s.available then w.entered + multiset{key} else w.entered, w.operating)
    case Try(key) =>
      World(Checked(w.state, key), w.entered - multiset{key},
            if BeginResult(w.state, key).Success? then w.operating + multiset{key} else w.operating)
    case End(key, outcome) => World(Finished(w.state, key, outcome), w.entered, w.operating - multiset{key})
  }

  ghost predicate Reaches(w: World, actions: seq<Action>, last: World)
    decreases |actions|
  {
    if actions == [] then last == w
    else Enabled(w, actions[0]) && Reaches(Next(w, actions[0]), actions[1..], last)
  }

  const Start := World(Untried, multiset{}, multiset{})

  /** Nobody is past the probe before it was made. */
  predicate Sound(w: World) {
    w.state.available || w.entered != multiset{} || w.operating != multiset{} ==> w.state.initialized
  }

  lemma {:induction false} AlwaysSound(w: World, actions: seq<Action>, last: World)
    requires Sound(w) && Reaches(w, actions, last)
    ensures Sound(last)
    decreases |actions|
  {
    if actions != [] { AlwaysSound(Next(w, actions[0]), actions[1..], last); }
  }

  lemma {:induction false} GoneForGood(w: World, actions: seq<Action>, last: World)
    requires w.state.initialized && !w.state.available && Reaches(w, actions, last)
    ensures last.state.initialized && !last.state.available
    decreases |actions|
  {
    if actions != [] { GoneForGood(Next(w, actions[0]), actions[1..], last); }
  }

  /** Once any caller was told the device is gone, every later begin is refused, whatever the others, probes
      included, do in between. */
  lemma DeviceLossLatches(before: seq<Action>, w: World, lost: Key, after: seq<Action>, last: World,
                          key: Key, supported: bool)
    requires Reaches(Start, before, w) && Enabled(w, End(lost, NoDevice))
    requires Reaches(Next(w, End(lost, NoDevice)), after, last)
    ensures !Probed(last.state, supported).available
    ensures BeginResult(last.state, key) == Unavailable
  {
    AlwaysSound(Start, before, w);
    GoneForGood(Next(w, End(lost, NoDevice)), after, last);
  }

  /** A failed probe is final too: nothing is ever operated, and the table stays empty. */
  lemma {:induction false} FailedProbeLatches(asked: Key, actions: seq<Action>, last: World, key: Key)
    requires Reaches(Next(Start, Enter(asked, false)), actions, last)
    ensures BeginResult(last.state, key) == Unavailable
    ensures last.operating == multiset{} && last.state.tuples == []
  {
    NobodyOperates(Next(Start, Enter(asked, false)), actions, last);
  }

  lemma {:induction false} NobodyOperates(w: World, actions: seq<Action>, last: World)
    requires w.state == State(true, false, []) && w.entered == multiset{} && w.operating == multiset{}
    requires Reaches(w, actions, last)
    ensures last == w
    decreases |actions|
  {
    if actions != [] { NobodyOperates(Next(w, actions[0]), actions[1..], last); }
  }

  // ---- the tuple table over a whole run

  /** What a section tells the tuple table. */
  function Told(w: World, a: Action): seq<(Key, Event)> {
    match a
    case Enter(_, _) => []
    case Try(key) => if w.state.available then [(key, Check)] else []
    case End(key, outcome) =>
      if outcome.Good? then [(key, Event.Success)] else if outcome.Bad? then [(key, Failure)] else []
  }

  function History(w: World, actions: seq<Action>): seq<(Key, Event)>
    decreases |actions|
  {
    if actions == [] || !Enabled(w, actions[0]) then []
    else Told(w, actions[0]) + History(Next(w, actions[0]), actions[1..])
  }

  lemma ToldIsRecorded(w: World, a: Action, h: seq<(Key, Event)>)
    requires Enabled(w, a) && w.state.tuples == TableOf(h)
    ensures Next(w, a).state.tuples == TableOf(h + Told(w, a))
  {
    if Told(w, a) == [] {
      assert h + Told(w, a) == h;
    } else {
      assert (h + Told(w, a))[..|h|] == h;
    }
  }

  lemma {:induction false} HistoryIsRecorded(w: World, actions: seq<Action>, last: World, h: seq<(Key, Event)>)
    requires Reaches(w, actions, last) && w.state.tuples == TableOf(h)
    ensures last.state.tuples == TableOf(h + History(w, actions))
    decreases |actions|
  {
    hide Next, Enabled, TableOf, Told;
    if actions == [] {
      assert h + History(w, actions) == h;
    } else {
      var a := actions[0];
      ToldIsRecorded(w, a, h);
      HistoryIsRecorded(Next(w, a), actions[1..], last, h + Told(w, a));
      assert h + Told(w, a) + History(Next(w, a), actions[1..]) == h + History(w, actions);
    }
  }

  /** Whatever callers interleave, a conversion is refused as demoted only while the last eight or more outcomes of its
      tuple, device losses aside, were failures. */
  lemma DemotedOnlyAfterEightFailures(actions: seq<Action>, last: World, key: Key)
    requires Reaches(Start, actions, last) && BeginResult(last.state, key) == TupleDemoted
    ensures Trailing(Project(History(Start, actions), key)) >= THRESHOLD
  {
    HistoryIsRecorded(Start, actions, last, []);
    var h := History(Start, actions);
    assert [] + h == h;
    TableDemotesAfterEight(h, key);
  }

  /** And a tuple with fewer is always tried while the device is there. */
  lemma HealthyTuplesAreTried(actions: seq<Action>, last: World, key: Key)
    requires Reaches(Start, actions, last) && last.state.available
    requires Trailing(Project(History(Start, actions), key)) < THRESHOLD
    ensures BeginResult(last.state, key) == Result.Success
  {
    HistoryIsRecorded(Start, actions, last, []);
    var h := History(Start, actions);
    assert [] + h == h;
    TableDemotesAfterEight(h, key);
  }
}
