// Which windows know where their history goes on: over honest runs all of them, loading, failed
// and remembered ones too, until one of two events makes one forget.

module ViewOnlyCursors {
  import opened Options
  import opened TranscriptRows
  import opened PinMerge
  import opened PinSlices
  import opened PinHoles
  import opened ViewOnlyOps
  import opened ViewOnlyNoHole
  import opened ViewOnlyRuns

  // The cursor of a window with rows leads to rows that join on; no cursor: the rows start the
  // transcript.
  ghost predicate Joins(w: Window, log: seq<Row>) {
    w.entries != [] ==> CursorInside(w.olderCursor, StartOf(w.entries, log), |w.entries|)
  }

  // The pin on screen, every remembered pin and every pin a load started from.
  ghost predicate AllJoin(s: State, logs: Logs) {
    && (s.pin.Some? ==> Joins(s.pin.value.View(), logs(s.pin.value.relayGeneration, s.pin.value.threadId)))
    && (forall t :: t in s.cache ==> Joins(s.cache[t].View(), logs(s.cacheGeneration, t)))
    && (forall g :: g in s.loads && s.loads[g].prior.Some? ==>
      Joins(s.loads[g].prior.value.View(), logs(s.loads[g].relayGeneration, s.loads[g].threadId)))
  }

  // A rejected cursor; a live row that is not the transcript's first, brought to a pin without
  // rows; or a thread that stops being the active one while its session shows rows past the first.
  ghost predicate Forgets(s: State, e: Event, logs: Logs) {
    match e
    case Rendered(_) => ForgetsStart(s, logs)
    case Navigated(view, _) => ForgetsStart(s.(view := view), logs)
    case OlderError(cursorRejected, _) => cursorRejected && ForgetsCursor(s, logs)
    case TranscriptDelta(run, delta) =>
      && s.pin.Some? && run == s.pin.value.relayGeneration && s.pin.value.entries == [] && delta.NewRow?
      && StartOf([delta.row], logs(run, s.pin.value.threadId)) != 0
    case _ => false
  }

  lemma JoiningIsKeeping(s: State, logs: Logs)
    requires Inv(s, Relay(logs, false))
    ensures AllJoin(s, logs) <==> Inv(s, Relay(logs, true))
  {
  }

  lemma HonestUnlessForgetting(s: State, e: Event, logs: Logs)
    requires Served(Relay(logs, false)) && Honest(s, e, Relay(logs, false)) && !Forgets(s, e, logs)
    ensures Honest(s, e, Relay(logs, true))
  {
    if e.TranscriptDelta? && s.pin.Some? && e.generation == s.pin.value.relayGeneration && e.delta.NewRow?
      && s.pin.value.entries == []
    {
      var log := logs(e.generation, s.pin.value.threadId);
      var t: nat :| t < |log| && SameRow(e.delta.row, log[t]);
      StartIs([e.delta.row], log, t);
    }
  }

  // A live row on an empty pin leaves it without a cursor, wherever the row belongs.
  lemma ColdRowForgets(s: State, e: Event, logs: Logs)
    requires Inv(s, Relay(logs, false)) && e.TranscriptDelta? && Forgets(s, e, logs)
    ensures !AllJoin(Step(s, e), logs)
  {
    var pin := Step(s, e).pin.value;
    assert pin.entries == [e.delta.row] && pin.olderCursor.None?;
  }

  // The same rows and cursor, for the same thread, loading.
  predicate Carries(s: State, t: State) {
    && s.pin.Some? && t.pin.Some? && t.pin.value.View() == s.pin.value.View() && t.pin.value.loading
    && t.pin.value.relayGeneration == s.pin.value.relayGeneration && t.session == s.session && t.view == s.view
  }

  lemma BeginCarries(s: State, terminal: bool)
    requires s.pin.Some? && Eligible(s.session, s.pin.value.threadId)
    requires s.pin.value.relayGeneration == SessionGeneration(s.session)
    ensures Carries(s, BeginLoad(s, Some(s.pin.value.threadId), terminal))
  {
  }

  // What a render leaves of a loading pin whose run and thread the session has not left.
  lemma RenderCarries(s: State, env: RenderEnv)
    requires s.pin.Some? && s.pin.value.loading && s.view == Some(s.pin.value.threadId)
    requires Eligible(s.session, s.pin.value.threadId) && s.pin.value.relayGeneration == SessionGeneration(s.session)
    ensures Carries(s, Render(s, env))
  {
    if NextAction(s.session, s.pin, s.view, env.review).Refresh? {
      BeginCarries(s, false);
      assert Reconcile(s, env) == BeginLoad(s, Some(s.pin.value.threadId), false);
    }
    assert Carries(s, Reconcile(s, env));
  }

  // A thread handed over is on screen without a cursor, whatever the render does with it.
  lemma HandoverForgets(s: State, env: RenderEnv, logs: Logs)
    requires Inv(s, Relay(logs, false)) && ForgetsStart(s, logs)
    ensures Carries(Pinned(s), Paint(s, env))
  {
    var n := Pinned(s);
    PinnedIsKept(s, env);
    BeginCarries(n, NextAction(n.session, n.pin, n.view, env.review).Keep?);
    BeginCarries(Render(n, env), false);
  }

  lemma PaintForgets(s: State, e: Event, logs: Logs)
    requires Inv(s, Relay(logs, false)) && (e.Rendered? || e.Navigated?) && Forgets(s, e, logs)
    ensures !AllJoin(Step(s, e), logs)
  {
    var n := if e.Navigated? then s.(view := e.view) else s;
    HandoverForgets(n, e.env, logs);
    if e.Navigated? { BeginCarries(Paint(n, e.env), false); }
    assert Step(s, e).pin.value.View() == Pinned(n).pin.value.View();
  }

  lemma RejectedCursorForgets(s: State, e: Event, logs: Logs)
    requires Inv(s, Relay(logs, false)) && e.OlderError? && Forgets(s, e, logs)
    ensures !AllJoin(Step(s, e), logs)
  {
    if Eligible(s.session, s.pin.value.threadId) {
      RestartedIsCarried(s, e);
    } else {
      RestartedIsRemembered(s, e);
    }
  }

  lemma RestartedIsCarried(s: State, e: Event)
    requires e.OlderError? && e.cursorRejected && s.older.Some? && OlderIsCurrent(s, s.older.value)
    requires Eligible(s.session, s.pin.value.threadId)
    requires s.pin.value.relayGeneration == SessionGeneration(s.session)
    ensures var t := Step(s, e);
      && t.pin.Some? && t.pin.value.View() == Restarted(s).pin.value.View()
      && t.pin.value.relayGeneration == s.pin.value.relayGeneration
  {
    var r := Restarted(s);
    var begun := BeginLoad(r, Some(s.older.value.threadId), false);
    BeginCarries(r, false);
    if begun.deferred.Some? && begun.view == begun.deferred && Some(begun.pin.value.threadId) == begun.deferred {
      RenderCarries(begun.(older := None, deferred := None), e.env);
    }
  }

  lemma RestartedIsRemembered(s: State, e: Event)
    requires e.OlderError? && e.cursorRejected && s.older.Some? && OlderIsCurrent(s, s.older.value)
    requires !Eligible(s.session, s.pin.value.threadId) && !s.pin.value.error && !s.pin.value.loading
    requires s.pin.value.relayGeneration == SessionGeneration(s.session)
    ensures var t, id := Step(s, e), s.pin.value.threadId;
      id in t.cache && t.cache[id].View() == Restarted(s).pin.value.View() && t.cacheGeneration == s.pin.value.relayGeneration
  {
  }

  lemma StepForgetsExactlyWhen(s: State, e: Event, logs: Logs)
    requires Served(Relay(logs, false)) && Inv(s, Relay(logs, false)) && Honest(s, e, Relay(logs, false))
    requires LiveSlice(s.leaving, Relay(logs, false)) && AllJoin(s, logs)
    ensures AllJoin(Step(s, e), logs) <==> !Forgets(s, e, logs)
  {
    JoiningIsKeeping(s, logs);
    StepKeepsInv(s, e, Relay(logs, false));
    JoiningIsKeeping(Step(s, e), logs);
    if !Forgets(s, e, logs) {
      HonestUnlessForgetting(s, e, logs);
      StepKeepsInv(s, e, Relay(logs, true));
    } else if e.OlderError? {
      RejectedCursorForgets(s, e, logs);
    } else if e.Rendered? || e.Navigated? {
      PaintForgets(s, e, logs);
    } else {
      ColdRowForgets(s, e, logs);
    }
  }

  ghost predicate JoinAt(events: seq<Event>, k: nat, logs: Logs)
    requires k <= |events|
  {
    AllJoin(Run(INITIAL, events[..k]), logs)
  }

  ghost predicate ForgetsAt(events: seq<Event>, k: nat, logs: Logs)
    requires k < |events|
  {
    Forgets(Run(INITIAL, events[..k]), events[k], logs)
  }

  lemma PrefixAgrees(events: seq<Event>, n: nat, logs: Logs)
    requires n <= |events|
    ensures forall k :: 0 <= k <= n ==> (JoinAt(events[..n], k, logs) <==> JoinAt(events, k, logs))
    ensures forall k :: 0 <= k < n ==> (ForgetsAt(events[..n], k, logs) <==> ForgetsAt(events, k, logs))
  {
    assert forall k :: 0 <= k <= n ==> events[..n][..k] == events[..k];
  }

  // Over every honest run, all windows join on all along exactly when no event makes one forget.
  lemma {:induction false} CursorsJoinExactlyWhen(events: seq<Event>, logs: Logs)
    requires Served(Relay(logs, false)) && HonestRun(events, Relay(logs, false))
    ensures (forall k :: 0 <= k <= |events| ==> JoinAt(events, k, logs))
      <==> (forall k :: 0 <= k < |events| ==> !ForgetsAt(events, k, logs))
  {
    if events == [] {
      assert events[..0] == events;
    } else {
      var n := |events| - 1;
      CursorsJoinExactlyWhen(events[..n], logs);
      PrefixAgrees(events, n, logs);
      RunKeepsInv(events[..n], Relay(logs, false));
      SessionsAreSlices(events[..n], Relay(logs, false));
      assert events[..|events|] == events;
      if JoinAt(events, n, logs) {
        StepForgetsExactlyWhen(Run(INITIAL, events[..n]), events[n], logs);
        assert ForgetsAt(events, n, logs) <==> !JoinAt(events, n + 1, logs);
      }
    }
  }

  // ----- All three events do it --------------------------------------------------------

  const QUIET := RenderEnv(NotReview, false)

  const OPEN := [SetSession(Some(Session(None, "run", {}, [], false))), Navigated(Some("t"), QUIET)]

  // Rows past the transcript's start, and no way back to it, on a pin that has failed.
  ghost predicate Forgetful(s: State, rows: seq<Row>, log: seq<Row>) {
    && s.pin.Some? && s.pin.value.entries == rows && rows != [] && s.pin.value.olderCursor.None?
    && !s.pin.value.loading && s.pin.value.error
    && StartOf(rows, log) != 0 && !Joins(s.pin.value.View(), log) && Step(s, AskOlder) == s
  }

  ghost function Follow(events: seq<Event>, e: Event, relay: Relay): (longer: seq<Event>)
    requires HonestRun(events, relay) && Honest(Run(INITIAL, events), e, relay)
    ensures longer == events + [e] && Run(INITIAL, longer) == Step(Run(INITIAL, events), e)
    ensures HonestRun(longer, relay)
  {
    assert (events + [e])[..|events|] == events;
    events + [e]
  }

  // The thread "t" on screen, its load out. The navigation's render began one, itself another.
  predicate FirstOut(s: State) {
    && s.session == Some(Session(None, "run", {}, [], false)) && s.view == Some("t") && s.older.None? && s.deferred.None?
    && s.generation == 2 && 2 in s.loads
    && s.loads[2] == Load("t", "run", Some(LoadingPin("t", "run", 1, None, false)), false, false, AwaitTail)
    && s.pin == Some(LoadingPin("t", "run", 2, None, false))
  }

  lemma Opened(relay: Relay)
    ensures FirstOut(Run(INITIAL, OPEN)) && HonestRun(OPEN, relay)
  {
    var seen := Follow([], OPEN[0], relay);
    var s := Run(INITIAL, seen).(view := Some("t"));
    assert Reconcile(s, QUIET) == s;
    var rendered := Render(s, QUIET);
    assert rendered == BeginLoad(s, Some("t"), false);
    assert rendered.pin == Some(LoadingPin("t", "run", 1, None, false));
    var open := Follow(seen, OPEN[1], relay);
    assert open == OPEN;
  }

  // A live row at t > 0 before the first page, which then fails.
  lemma ColdRowThenFailure(row: Row, logs: Logs, t: nat)
    requires var log := logs("run", "t");
      Transcript(log) && 0 < t < |log| && SameRow(row, log[t])
    ensures var events := OPEN + [TranscriptDelta("run", NewRow(row)), TailError(2)];
      HonestRun(events, Relay(logs, false)) && Forgetful(Run(INITIAL, events), [row], logs("run", "t"))
  {
    ColdRowRun(row, logs, t);
    StartIs([row], logs("run", "t"), t);
    ColdRowIsKept(Run(INITIAL, OPEN), row, logs("run", "t"));
  }

  lemma ColdRowRun(row: Row, logs: Logs, t: nat)
    requires t < |logs("run", "t")| && SameRow(row, logs("run", "t")[t])
    ensures var e, f := TranscriptDelta("run", NewRow(row)), TailError(2);
      && FirstOut(Run(INITIAL, OPEN)) && HonestRun(OPEN + [e, f], Relay(logs, false))
      && Run(INITIAL, OPEN + [e, f]) == Step(Step(Run(INITIAL, OPEN), e), f)
  {
    Opened(Relay(logs, false));
    var told := Follow(OPEN, TranscriptDelta("run", NewRow(row)), Relay(logs, false));
    var failed := Follow(told, TailError(2), Relay(logs, false));
    assert failed == OPEN + [TranscriptDelta("run", NewRow(row)), TailError(2)];
  }

  lemma ColdRowIsKept(s: State, row: Row, log: seq<Row>)
    requires FirstOut(s) && StartOf([row], log) != 0
    ensures Forgetful(Step(Step(s, TranscriptDelta("run", NewRow(row))), TailError(2)), [row], log)
  {
    var told := Step(s, TranscriptDelta("run", NewRow(row)));
    assert told.pin.value.entries == [row];
    assert 2 in told.loads && told.generation == 2;
  }

  // A page at c > 0 whose cursor is then rejected, and the reload fails.
  lemma RejectedCursorThenFailure(page: Page, logs: Logs, c: nat)
    requires Transcript(logs("run", "t")) && 0 < c && PageOf(page, logs("run", "t"), c)
    requires page.threadId == "t" && page.generation == "run"
    ensures var events := OPEN + [Tail(2, page), AskOlder, OlderError(true, QUIET), TailError(3)];
      HonestRun(events, Relay(logs, false)) && Forgetful(Run(INITIAL, events), page.Rows(), logs("run", "t"))
  {
    RejectedCursorRun(page, logs, c);
    StartIs(page.Rows(), logs("run", "t"), c);
    FirstPageLands(Run(INITIAL, OPEN), page);
    RejectedPinFails(Step(Run(INITIAL, OPEN), Tail(2, page)), logs("run", "t"));
  }

  lemma FirstPageIsHonest(s: State, page: Page, logs: Logs, c: nat)
    requires FirstOut(s) && Transcript(logs("run", "t")) && PageOf(page, logs("run", "t"), c)
    requires page.threadId == "t" && page.generation == "run"
    ensures Honest(s, Tail(2, page), Relay(logs, false))
  {
    StartIs(page.Rows(), logs("run", "t"), c);
  }

  lemma RejectedCursorRun(page: Page, logs: Logs, c: nat)
    requires Transcript(logs("run", "t")) && PageOf(page, logs("run", "t"), c)
    requires page.threadId == "t" && page.generation == "run"
    ensures var s, events := Run(INITIAL, OPEN), OPEN + [Tail(2, page), AskOlder, OlderError(true, QUIET), TailError(3)];
      && FirstOut(s) && HonestRun(events, Relay(logs, false))
      && Run(INITIAL, events)
        == Step(Step(Step(Step(s, Tail(2, page)), AskOlder), OlderError(true, QUIET)), TailError(3))
  {
    Opened(Relay(logs, false));
    FirstPageIsHonest(Run(INITIAL, OPEN), page, logs, c);
    var landed := Follow(OPEN, Tail(2, page), Relay(logs, false));
    var asked := Follow(landed, AskOlder, Relay(logs, false));
    var rejected := Follow(asked, OlderError(true, QUIET), Relay(logs, false));
    var failed := Follow(rejected, TailError(3), Relay(logs, false));
    assert failed == OPEN + [Tail(2, page), AskOlder, OlderError(true, QUIET), TailError(3)];
  }

  // "t" settled under its second load, with an older page to ask for.
  predicate FirstLanded(s: State) {
    && s.session == Some(Session(None, "run", {}, [], false)) && s.view == Some("t") && s.older.None? && s.deferred.None?
    && s.generation == 2 && s.pin.Some?
    && s.pin.value.threadId == "t" && s.pin.value.relayGeneration == "run" && s.pin.value.generation == 2
    && !s.pin.value.loading && s.pin.value.olderCursor.Some?
  }

  lemma FirstPageLands(s: State, page: Page)
    requires FirstOut(s)
    requires page.threadId == "t" && page.generation == "run" && page.Rows() != [] && page.prevCursor.Some?
    ensures FirstLanded(Step(s, Tail(2, page))) && Step(s, Tail(2, page)).pin.value.entries == page.Rows()
  {
    assert RetainedIds(s.loads[2]) == {};
  }

  lemma RejectedPinFails(s: State, log: seq<Row>)
    requires FirstLanded(s) && s.pin.value.entries != [] && StartOf(s.pin.value.entries, log) != 0
    ensures Forgetful(Step(Step(Step(s, AskOlder), OlderError(true, QUIET)), TailError(3)), s.pin.value.entries, log)
  {
    var asked := Step(s, AskOlder);
    assert asked.older == Some(OlderLoad("t", 2, s.pin.value.olderCursor.value));
    RejectedPinReloads(asked);
    ReloadFails(Step(asked, OlderError(true, QUIET)), log);
  }

  lemma ReloadFails(s: State, log: seq<Row>)
    requires s.generation == 3 && 3 in s.loads && s.loads[3].phase == AwaitTail && s.loads[3].threadId == "t"
    requires s.pin.Some? && s.pin.value.generation == 3 && s.pin.value.threadId == "t"
    requires s.pin.value.entries != [] && StartOf(s.pin.value.entries, log) != 0 && s.pin.value.olderCursor.None?
    ensures Forgetful(Step(s, TailError(3)), s.pin.value.entries, log)
  {
  }

  lemma RejectedPinReloads(s: State)
    requires s.session == Some(Session(None, "run", {}, [], false)) && s.generation == 2 && s.deferred.None?
    requires s.pin.Some? && s.pin.value.threadId == "t" && s.pin.value.relayGeneration == "run"
    requires s.older.Some? && s.older.value.threadId == "t" && OlderIsCurrent(s, s.older.value)
    ensures var t := Step(s, OlderError(true, QUIET));
      && t.generation == 3 && 3 in t.loads && t.pin.Some? && t.pin.value.generation == 3
      && t.loads[3].threadId == "t" && t.loads[3].phase == AwaitTail && t.pin.value.threadId == "t"
      && t.pin.value.entries == s.pin.value.entries && t.pin.value.olderCursor.None?
  {
    var begun := BeginLoad(Restarted(s), Some("t"), false);
    BeginCarries(Restarted(s), false);
    assert Step(s, OlderError(true, QUIET)) == begun.(older := None, deferred := None);
  }

  // "t" live on screen, then another device takes the relay elsewhere.
  function LeftBehind(rows: seq<Row>): seq<Event> {
    [SetSession(Some(Session(Some("t"), "run", {}, rows, false))), Navigated(Some("t"), QUIET),
     SetSession(Some(Session(None, "run", {}, [], false)))]
  }

  // A thread that stops being the active one while its live rows start at c > 0; the load that
  // follows fails.
  lemma HandoverThenFailure(rows: seq<Row>, logs: Logs, c: nat)
    requires Transcript(logs("run", "t")) && 0 < c && rows != [] && SliceAt(rows, logs("run", "t"), c)
    ensures var events := LeftBehind(rows) + [Rendered(QUIET), TailError(2)];
      && HonestRun(events, Relay(logs, false)) && Forgetful(Run(INITIAL, events), rows, logs("run", "t"))
      && "t" in Run(INITIAL, events).cache && Run(INITIAL, events).cache["t"].View() == Window("t", rows, None, false)
  {
    StartIs(rows, logs("run", "t"), c);
    LeavesRows(rows, Relay(logs, false));
    var painted := Follow(LeftBehind(rows), Rendered(QUIET), Relay(logs, false));
    var failed := Follow(painted, TailError(2), Relay(logs, false));
    assert failed == LeftBehind(rows) + [Rendered(QUIET), TailError(2)];
    HandedOver(Run(INITIAL, LeftBehind(rows)), rows);
    HandoverLoadFails(Run(INITIAL, painted), rows, logs("run", "t"));
  }

  // What is about to be rendered: the thread on screen was the active one.
  predicate Left(s: State, rows: seq<Row>) {
    && s.session == Some(Session(None, "run", {}, [], false)) && s.view == Some("t") && s.pin.None?
    && s.leaving == Some(Session(Some("t"), "run", {}, rows, false))
    && s.generation == 1 && s.older.None? && s.deferred.None?
  }

  lemma LeavesRows(rows: seq<Row>, relay: Relay)
    requires SliceAt(rows, relay.logs("run", "t"), StartOf(rows, relay.logs("run", "t")))
    ensures HonestRun(LeftBehind(rows), relay) && Left(Run(INITIAL, LeftBehind(rows)), rows)
  {
    var live := Follow([], LeftBehind(rows)[0], relay);
    var s := Run(INITIAL, live).(view := Some("t"));
    assert !HandsOver(s);
    assert Paint(s, QUIET) == s;
    var seen := Follow(live, LeftBehind(rows)[1], relay);
    assert Run(INITIAL, seen) == BeginLoad(s, Some("t"), false);
    var left := Follow(seen, LeftBehind(rows)[2], relay);
    assert left == LeftBehind(rows);
  }

  // Its rows are on screen, loading, and remembered as a settled window without a cursor.
  predicate HandingOver(s: State, rows: seq<Row>) {
    && s.generation == 2 && 2 in s.loads && s.loads[2].phase == AwaitTail && s.loads[2].threadId == "t"
    && s.pin.Some? && s.pin.value.generation == 2 && s.pin.value.View() == Window("t", rows, None, false)
    && "t" in s.cache && s.cache["t"].View() == Window("t", rows, None, false)
    && !s.cache["t"].loading && !s.cache["t"].error
  }

  lemma HandedOver(s: State, rows: seq<Row>)
    requires Left(s, rows)
    ensures HandingOver(Step(s, Rendered(QUIET)), rows)
  {
    var n := Pinned(s);
    assert Reconcile(n, QUIET) == n;
    assert Render(n, QUIET) == n;
  }

  lemma HandoverLoadFails(s: State, rows: seq<Row>, log: seq<Row>)
    requires HandingOver(s, rows) && rows != [] && StartOf(rows, log) != 0
    ensures Forgetful(Step(s, TailError(2)), rows, log) && Step(s, TailError(2)).cache == s.cache
  {
  }
}
