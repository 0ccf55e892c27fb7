// The Orchestrator pane's loads (frontend/local/orchestrator-transcript-refresh.js and its
// one caller, loadOrchestratorTranscript in render-session.js): the same merges as the
// view-only pin, on scalars, with a begin and a finally that own the loading flags.

module OrchestratorLoad {
  import opened Options
  import opened TranscriptRows
  import opened PinMerge
  import Ops = ViewOnlyOps

  datatype Load = Load(threadId: string, terminal: bool, prior: Option<Window>)

  datatype OlderLoad = OlderLoad(threadId: string, generation: nat, before: Cursor)

  datatype State = State(
    // The live session: its run, its active thread, whether the Orchestrator is at work.
    liveRun: string,
    activeThread: Option<string>,
    orchWorking: bool,
    entries: Option<seq<Row>>,
    entriesThread: Option<string>,
    entriesRun: string,
    olderCursor: Option<Cursor>,
    historyExtended: bool,
    loading: bool,
    repairing: bool,
    tailGap: bool,
    deltaDuringFetch: bool,
    wasWorking: bool,
    lastActivityWorking: bool,
    deltaRaisedWorking: bool,
    generation: nat,
    loads: map<nat, Load>,
    older: Option<OlderLoad>,
    deferred: Option<string>)

  const EMPTY_PANE := State("", None, false, None, None, "", None, false, false, false, false, false, false, false, false,
    0, map[], None, None)

  // ----- Loads -------------------------------------------------------------------------

  // beginOrchestratorLoad
  function Begin(s: State, repair: bool): State {
    s.(loading := true, repairing := s.repairing || repair, generation := s.generation + 1)
  }

  // applyOrchestratorLoadFinally
  function Settle(s: State, g: nat, terminal: bool): State {
    if g != s.generation then s
    else
      s.(
        loading := false,
        repairing := false,
        deltaDuringFetch := false,
        tailGap := s.tailGap && s.deltaDuringFetch,
        wasWorking := if terminal && !s.deltaDuringFetch then s.orchWorking else s.orchWorking || s.wasWorking)
  }

  // orchestratorRefreshPin
  function RefreshPin(s: State, threadId: string): Option<Window> {
    if s.entriesThread != Some(threadId) then None
    else Some(Window(threadId, if s.entries.Some? then s.entries.value else [], s.olderCursor, s.historyExtended))
  }

  // loadOrchestratorTranscript up to its await, or to its end where it needs no fetch.
  function BeginLoad(s: State, threadId: Option<string>, terminal: bool, repair: bool, transcript: seq<Row>): State {
    if threadId.None? || s.activeThread == threadId then
      LoadedAtOnce(Begin(s, repair), threadId, terminal, if threadId.None? then [] else transcript)
    else
      Fetching(Begin(s, repair), Load(threadId.value, terminal, RefreshPin(s, threadId.value)))
  }

  function LoadedAtOnce(s: State, threadId: Option<string>, terminal: bool, rows: seq<Row>): State {
    Settle(
      s.(entries := Some(rows), entriesThread := threadId, entriesRun := s.liveRun, historyExtended := false),
      s.generation, terminal)
  }

  function Fetching(s: State, load: Load): State {
    s.(loads := s.loads[s.generation := load])
  }

  function Finished(s: State, g: nat): State {
    s.(loads := s.loads - {g})
  }

  // The pane has no rows to merge into: the page stands alone.
  const NO_WINDOW := Window("", [], None, false)

  // applyRefreshedOrchestratorPage
  ghost function Refreshed(s: State, load: Load, page: Page): State {
    var base := if load.prior.Some? then load.prior.value else NO_WINDOW.(threadId := load.threadId);
    var merged := MergeRefreshed(base, page);
    s.(
      entries := Some(merged.entries),
      olderCursor := merged.olderCursor,
      historyExtended := merged.historyExtended,
      entriesThread := Some(load.threadId),
      entriesRun := s.liveRun)
  }

  function LoadFailed(s: State, g: nat, terminal: bool): State {
    Settle(if g == s.generation then s.(entriesThread := None) else s, g, terminal)
  }

  ghost function PageArrives(s: State, g: nat, page: Page): State
    requires g in s.loads
  {
    var load, done := s.loads[g], Finished(s, g);
    if g != s.generation || page.generation != s.liveRun then Settle(done, g, load.terminal)
    else match NormalizePage(page, load.threadId)
      case WrongThread => LoadFailed(done, g, load.terminal)
      case Accepted(normalized) => Settle(Refreshed(done, load, normalized), g, load.terminal)
  }

  // ----- The refresh decision ----------------------------------------------------------

  datatype Decision = Decision(refresh: bool, defer: bool, terminal: bool, repair: bool)

  // orchestratorTranscriptRefreshDecision
  function Decide(s: State, orchId: Option<string>): Decision {
    if orchId.None? || s.activeThread == orchId then Decision(false, false, false, false)
    else
      var activityIdleEdge := s.lastActivityWorking && !s.orchWorking;
      var suppressDeltaTerminal := s.deltaRaisedWorking && !s.lastActivityWorking && !s.orchWorking;
      var needsTailGapRepair := s.tailGap && !s.repairing;
      var terminalRefresh := !suppressDeltaTerminal
        && Ops.ShouldRefresh(s.loading, false, activityIdleEdge || s.wasWorking, s.orchWorking);
      var wanted := needsTailGapRepair || terminalRefresh;
      var refresh := wanted && s.older.None?;
      Decision(refresh, wanted && s.older.Some?, refresh && terminalRefresh && !needsTailGapRepair, refresh && needsTailGapRepair)
  }

  // One render of the pane.
  function Render(s: State, orchId: Option<string>, transcript: seq<Row>): State {
    var decision := Decide(s, orchId);
    var observed := s.(
      wasWorking := s.orchWorking || s.wasWorking,
      lastActivityWorking := s.orchWorking,
      deltaRaisedWorking := false);
    if decision.defer then observed.(deferred := orchId)
    else if decision.refresh then BeginLoad(observed, orchId, decision.terminal, decision.repair, transcript)
    else observed
  }

  // ----- Deltas and resync notices -----------------------------------------------------

  function Noted(s: State): State {
    s.(deltaDuringFetch := s.deltaDuringFetch || s.loading)
  }

  // applyDeltaToOrchestratorEntries, given what the reducer makes of the delta.
  function DeltaArrives(s: State, delta: Ops.Delta): State {
    if s.entriesThread.None? || s.entries.None? || s.entriesRun != s.liveRun then s
    else
      var rows := s.entries.value;
      match delta
      case Ignored => s
      case Refused(index) =>
        Noted(s.(
          tailGap := true,
          entries := Some(if 0 <= index < |rows| then rows[index := rows[index].(preview := true)] else rows)))
      case AppendText(at, text) =>
        if at >= |rows| then s
        else Noted(Raised(s, rows[at := rows[at].(text := rows[at].text + text)]))
      case NewRow(row) => Noted(Raised(s, Ops.InsertByOrder(rows, row)))
  }

  function Raised(s: State, rows: seq<Row>): State {
    s.(entries := Some(rows), wasWorking := true, deltaRaisedWorking := true)
  }

  // markShownThreadBehind
  function MarkBehind(s: State, threadId: string): State {
    if s.entriesThread != Some(threadId) then s else Noted(s.(tailGap := true))
  }

  // ----- Older pages -------------------------------------------------------------------

  function BeginOlder(s: State): State {
    if s.entriesThread.None? || s.olderCursor.None? || s.loading || s.older.Some? then s
    else s.(older := Some(OlderLoad(s.entriesThread.value, s.generation, s.olderCursor.value)))
  }

  predicate StillCurrent(s: State, older: OlderLoad) {
    s.generation == older.generation && s.entriesThread == Some(older.threadId)
  }

  // The finally block; a deferred refresh is decided again by the render it asks for.
  function OlderSettles(s: State, orchId: Option<string>, transcript: seq<Row>): State {
    var settled := s.(older := None, deferred := None);
    if s.deferred.Some? && s.entriesThread == s.deferred then Render(settled, orchId, transcript) else settled
  }

  // applyOlderOrchestratorPage
  ghost function OlderApplied(s: State, threadId: string, page: Page): State {
    if s.entriesRun != s.liveRun || page.generation != s.liveRun then s
    else
      var pane := Window(threadId, if s.entries.Some? then s.entries.value else [], s.olderCursor, s.historyExtended);
      var merged := MergeOlder(pane, page);
      s.(entries := Some(merged.entries), olderCursor := merged.olderCursor, historyExtended := merged.historyExtended)
  }

  ghost function OlderArrives(s: State, page: Page, orchId: Option<string>, transcript: seq<Row>): State
    requires s.older.Some?
  {
    OlderSettles(
      if StillCurrent(s, s.older.value) then OlderApplied(s, s.older.value.threadId, page) else s, orchId, transcript)
  }

  // restartOrchestratorFromLatestPage, when the relay can no longer read the cursor.
  function OlderFails(s: State, cursorRejected: bool, orchId: Option<string>, transcript: seq<Row>): State
    requires s.older.Some?
  {
    OlderSettles(
      if cursorRejected && StillCurrent(s, s.older.value) then
        s.(olderCursor := None, historyExtended := false, tailGap := true)
      else s,
      orchId, transcript)
  }

  datatype Event =
    | Session(liveRun: string, activeThread: Option<string>, orchWorking: bool)
    | Rendered(orchId: Option<string>, transcript: seq<Row>)
    | Reload(threadId: Option<string>, transcript: seq<Row>)
    | Forget
    | Arrives(g: nat, page: Page)
    | Fails(g: nat)
    | Delta(delta: Ops.Delta)
    | Behind(behind: string)
    | AskOlder
    | Older(page: Page, orchId: Option<string>, transcript: seq<Row>)
    | OlderError(cursorRejected: bool, orchId: Option<string>, transcript: seq<Row>)

  ghost function Step(s: State, e: Event): State {
    match e
    case Session(liveRun, activeThread, orchWorking) =>
      s.(liveRun := liveRun, activeThread := activeThread, orchWorking := orchWorking)
    case Rendered(orchId, transcript) => Render(s, orchId, transcript)
    case Reload(threadId, transcript) => BeginLoad(s, threadId, false, false, transcript)
    case Forget => s.(entriesThread := None)
    case Arrives(g, page) => if g in s.loads then PageArrives(s, g, page) else s
    case Fails(g) => if g in s.loads then LoadFailed(Finished(s, g), g, s.loads[g].terminal) else s
    case Delta(delta) => DeltaArrives(s, delta)
    case Behind(behind) => MarkBehind(s, behind)
    case AskOlder => BeginOlder(s)
    case Older(page, orchId, transcript) => if s.older.Some? then OlderArrives(s, page, orchId, transcript) else s
    case OlderError(rejected, orchId, transcript) =>
      if s.older.Some? then OlderFails(s, rejected, orchId, transcript) else s
  }

  ghost function Run(s: State, events: seq<Event>): State {
    if events == [] then s else Step(Run(s, events[..|events| - 1]), events[|events| - 1])
  }

  // ----- Ownership ---------------------------------------------------------------------

  // The flags a load owns are up only while the current load is out; an older page still
  // current was asked for with the cursor the pane still has.
  ghost predicate Owned(s: State) {
    && (s.loading || s.repairing || s.deltaDuringFetch ==> s.loading && s.generation in s.loads)
    && (s.generation in s.loads ==> s.loading)
    && (forall g :: g in s.loads ==> g <= s.generation)
    && (s.older.Some? ==>
      && s.older.value.generation <= s.generation
      && (s.older.value.generation == s.generation ==> !s.loading)
      && (StillCurrent(s, s.older.value) ==> s.olderCursor == Some(s.older.value.before)))
  }

  // Between the begin and what follows it: flags up, no load yet.
  ghost predicate Begun(s: State) {
    && s.loading && (forall g :: g in s.loads ==> g < s.generation)
    && (s.older.Some? ==> s.older.value.generation < s.generation)
  }

  lemma BeginBegins(s: State, repair: bool)
    requires Owned(s)
    ensures Begun(Begin(s, repair)) && Begin(s, repair).generation == s.generation + 1
  {
  }

  lemma LoadedAtOnceKeepsOwned(s: State, threadId: Option<string>, terminal: bool, rows: seq<Row>)
    requires Begun(s)
    ensures Owned(LoadedAtOnce(s, threadId, terminal, rows))
  {
  }

  lemma FetchingKeepsOwned(s: State, load: Load)
    requires Begun(s)
    ensures Owned(Fetching(s, load))
  {
  }

  lemma BeginLoadKeepsOwned(s: State, threadId: Option<string>, terminal: bool, repair: bool, transcript: seq<Row>)
    requires Owned(s)
    ensures var t := BeginLoad(s, threadId, terminal, repair, transcript); Owned(t) && t.generation == s.generation + 1
  {
    BeginBegins(s, repair);
    BeginLoadRaises(s, threadId, terminal, repair, transcript);
    var begun, rows := Begin(s, repair), if threadId.None? then [] else transcript;
    if threadId.None? || s.activeThread == threadId {
      LoadedAtOnceKeepsOwned(begun, threadId, terminal, rows);
      assert BeginLoad(s, threadId, terminal, repair, transcript) == LoadedAtOnce(begun, threadId, terminal, rows);
    } else {
      FetchingKeepsOwned(begun, Load(threadId.value, terminal, RefreshPin(s, threadId.value)));
    }
  }

  lemma RenderKeepsOwned(s: State, orchId: Option<string>, transcript: seq<Row>)
    requires Owned(s)
    ensures var t := Render(s, orchId, transcript);
      && Owned(t) && s.generation <= t.generation
      && (t.generation == s.generation ==>
        t.tailGap == s.tailGap && t.deltaDuringFetch == s.deltaDuringFetch && t.loading == s.loading)
  {
    var observed := s.(
      wasWorking := s.orchWorking || s.wasWorking, lastActivityWorking := s.orchWorking, deltaRaisedWorking := false);
    BeginLoadKeepsOwned(observed, orchId, Decide(s, orchId).terminal, Decide(s, orchId).repair, transcript);
  }

  // A gap noticed by a settled pane, or by a loading one during its load.
  predicate Noticed(s: State) {
    s.tailGap && (s.loading ==> s.deltaDuringFetch)
  }

  // What one event keeps: ownership, and a noticed gap unless a new load began.
  ghost predicate Kept(s: State, t: State) {
    && Owned(t) && s.generation <= t.generation
    && (t.generation == s.generation && Noticed(s) ==> Noticed(t))
  }

  lemma OlderSettlesKeeps(s: State, t: State, orchId: Option<string>, transcript: seq<Row>)
    requires Owned(s) && Owned(t.(older := None, deferred := None)) && t.generation == s.generation
    requires t.loading == s.loading && t.deltaDuringFetch == s.deltaDuringFetch && (s.tailGap ==> t.tailGap)
    ensures Kept(s, OlderSettles(t, orchId, transcript))
  {
    RenderKeepsOwned(t.(older := None, deferred := None), orchId, transcript);
  }

  // The end of a load, whatever it did to the rows.
  lemma SettleKeeps(s: State, x: State, g: nat, terminal: bool)
    requires Owned(s) && g in s.loads && x.generation == s.generation && x.loads == s.loads - {g} && x.older == s.older
    requires x.loading == s.loading && x.repairing == s.repairing && x.deltaDuringFetch == s.deltaDuringFetch
    requires x.tailGap == s.tailGap
    requires g != s.generation ==> x.entriesThread == s.entriesThread && x.olderCursor == s.olderCursor
    ensures Kept(s, Settle(x, g, terminal))
  {
  }

  lemma FailKeeps(s: State, g: nat)
    requires Owned(s) && g in s.loads
    ensures Kept(s, LoadFailed(Finished(s, g), g, s.loads[g].terminal))
  {
    var done := Finished(s, g);
    SettleKeeps(s, if g == done.generation then done.(entriesThread := None) else done, g, s.loads[g].terminal);
  }

  lemma ArrivalKeeps(s: State, g: nat, page: Page)
    requires Owned(s) && g in s.loads
    ensures Kept(s, PageArrives(s, g, page))
  {
    if g != s.generation || page.generation != s.liveRun {
      SettleKeeps(s, Finished(s, g), g, s.loads[g].terminal);
    } else {
      OwnPageKeeps(s, g, page);
    }
  }

  lemma OwnPageKeeps(s: State, g: nat, page: Page)
    requires Owned(s) && g in s.loads && g == s.generation && page.generation == s.liveRun
    ensures Kept(s, PageArrives(s, g, page))
  {
    var load, done := s.loads[g], Finished(s, g);
    match NormalizePage(page, load.threadId)
    case WrongThread => FailKeeps(s, g);
    case Accepted(normalized) =>
      LandingKeeps(s, g, normalized);
      assert PageArrives(s, g, page) == Settle(Refreshed(done, load, normalized), g, load.terminal);
  }

  lemma LandingKeeps(s: State, g: nat, page: Page)
    requires Owned(s) && g in s.loads && g == s.generation
    ensures Kept(s, Settle(Refreshed(Finished(s, g), s.loads[g], page), g, s.loads[g].terminal))
  {
  }

  lemma OlderEventKeeps(s: State, e: Event)
    requires Owned(s) && (e.Older? || e.OlderError?)
    ensures Kept(s, Step(s, e))
  {
    if s.older.Some? {
      match e
      case Older(page, orchId, transcript) =>
        var t := if StillCurrent(s, s.older.value) then OlderApplied(s, s.older.value.threadId, page) else s;
        OlderSettlesKeeps(s, t, orchId, transcript);
      case OlderError(rejected, orchId, transcript) =>
        var t :=
          if rejected && StillCurrent(s, s.older.value) then
            s.(olderCursor := None, historyExtended := false, tailGap := true)
          else s;
        OlderSettlesKeeps(s, t, orchId, transcript);
    }
  }

  lemma DeltaKeeps(s: State, delta: Ops.Delta)
    requires Owned(s)
    ensures Kept(s, DeltaArrives(s, delta))
  {
    if s.entries.Some? {
      var rows := s.entries.value;
      match delta
      case AppendText(at, text) =>
        if at < |rows| { RaisedKeeps(s, rows[at := rows[at].(text := rows[at].text + text)]); }
      case NewRow(row) => RaisedKeeps(s, Ops.InsertByOrder(rows, row));
      case Refused(index) =>
        RefusedKeeps(s, if 0 <= index < |rows| then rows[index := rows[index].(preview := true)] else rows);
      case Ignored =>
    }
  }

  lemma RaisedKeeps(s: State, rows: seq<Row>)
    requires Owned(s)
    ensures Kept(s, Noted(Raised(s, rows)))
  {
  }

  lemma RefusedKeeps(s: State, rows: seq<Row>)
    requires Owned(s)
    ensures Kept(s, Noted(s.(tailGap := true, entries := Some(rows))))
  {
  }

  // What a delta or a notice does to the rows and to the flags it raises.
  lemma NotedKeeps(s: State, t: State)
    requires Owned(s) && (s.tailGap ==> t.tailGap)
    requires t == s.(
      entries := t.entries, tailGap := t.tailGap, wasWorking := t.wasWorking, deltaRaisedWorking := t.deltaRaisedWorking)
    ensures Kept(s, Noted(t))
  {
  }

  lemma QuietEventKeeps(s: State, e: Event)
    requires Owned(s) && (e.Session? || e.Forget? || e.AskOlder?)
    ensures Kept(s, Step(s, e))
  {
  }

  lemma StepKeeps(s: State, e: Event)
    requires Owned(s)
    ensures Kept(s, Step(s, e))
  {
    if e.Rendered? {
      RenderKeepsOwned(s, e.orchId, e.transcript);
    } else if e.Reload? {
      BeginLoadKeepsOwned(s, e.threadId, false, false, e.transcript);
    } else if e.Arrives? {
      if e.g in s.loads { ArrivalKeeps(s, e.g, e.page); }
    } else if e.Fails? {
      if e.g in s.loads { FailKeeps(s, e.g); }
    } else if e.Older? || e.OlderError? {
      OlderEventKeeps(s, e);
    } else if e.Delta? {
      DeltaKeeps(s, e.delta);
    } else if e.Behind? {
      NotedKeeps(s, s.(tailGap := true));
    } else {
      QuietEventKeeps(s, e);
    }
  }

  // In every reachable state a loading or repairing pane has its current load outstanding, and
  // an older page that may still land lands exactly where the pane's cursor points.
  lemma {:induction false} FlagsImplyALoad(events: seq<Event>)
    ensures Owned(Run(EMPTY_PANE, events))
  {
    if events != [] {
      FlagsImplyALoad(events[..|events| - 1]);
      StepKeeps(Run(EMPTY_PANE, events[..|events| - 1]), events[|events| - 1]);
    }
  }

  // A gap raised by a refused delta or a notice is dropped only by a load begun afterwards.
  lemma {:induction false} GapOutlivesEarlierLoads(s: State, events: seq<Event>)
    requires Owned(s) && Noticed(s) && Run(s, events).generation == s.generation
    ensures Owned(Run(s, events)) && Noticed(Run(s, events))
  {
    if events != [] {
      var before := events[..|events| - 1];
      GenerationGrows(s, before);
      StepKeeps(Run(s, before), events[|events| - 1]);
      GapOutlivesEarlierLoads(s, before);
    }
  }

  lemma {:induction false} GenerationGrows(s: State, events: seq<Event>)
    requires Owned(s)
    ensures Owned(Run(s, events)) && s.generation <= Run(s, events).generation
  {
    if events != [] {
      GenerationGrows(s, events[..|events| - 1]);
      StepKeeps(Run(s, events[..|events| - 1]), events[|events| - 1]);
    }
  }

  lemma RefusalIsNoticed(s: State, index: int, threadId: string)
    requires s.entriesThread == Some(threadId)
    ensures Noticed(Step(s, Behind(threadId)))
    ensures s.entries.Some? && s.entriesRun == s.liveRun ==> Noticed(Step(s, Delta(Ops.Refused(index))))
  {
  }

  // A noticed gap does not wait behind an ordinary load: the next render starts a repair, once,
  // unless an older page is out; then the render that page hands back decides again.
  lemma GapIsRepairedOnRender(s: State, orchId: Option<string>, transcript: seq<Row>)
    requires Owned(s) && s.tailGap && !s.repairing && orchId.Some? && s.activeThread != orchId
    ensures var t := Render(s, orchId, transcript);
      if s.older.None? then t.repairing && t.generation == s.generation + 1 && t.generation in t.loads
      else t.deferred == orchId && t.generation == s.generation
    ensures s.older.Some? && s.deferred == orchId && s.entriesThread == orchId ==>
      OlderSettles(s, orchId, transcript).repairing
  {
  }

  // ----- Where the code falls short ----------------------------------------------------

  // A pane whose flags no load owns.
  ghost predicate Stranded(s: State) {
    s.loading && forall g :: g in s.loads ==> g < s.generation
  }

  // A step that begins no load leaves a stranded pane stranded.
  ghost predicate StaysStranded(s: State, t: State) {
    && s.generation <= t.generation
    && (Stranded(s) && t.generation == s.generation ==> Stranded(t) && t.repairing == s.repairing)
  }

  lemma SettleIsSilent(s: State, g: nat, terminal: bool)
    ensures Settle(s, g, terminal).generation == s.generation
    ensures g != s.generation ==> Settle(s, g, terminal) == s
  {
  }

  lemma BeginLoadRaises(s: State, threadId: Option<string>, terminal: bool, repair: bool, transcript: seq<Row>)
    ensures BeginLoad(s, threadId, terminal, repair, transcript).generation == s.generation + 1
  {
    var b, rows := Begin(s, repair), if threadId.None? then [] else transcript;
    SettleIsSilent(
      b.(entries := Some(rows), entriesThread := threadId, entriesRun := b.liveRun, historyExtended := false),
      b.generation, terminal);
    assert LoadedAtOnce(b, threadId, terminal, rows).generation == b.generation;
  }

  lemma RenderStaysStranded(s: State, orchId: Option<string>, transcript: seq<Row>)
    ensures StaysStranded(s, Render(s, orchId, transcript))
  {
    var decision := Decide(s, orchId);
    var observed := s.(
      wasWorking := s.orchWorking || s.wasWorking, lastActivityWorking := s.orchWorking, deltaRaisedWorking := false);
    if !decision.defer && decision.refresh {
      BeginLoadRaises(observed, orchId, decision.terminal, decision.repair, transcript);
      assert Render(s, orchId, transcript) == BeginLoad(observed, orchId, decision.terminal, decision.repair, transcript);
    }
  }

  lemma SettlesStranded(s: State, t: State, orchId: Option<string>, transcript: seq<Row>)
    requires t.generation == s.generation && t.loading == s.loading && t.repairing == s.repairing && t.loads == s.loads
    ensures StaysStranded(s, OlderSettles(t, orchId, transcript))
  {
    RenderStaysStranded(t.(older := None, deferred := None), orchId, transcript);
  }

  lemma OlderAppliedIsQuiet(s: State, threadId: string, page: Page)
    ensures var t := OlderApplied(s, threadId, page);
      t.generation == s.generation && t.loading == s.loading && t.repairing == s.repairing && t.loads == s.loads
  {
  }

  lemma OlderStaysStranded(s: State, e: Event)
    requires s.older.Some? && (e.Older? || e.OlderError?)
    ensures StaysStranded(s, Step(s, e))
  {
    if e.Older? {
      OlderAppliedIsQuiet(s, s.older.value.threadId, e.page);
      SettlesStranded(s,
        if StillCurrent(s, s.older.value) then OlderApplied(s, s.older.value.threadId, e.page) else s,
        e.orchId, e.transcript);
    } else {
      SettlesStranded(s,
        if e.cursorRejected && StillCurrent(s, s.older.value) then
          s.(olderCursor := None, historyExtended := false, tailGap := true)
        else s,
        e.orchId, e.transcript);
    }
  }

  lemma ArrivalStaysStranded(s: State, g: nat, page: Page)
    requires g in s.loads
    ensures StaysStranded(s, PageArrives(s, g, page))
  {
    if g != s.generation {
      SettleIsSilent(Finished(s, g), g, s.loads[g].terminal);
    } else {
      ArrivalKeepsGeneration(s, g, page);
      assert !Stranded(s);
    }
  }

  lemma ArrivalKeepsGeneration(s: State, g: nat, page: Page)
    requires g in s.loads && g == s.generation
    ensures PageArrives(s, g, page).generation == s.generation
  {
    var load, done := s.loads[g], Finished(s, g);
    SettleIsSilent(done, g, load.terminal);
    SettleIsSilent(done.(entriesThread := None), g, load.terminal);
    match NormalizePage(page, load.threadId)
    case WrongThread =>
    case Accepted(normalized) => SettleIsSilent(Refreshed(done, load, normalized), g, load.terminal);
  }

  lemma FailureStaysStranded(s: State, g: nat)
    requires g in s.loads
    ensures StaysStranded(s, LoadFailed(Finished(s, g), g, s.loads[g].terminal))
  {
    var done := Finished(s, g);
    SettleIsSilent(if g == s.generation then done.(entriesThread := None) else done, g, s.loads[g].terminal);
  }

  lemma DeltaStaysStranded(s: State, delta: Ops.Delta)
    ensures StaysStranded(s, DeltaArrives(s, delta))
  {
    if s.entries.Some? {
      var rows := s.entries.value;
      match delta
      case AppendText(at, text) =>
        if at < |rows| { RaisedStays(s, rows[at := rows[at].(text := rows[at].text + text)]); }
      case NewRow(row) => RaisedStays(s, Ops.InsertByOrder(rows, row));
      case _ =>
    }
  }

  lemma RaisedStays(s: State, rows: seq<Row>)
    ensures StaysStranded(s, Noted(Raised(s, rows)))
  {
  }

  lemma QuietStaysStranded(s: State, e: Event)
    requires e.Session? || e.Forget? || e.AskOlder? || e.Behind?
    ensures StaysStranded(s, Step(s, e))
  {
  }

  lemma StepStaysStranded(s: State, e: Event)
    ensures StaysStranded(s, Step(s, e))
  {
    if e.Rendered? {
      RenderStaysStranded(s, e.orchId, e.transcript);
    } else if e.Reload? {
      BeginLoadRaises(s, e.threadId, false, false, e.transcript);
    } else if e.Arrives? {
      if e.g in s.loads { ArrivalStaysStranded(s, e.g, e.page); }
    } else if e.Fails? {
      if e.g in s.loads { FailureStaysStranded(s, e.g); }
    } else if e.Older? || e.OlderError? {
      if s.older.Some? { OlderStaysStranded(s, e); }
    } else if e.Delta? {
      DeltaStaysStranded(s, e.delta);
    } else {
      QuietStaysStranded(s, e);
    }
  }

  // A generation bumped without a begin, as a relay restart does, abandons the load without
  // releasing what it owns: the flags stay as they are, whatever answers and happens, until
  // another load begins.
  lemma {:induction false} BareBumpStrandsTheFlags(s: State, events: seq<Event>)
    requires Owned(s) && s.loading
    ensures var bumped, t := s.(generation := s.generation + 1), Run(s.(generation := s.generation + 1), events);
      && bumped.generation <= t.generation
      && (t.generation == bumped.generation ==>
        t.loading && t.generation !in t.loads && Stranded(t) && t.repairing == s.repairing)
  {
    if events != [] {
      BareBumpStrandsTheFlags(s, events[..|events| - 1]);
      StepStaysStranded(Run(s.(generation := s.generation + 1), events[..|events| - 1]), events[|events| - 1]);
    }
  }

  class OrchestratorPane {
    var liveRun: string
    var activeThread: Option<string>
    var orchWorking: bool
    var orchestratorEntries: Option<seq<Row>>
    var entriesThreadId: Option<string>
    var entriesGeneration: string
    var olderCursor: Option<Cursor>
    var historyExtended: bool
    var entriesLoading: bool
    var tailGapRepairing: bool
    var tailGap: bool
    var deltaDuringFetch: bool
    var wasWorking: bool
    var lastActivityWorking: bool
    var deltaRaisedWorking: bool
    var loadGeneration: nat
    var loads: map<nat, Load>
    var olderLoading: Option<OlderLoad>
    var latch: Option<string>

    function Contents(): State
      reads this
    {
      State(liveRun, activeThread, orchWorking, orchestratorEntries, entriesThreadId, entriesGeneration, olderCursor,
        historyExtended, entriesLoading, tailGapRepairing, tailGap, deltaDuringFetch, wasWorking, lastActivityWorking,
        deltaRaisedWorking, loadGeneration, loads, olderLoading, latch)
    }

    method BeginOrchestratorLoad(repair: bool) returns (g: nat)
      modifies this`entriesLoading, this`tailGapRepairing, this`loadGeneration
      ensures Contents() == Begin(old(Contents()), repair) && g == loadGeneration
    {
      entriesLoading := true;
      if repair {
        tailGapRepairing := true;
      }
      loadGeneration := loadGeneration + 1;
      g := loadGeneration;
    }

    method ApplyOrchestratorLoadFinally(g: nat, terminal: bool) returns (settled: bool)
      modifies this`entriesLoading, this`tailGapRepairing, this`deltaDuringFetch, this`tailGap, this`wasWorking
      ensures Contents() == Settle(old(Contents()), g, terminal) && (settled <==> g == loadGeneration)
    {
      settled := g == loadGeneration;
      if settled {
        wasWorking := if terminal && !deltaDuringFetch then orchWorking else orchWorking || wasWorking;
        ReleaseFlags();
      }
    }

    method ReleaseFlags()
      modifies this`entriesLoading, this`tailGapRepairing, this`deltaDuringFetch, this`tailGap
      ensures !entriesLoading && !tailGapRepairing && !deltaDuringFetch
      ensures tailGap == old(tailGap && deltaDuringFetch)
    {
      tailGap := tailGap && deltaDuringFetch;
      entriesLoading, tailGapRepairing, deltaDuringFetch := false, false, false;
    }

    method ReplaceRows(rows: Window)
      modifies this`orchestratorEntries, this`olderCursor, this`historyExtended
      ensures orchestratorEntries == Some(rows.entries)
      ensures olderCursor == rows.olderCursor && historyExtended == rows.historyExtended
    {
      orchestratorEntries := Some(rows.entries);
      olderCursor, historyExtended := rows.olderCursor, rows.historyExtended;
    }

    method ApplyRefreshedOrchestratorPage(load: Load, page: Page)
      modifies this`orchestratorEntries, this`olderCursor, this`historyExtended, this`entriesThreadId, this`entriesGeneration
      ensures Contents() == Refreshed(old(Contents()), load, page)
    {
      var base := if load.prior.Some? then load.prior.value else NO_WINDOW.(threadId := load.threadId);
      var merged := MergeRefreshedPage(base, page);
      ReplaceRows(merged);
      StampRows(load.threadId);
    }

    method StampRows(threadId: string)
      modifies this`entriesThreadId, this`entriesGeneration
      ensures entriesThreadId == Some(threadId) && entriesGeneration == liveRun
    {
      entriesThreadId, entriesGeneration := Some(threadId), liveRun;
    }

    method ApplyOlderOrchestratorPage(threadId: string, page: Page)
      modifies this`orchestratorEntries, this`olderCursor, this`historyExtended
      ensures Contents() == OlderApplied(old(Contents()), threadId, page)
    {
      if entriesGeneration != liveRun || page.generation != liveRun { return; }
      var rows := if orchestratorEntries.Some? then orchestratorEntries.value else [];
      var merged := MergeOlderPage(Window(threadId, rows, olderCursor, historyExtended), page);
      ReplaceRows(merged);
    }

    method RestartOrchestratorFromLatestPage()
      modifies this`olderCursor, this`historyExtended, this`tailGap
      ensures Contents() == old(Contents()).(olderCursor := None, historyExtended := false, tailGap := true)
    {
      olderCursor, historyExtended, tailGap := None, false, true;
    }
  }
}
