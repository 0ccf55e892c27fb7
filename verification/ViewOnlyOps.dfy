// The view-only pin: a read-only window on a thread that is not the relay's active one
// (frontend/local/view-only-thread.js, frontend/local/view-only-refresh-ops.js).
//
// Every asynchronous function is cut at its awaits. `State` is what lives between two
// cuts: the shared state bag plus one record per call still waiting for an answer.

module ViewOnlyOps {
  import opened Options
  import opened Filters
  import opened TranscriptRows
  import opened PinMerge

  const MAX_CACHED_HISTORY_BRIDGE_PAGES: nat := 3
  const MAX_SAFE_INTEGER: int := 0x1F_FFFF_FFFF_FFFF

  datatype Pin = Pin(
    threadId: string,
    entries: seq<Row>,
    olderCursor: Option<Cursor>,
    historyExtended: bool,
    pageRevision: Option<int>,
    generation: nat,
    relayGeneration: string,
    loading: bool,
    error: bool,
    tailGap: bool,
    deltaDuringFetch: bool,
    resyncRevision: Option<int>,
    wasWorking: bool)
  {
    function View(): Window {
      Window(threadId, entries, olderCursor, historyExtended)
    }
  }

  // `transcript` and `turn` are the active thread's: the rows the session shows of it, and whether
  // it is at work.
  datatype Session = Session(
    activeThread: Option<string>,
    relayGeneration: string,
    working: set<string>,
    transcript: seq<Row>,
    turn: bool)

  datatype Phase = AwaitTail | AwaitBridge(page: Page, bridge: Window, fetched: nat)

  // The locals of one loadViewOnlyTranscript call past its first await.
  datatype Load = Load(
    threadId: string,
    relayGeneration: string,
    prior: Option<Pin>,
    isWorking: bool,
    terminal: bool,
    phase: Phase)

  // The locals of one loadOlderViewOnlyTranscript call; its presence is `viewOnlyOlderLoading`.
  datatype OlderLoad = OlderLoad(threadId: string, generation: nat, before: Cursor)

  datatype State = State(
    session: Option<Session>,
    view: Option<string>,
    pin: Option<Pin>,
    generation: nat,
    cache: map<string, Pin>,
    cacheGeneration: string,
    loads: map<nat, Load>,
    older: Option<OlderLoad>,
    deferred: Option<string>,
    // The session as it was when the active thread last changed, until a render has seen it.
    leaving: Option<Session>)

  const INITIAL := State(None, None, None, 0, map[], "", map[], None, None, None)

  // ----- Pure decisions ----------------------------------------------------------------

  function SessionGeneration(session: Option<Session>): string {
    match session
    case Some(live) => live.relayGeneration
    case None => ""
  }

  predicate Eligible(session: Option<Session>, threadId: string) {
    session.Some? && session.value.activeThread != Some(threadId)
  }

  datatype Action = Keep | Release | Refresh

  // What the review channel says about a pin: not a review, one that ended, or one in
  // progress whose signature may have moved.
  datatype ReviewView = NotReview | ReviewOver | ReviewOn(advanced: bool)

  // viewOnlyPinNextAction
  function NextAction(session: Option<Session>, pin: Option<Pin>, view: Option<string>, review: ReviewView): Action {
    if pin.None? || session.None? then Keep
    else if pin.value.relayGeneration != session.value.relayGeneration then
      if view == Some(pin.value.threadId) then Refresh else Release
    else if session.value.activeThread == Some(pin.value.threadId) then Release
    else match review
      case ReviewOver => if view == Some(pin.value.threadId) then Refresh else Release
      case ReviewOn(advanced) => if !pin.value.loading && advanced then Refresh else Keep
      case NotReview => if view != Some(pin.value.threadId) then Release else Keep
  }

  // viewOnlySelfHealThreadId
  function SelfHeal(session: Option<Session>, view: Option<string>, pin: Option<Pin>, backoffElapsed: bool): Option<string> {
    if view.None? || !Eligible(session, view.value) then None
    else if pin.Some? && pin.value.threadId == view.value
      && (pin.value.loading || !pin.value.error || !backoffElapsed) then None
    else view
  }

  // shouldRefreshViewedThread
  predicate ShouldRefresh(loading: bool, needsRepair: bool, wasWorking: bool, working: bool) {
    !loading && (needsRepair || (wasWorking && !working))
  }

  // What reduceTranscriptDeltaEvent answers for a pin's own entries.
  datatype Delta =
    | Ignored
    | Refused(entryIndex: int)
    | AppendText(at: nat, text: string)
    | NewRow(row: Row)

  // insertRowByOrderSeq: give up and append at the first unnumbered neighbour.
  function InsertSlot(rows: seq<Row>, order: int, index: nat): (at: nat)
    requires index <= |rows|
    ensures at <= |rows|
  {
    if index == 0 then 0
    else if rows[index - 1].orderSeq.None? then |rows|
    else if rows[index - 1].orderSeq.value <= order then index
    else InsertSlot(rows, order, index - 1)
  }

  function InsertByOrder(rows: seq<Row>, row: Row): seq<Row> {
    if row.orderSeq.None? then rows + [row]
    else InsertAt(rows, InsertSlot(rows, row.orderSeq.value, |rows|), row)
  }

  // applyDeltaToViewOnlyPin, fenced by the run that minted the pin's ids.
  function ApplyDelta(pin: Pin, generation: string, delta: Delta): Pin {
    if generation != pin.relayGeneration then pin
    else match delta
      case Ignored => pin
      case Refused(index) =>
        pin.(
          tailGap := true,
          deltaDuringFetch := pin.deltaDuringFetch || pin.loading,
          entries :=
            if 0 <= index < |pin.entries| then pin.entries[index := pin.entries[index].(preview := true)]
            else pin.entries)
      case AppendText(at, text) =>
        if at >= |pin.entries| then pin
        else
          pin.(
            entries := pin.entries[at := pin.entries[at].(text := pin.entries[at].text + text)],
            wasWorking := true,
            deltaDuringFetch := pin.deltaDuringFetch || pin.loading)
      case NewRow(row) =>
        pin.(
          entries := InsertByOrder(pin.entries, row),
          wasWorking := true,
          deltaDuringFetch := pin.deltaDuringFetch || pin.loading)
  }

  function Wanted(revision: Option<int>): int {
    match revision
    case Some(r) => r
    case None => MAX_SAFE_INTEGER
  }

  predicate AtLeast(revision: Option<int>, wanted: int) {
    revision.Some? && revision.value >= wanted
  }

  // resyncViewOnlyPin
  function ResyncPin(pin: Pin, threadId: string, revision: Option<int>): Pin {
    var wanted := Wanted(revision);
    if pin.threadId != threadId then pin
    else if pin.loading then
      if (if pin.resyncRevision.Some? then pin.resyncRevision.value else -1) >= wanted then pin
      else pin.(resyncRevision := Some(wanted))
    else if AtLeast(pin.pageRevision, wanted) then pin
    else pin.(tailGap := true)
  }

  // viewOnlyPinBehindResync
  predicate BehindResync(loadingPin: Option<Pin>, pageRevision: Option<int>) {
    && loadingPin.Some?
    && loadingPin.value.resyncRevision.Some?
    && !AtLeast(pageRevision, loadingPin.value.resyncRevision.value)
  }

  predicate WasWorkingAfterFetch(live: Option<Pin>, isWorking: bool, terminal: bool) {
    if terminal && !(live.Some? && live.value.deltaDuringFetch) then isWorking
    else isWorking || (live.Some? && live.value.wasWorking)
  }

  // ----- Loading -----------------------------------------------------------------------

  function CacheFor(s: State, generation: string): State {
    if s.cacheGeneration == generation then s else s.(cache := map[], cacheGeneration := generation)
  }

  // rememberPin
  function RememberPin(s: State): State {
    if s.pin.Some? && !s.pin.value.error && (!s.pin.value.loading || s.pin.value.entries != [])
      && s.pin.value.relayGeneration == SessionGeneration(s.session)
    then
      var c := CacheFor(s, SessionGeneration(s.session));
      c.(cache := c.cache[s.pin.value.threadId := s.pin.value])
    else s
  }

  function PriorFor(s: State, threadId: string): (State, Option<Pin>)
    requires s.session.Some?
  {
    var live := s.session.value.relayGeneration;
    if s.pin.Some? && s.pin.value.threadId == threadId then
      (s, if s.pin.value.relayGeneration != live then None else s.pin)
    else
      var c := CacheFor(s, live);
      (c, if threadId in c.cache then Some(c.cache[threadId]) else None)
  }

  function LoadingPin(threadId: string, relayGeneration: string, generation: nat, prior: Option<Pin>, isWorking: bool): Pin {
    Pin(
      threadId,
      if prior.Some? then prior.value.entries else [],
      if prior.Some? then prior.value.olderCursor else None,
      prior.Some? && prior.value.historyExtended,
      if prior.Some? then prior.value.pageRevision else None,
      generation,
      relayGeneration,
      true,
      false,
      prior.Some? && prior.value.tailGap,
      false,
      None,
      isWorking || (prior.Some? && prior.value.wasWorking))
  }

  // loadViewOnlyTranscript up to its first await.
  function BeginLoad(s: State, threadId: Option<string>, terminal: bool): State {
    var r := RememberPin(s).(generation := s.generation + 1);
    if threadId.None? || !Eligible(r.session, threadId.value) then r.(pin := None)
    else
      var (c, prior) := PriorFor(r, threadId.value);
      var live := r.session.value.relayGeneration;
      var isWorking := threadId.value in r.session.value.working;
      c.(
        pin := Some(LoadingPin(threadId.value, live, r.generation, prior, isWorking)),
        loads := c.loads[r.generation := Load(threadId.value, live, prior, isWorking, terminal, AwaitTail)])
  }

  // pinForGeneration(state, threadId, generation, prior)
  function LivePin(s: State, g: nat, load: Load): Option<Pin> {
    if s.pin.Some? && s.pin.value.threadId == load.threadId && s.pin.value.generation == g then s.pin else load.prior
  }

  function DropLoad(s: State, g: nat): State {
    s.(loads := s.loads - {g})
  }

  // The outer catch: keep the rows, stop loading, say so.
  function FailLoad(s: State, g: nat, load: Load): State {
    var live := LivePin(s, g, load);
    DropLoad(s, g).(pin := Some(Pin(
      load.threadId,
      if live.Some? then live.value.entries else [],
      if live.Some? then live.value.olderCursor else None,
      live.Some? && live.value.historyExtended,
      if live.Some? then live.value.pageRevision else None,
      g,
      load.relayGeneration,
      false,
      true,
      live.Some? && live.value.tailGap && live.value.deltaDuringFetch,
      false,
      None,
      WasWorkingAfterFetch(live, load.isWorking, load.terminal))))
  }

  // `new Set(prior?.historyExtended ? prior.entries.map(transcriptRowKey) : [])`
  function RetainedIds(load: Load): set<Option<string>> {
    if load.prior.Some? && load.prior.value.historyExtended then KeysOf(load.prior.value.entries) else {}
  }

  predicate SharesAny(rows: seq<Row>, ids: set<Option<string>>) {
    exists i :: 0 <= i < |rows| && rows[i].key in ids
  }

  // The pin a page is merged into: what is live, or, when the cached history could not be
  // reached, only the rows that arrived since.
  function MergePin(s: State, g: nat, load: Load, page: Page, connected: bool): Window {
    var live := LivePin(s, g, load);
    var retained := RetainedIds(load);
    if live.None? then Window(load.threadId, [], None, false)
    else if retained != {} && !connected then
      Window(load.threadId, Filter(live.value.entries, (r: Row) => r.key !in retained), page.prevCursor, false)
    else live.value.View()
  }

  ghost function FinishLoad(s: State, g: nat, load: Load, page: Page, connected: bool): State {
    match NormalizePage(page, load.threadId)
    case WrongThread => FailLoad(s, g, load)
    case Accepted(normalized) =>
      var live := LivePin(s, g, load);
      var merged := MergeRefreshed(MergePin(s, g, load, page, connected), normalized);
      DropLoad(s, g).(pin := Some(Pin(
        load.threadId,
        merged.entries,
        merged.olderCursor,
        merged.historyExtended,
        normalized.revision,
        g,
        load.relayGeneration,
        false,
        false,
        (live.Some? && live.value.tailGap && live.value.deltaDuringFetch) || BehindResync(live, normalized.revision),
        false,
        None,
        WasWorkingAfterFetch(live, load.isWorking, load.terminal))))
  }

  // A page, or the session since the request, from another run of the relay.
  predicate OtherRun(s: State, load: Load, page: Page) {
    SessionGeneration(s.session) != load.relayGeneration || page.generation != SessionGeneration(s.session)
  }

  // The tail page lands.
  ghost function TailAnswered(s: State, g: nat, page: Page): State
    requires g in s.loads && s.loads[g].phase == AwaitTail
  {
    var load := s.loads[g];
    var retained := RetainedIds(load);
    if g != s.generation then DropLoad(s, g)
    else if OtherRun(s, load, page) then FailLoad(s, g, load)
    else if retained == {} || page.Rows() == [] || SharesAny(page.Rows(), retained) then
      FinishLoad(s, g, load, page, SharesAny(page.Rows(), retained))
    else match NormalizePage(page, load.threadId)
      case WrongThread => FailLoad(s, g, load)
      case Accepted(normalized) =>
        if page.prevCursor.None? then FinishLoad(s, g, load, page, false)
        else
          var bridge := Window(load.threadId, normalized.Rows(), page.prevCursor, false);
          s.(loads := s.loads[g := load.(phase := AwaitBridge(page, bridge, 0))])
  }

  function TailFailed(s: State, g: nat): State
    requires g in s.loads
  {
    if g != s.generation then DropLoad(s, g) else FailLoad(s, g, s.loads[g])
  }

  // The bridge loop's `isCurrent`.
  predicate BridgeIsCurrent(s: State, g: nat, load: Load) {
    g == s.generation && s.view == Some(load.threadId) && Eligible(s.session, load.threadId)
  }

  // Where the bridge goes once an older page is on it: across, given up, or one page further.
  ghost function Bridged(s: State, g: nat, load: Load, bridge: Window, connected: bool): State
    requires load.phase.AwaitBridge?
  {
    var phase := load.phase;
    if connected then
      FinishLoad(s, g, load, phase.page.(entries := Some(bridge.entries), prevCursor := bridge.olderCursor), true)
    else if bridge.olderCursor.None? || phase.fetched + 1 >= MAX_CACHED_HISTORY_BRIDGE_PAGES then
      FinishLoad(s, g, load, phase.page, false)
    else
      s.(loads := s.loads[g := load.(phase := AwaitBridge(phase.page, bridge, phase.fetched + 1))])
  }

  // One more bridge page lands.
  ghost function BridgeAnswered(s: State, g: nat, older: Page): State
    requires g in s.loads && s.loads[g].phase.AwaitBridge?
  {
    var load := s.loads[g];
    var phase := load.phase;
    if !BridgeIsCurrent(s, g, load) then DropLoad(s, g)
    else if OtherRun(s, load, older) then FailLoad(s, g, load)
    else match NormalizePage(older, load.threadId)
      case WrongThread => FailLoad(s, g, load)
      case Accepted(normalized) =>
        if older.prevCursor.Some? && older.prevCursor == phase.bridge.olderCursor then FailLoad(s, g, load)
        else
          Bridged(s, g, load, MergeOlder(phase.bridge, normalized), SharesAny(normalized.Rows(), RetainedIds(load)))
  }

  // A bridge fetch fails; while the relay is still reading history the loop just stops.
  ghost function BridgeFailed(s: State, g: nat, historyPending: bool): State
    requires g in s.loads && s.loads[g].phase.AwaitBridge?
  {
    var load := s.loads[g];
    if !BridgeIsCurrent(s, g, load) then DropLoad(s, g)
    else if historyPending then FinishLoad(s, g, load, load.phase.page, false)
    else FailLoad(s, g, load)
  }

  // ----- Rendering and navigation ------------------------------------------------------

  datatype RenderEnv = RenderEnv(review: ReviewView, backoffElapsed: bool)

  function Reconcile(s: State, env: RenderEnv): State {
    if s.pin.None? || s.session.None? then s
    else match NextAction(s.session, s.pin, s.view, env.review)
      case Release => RememberPin(s).(pin := None)
      case Refresh => BeginLoad(s, Some(s.pin.value.threadId), false)
      case Keep =>
        var pin := s.pin.value;
        if !ShouldRefresh(pin.loading, pin.tailGap, pin.wasWorking, pin.threadId in s.session.value.working) then s
        else if s.older.Some? then s.(deferred := Some(pin.threadId))
        else BeginLoad(s, Some(pin.threadId), true)
  }

  // maybeRefreshViewOnly
  function Render(s: State, env: RenderEnv): State {
    var r := Reconcile(s, env);
    match SelfHeal(r.session, r.view, r.pin, env.backoffElapsed)
    case Some(threadId) => BeginLoad(r, Some(threadId), false)
    case None => r
  }

  // A snapshot is written: when it takes the relay to another thread, the session it replaces is
  // kept for the next render.
  function Written(s: State, session: Option<Session>): State {
    s.(
      session := session,
      leaving :=
        if s.session.Some? && session.Some? && s.session.value.activeThread != session.value.activeThread then s.session
        else s.leaving)
  }

  // The thread on screen was the active one until now, and no pin shows it.
  predicate HandsOver(s: State) {
    && s.view.Some? && s.session.Some? && s.pin.None?
    && s.leaving.Some? && s.leaving.value.activeThread == s.view && s.session.value.activeThread != s.view
  }

  // The pin its live rows become: settled, with no cursor, whatever comes before them.
  function HandoverPin(threadId: string, live: Session): Pin {
    Pin(threadId, live.transcript, None, false, None, 0, live.relayGeneration, false, false, false, false, None, live.turn)
  }

  function Pinned(s: State): State
    requires HandsOver(s)
  {
    s.(leaving := None, pin := Some(HandoverPin(s.view.value, s.leaving.value)))
  }

  // The session's render: it pins a thread handed over, refreshes, and then loads that thread.
  function Paint(s: State, env: RenderEnv): State {
    if HandsOver(s) then BeginLoad(Render(Pinned(s), env), s.view, false) else Render(s.(leaving := None), env)
  }

  // A committed navigation renders, then always loads where it went.
  function Navigate(s: State, view: Option<string>, env: RenderEnv): State {
    var n := s.(view := view);
    BeginLoad(if n.session.Some? then Paint(n, env) else n, view, false)
  }

  // ----- Older pages -------------------------------------------------------------------

  function BeginOlder(s: State): State {
    if s.pin.None? || s.view != Some(s.pin.value.threadId) || s.pin.value.olderCursor.None?
      || s.pin.value.loading || s.older.Some? then s
    else s.(older := Some(OlderLoad(s.pin.value.threadId, s.pin.value.generation, s.pin.value.olderCursor.value)))
  }

  predicate OlderIsCurrent(s: State, older: OlderLoad) {
    s.pin.Some? && s.pin.value.generation == older.generation && s.pin.value.threadId == older.threadId
  }

  // The finally block: hand back a refresh deferred while history was loading.
  function SettleOlder(s: State, env: RenderEnv): State {
    var settled := s.(older := None, deferred := None);
    if s.deferred.Some? && s.view == s.deferred && s.pin.Some? && Some(s.pin.value.threadId) == s.deferred
      && s.session.Some?
    then Render(settled, env)
    else settled
  }

  ghost function OlderAnswered(s: State, page: Page, env: RenderEnv): State
    requires s.older.Some?
  {
    if !OlderIsCurrent(s, s.older.value)
      || s.pin.value.relayGeneration != SessionGeneration(s.session)
      || page.generation != SessionGeneration(s.session)
    then SettleOlder(s, env)
    else
      var merged := MergeOlder(s.pin.value.View(), page);
      SettleOlder(s.(pin := Some(s.pin.value.(
        entries := merged.entries,
        olderCursor := merged.olderCursor,
        historyExtended := merged.historyExtended))), env)
  }

  // A cursor the relay can no longer read restarts the pin from the latest page.
  function OlderFailed(s: State, cursorRejected: bool, env: RenderEnv): State
    requires s.older.Some?
  {
    if cursorRejected && OlderIsCurrent(s, s.older.value) then
      var restarted := s.(pin := Some(s.pin.value.(olderCursor := None, historyExtended := false)));
      SettleOlder(BeginLoad(restarted, Some(s.older.value.threadId), false), env)
    else SettleOlder(s, env)
  }

  // ----- One step of everything --------------------------------------------------------

  datatype Event =
    | SetSession(session: Option<Session>)
    | Rendered(env: RenderEnv)
    | Navigated(view: Option<string>, env: RenderEnv)
    | Tail(g: nat, page: Page)
    | TailError(g: nat)
    | Bridge(g: nat, older: Page)
    | BridgeError(g: nat, historyPending: bool)
    | AskOlder
    | OlderPage(page: Page, env: RenderEnv)
    | OlderError(cursorRejected: bool, env: RenderEnv)
    | TranscriptDelta(generation: string, delta: Delta)
    | ResyncNotice(threadId: string, revision: Option<int>)
    | Evict(threadId: string)

  ghost function Step(s: State, e: Event): State {
    match e
    case SetSession(session) => Written(s, session)
    case Rendered(env) => if s.session.Some? then Paint(s, env) else s
    case Navigated(view, env) => Navigate(s, view, env)
    case Tail(g, page) =>
      if g in s.loads && s.loads[g].phase == AwaitTail then TailAnswered(s, g, page) else s
    case TailError(g) =>
      if g in s.loads && s.loads[g].phase == AwaitTail then TailFailed(s, g) else s
    case Bridge(g, older) =>
      if g in s.loads && s.loads[g].phase.AwaitBridge? then BridgeAnswered(s, g, older) else s
    case BridgeError(g, historyPending) =>
      if g in s.loads && s.loads[g].phase.AwaitBridge? then BridgeFailed(s, g, historyPending) else s
    case AskOlder => BeginOlder(s)
    case OlderPage(page, env) => if s.older.Some? then OlderAnswered(s, page, env) else s
    case OlderError(cursorRejected, env) => if s.older.Some? then OlderFailed(s, cursorRejected, env) else s
    case TranscriptDelta(generation, delta) =>
      if s.pin.Some? then s.(pin := Some(ApplyDelta(s.pin.value, generation, delta))) else s
    case ResyncNotice(threadId, revision) =>
      if s.pin.Some? then s.(pin := Some(ResyncPin(s.pin.value, threadId, revision))) else s
    case Evict(threadId) => s.(cache := s.cache - {threadId})
  }

  ghost function Run(s: State, events: seq<Event>): State {
    if events == [] then s else Step(Run(s, events[..|events| - 1]), events[|events| - 1])
  }
}
