// Every event keeps the view-only pin a contiguous slice, so every honest run does.

module ViewOnlyRuns {
  import opened Options
  import opened TranscriptRows
  import opened PinMerge
  import opened PinSlices
  import opened PinHoles
  import opened ViewOnlyOps
  import opened ViewOnlyNoHole

  // ----- Tail pages --------------------------------------------------------------------

  // The load whose answer may still land, and the page it answers with.
  ghost predicate Landing(s: State, page: Page, relay: Relay) {
    && Served(relay) && Inv(s, relay) && s.generation in s.loads
    && page.entries.Some?
    && page.threadId == s.loads[s.generation].threadId
    && PageOf(page, LogOf(s, relay), StartOf(page.Rows(), LogOf(s, relay)))
  }

  ghost function LogOf(s: State, relay: Relay): seq<Row>
    requires s.generation in s.loads
  {
    relay.logs(s.loads[s.generation].relayGeneration, s.loads[s.generation].threadId)
  }

  ghost function Live(s: State): Option<Pin>
    requires s.generation in s.loads
  {
    LivePin(s, s.generation, s.loads[s.generation])
  }

  // The page ends after the first row the live pin holds.
  ghost predicate Beyond(s: State, page: Page, log: seq<Row>)
    requires s.generation in s.loads
  {
    Live(s).Some? && Live(s).value.entries != [] ==>
      StartOf(page.Rows(), log) + |page.Rows()| > StartOf(Live(s).value.entries, log)
  }

  // With no history held open, any tail page joins the live rows.
  lemma FinishPlain(s: State, page: Page, connected: bool, relay: Relay)
    requires Landing(s, page, relay) && RetainedIds(s.loads[s.generation]) == {}
    requires Beyond(s, page, LogOf(s, relay))
    ensures Inv(FinishLoad(s, s.generation, s.loads[s.generation], page, connected), relay)
  {
    LiveIsGrown(s, relay);
    ExtendedRetains(s.loads[s.generation], relay);
    FinishKeepsInv(s, page, connected, relay);
  }

  lemma ExtendedRetains(load: Load, relay: Relay)
    requires LoadOk(load, relay)
    ensures RetainedIds(load) != {} <==> load.prior.Some? && load.prior.value.historyExtended
  {
    if load.prior.Some? && load.prior.value.historyExtended {
      assert load.prior.value.entries[0].key in RetainedIds(load);
    }
  }

  // A page that shares a retained row joins the retained history.
  lemma FinishConnected(s: State, page: Page, relay: Relay)
    requires Landing(s, page, relay) && SharesAny(page.Rows(), RetainedIds(s.loads[s.generation]))
    ensures Inv(FinishLoad(s, s.generation, s.loads[s.generation], page, true), relay)
  {
    LiveIsGrown(s, relay);
    var load, log := s.loads[s.generation], LogOf(s, relay);
    ConnectedTouches(load.prior.value, Live(s).value, page, log);
    FinishKeepsInv(s, page, true, relay);
  }

  // A page that never reached the retained history replaces it.
  lemma FinishDropped(s: State, page: Page, relay: Relay)
    requires Landing(s, page, relay) && RetainedIds(s.loads[s.generation]) != {}
    requires !SharesAny(page.Rows(), RetainedIds(s.loads[s.generation]))
    requires StartOf(page.Rows(), LogOf(s, relay)) + |page.Rows()|
      > StartOf(s.loads[s.generation].prior.value.entries, LogOf(s, relay))
    ensures Inv(FinishLoad(s, s.generation, s.loads[s.generation], page, false), relay)
  {
    LiveIsGrown(s, relay);
    var load, log := s.loads[s.generation], LogOf(s, relay);
    var merge := MergePin(s, s.generation, load, page, false);
    DroppedTouches(load.prior.value, Live(s).value, page, log, StartOf(page.Rows(), log), merge.entries);
    FinishKeepsInv(s, page, false, relay);
  }

  lemma BridgeBegins(s: State, page: Page, relay: Relay)
    requires Landing(s, page, relay) && RetainedIds(s.loads[s.generation]) != {} && page.prevCursor.Some?
    requires !SharesAny(page.Rows(), RetainedIds(s.loads[s.generation]))
    requires StartOf(page.Rows(), LogOf(s, relay)) + |page.Rows()|
      > StartOf(s.loads[s.generation].prior.value.entries, LogOf(s, relay))
    ensures var load := s.loads[s.generation];
      var bridge := Window(load.threadId, page.Rows(), page.prevCursor, false);
      LoadOk(load.(phase := AwaitBridge(page, bridge, 0)), relay)
  {
  }

  // Changing the phase of the current load alone.
  lemma PhaseKeepsInv(s: State, load: Load, relay: Relay)
    requires Inv(s, relay) && s.generation in s.loads && LoadOk(load, relay)
    requires load == s.loads[s.generation].(phase := load.phase)
    ensures Inv(s.(loads := s.loads[s.generation := load]), relay)
  {
  }

  lemma TailKeepsInv(s: State, g: nat, page: Page, relay: Relay)
    requires Served(relay) && Inv(s, relay) && g in s.loads && s.loads[g].phase == AwaitTail
    requires HonestTail(s, g, page, relay)
    ensures Inv(TailAnswered(s, g, page), relay)
  {
    var load := s.loads[g];
    if g != s.generation {
      DropLoadKeepsInv(s, g, relay);
    } else if OtherRun(s, load, page) || page.threadId != load.threadId {
      FailLoadKeepsInv(s, relay);
    } else {
      LandedTailKeepsInv(s, page, relay);
    }
  }

  lemma LandedTailKeepsInv(s: State, page: Page, relay: Relay)
    requires Landing(s, page, relay) && s.loads[s.generation].phase == AwaitTail
    requires !OtherRun(s, s.loads[s.generation], page) && Beyond(s, page, LogOf(s, relay))
    ensures Inv(TailAnswered(s, s.generation, page), relay)
  {
    var load := s.loads[s.generation];
    var retained := RetainedIds(load);
    if retained == {} {
      FinishPlain(s, page, false, relay);
    } else if SharesAny(page.Rows(), retained) {
      FinishConnected(s, page, relay);
    } else {
      LiveIsGrown(s, relay);
      if page.prevCursor.None? {
        FinishDropped(s, page, relay);
      } else {
        BridgeBegins(s, page, relay);
        PhaseKeepsInv(s,
          load.(phase := AwaitBridge(page, Window(load.threadId, page.Rows(), page.prevCursor, false), 0)), relay);
      }
    }
  }

  // ----- Bridge pages ------------------------------------------------------------------

  // The bridged page, grown by one older page.
  lemma BridgeGrows(bridge: Window, older: Page, log: seq<Row>)
    requires Transcript(log) && older.threadId == bridge.threadId
    requires bridge.entries != [] && SliceAt(bridge.entries, log, StartOf(bridge.entries, log))
    requires PageOf(older, log, StartOf(older.Rows(), log))
    requires StartOf(older.Rows(), log) + |older.Rows()| == StartOf(bridge.entries, log)
    ensures var c, grown := StartOf(older.Rows(), log), MergeOlder(bridge, older);
      && grown.threadId == bridge.threadId && grown.entries != []
      && StartOf(grown.entries, log) == c
      && SliceAt(grown.entries, log, c)
      && c + |grown.entries| == StartOf(bridge.entries, log) + |bridge.entries|
      && grown.olderCursor == CursorFor(c)
  {
    var lo := OlderKeepsSlice(bridge, StartOf(bridge.entries, log), older, StartOf(older.Rows(), log), log);
    StartIs(MergeOlder(bridge, older).entries, log, lo);
  }

  lemma LongerSliceShares(rows: seq<Row>, longer: seq<Row>, log: seq<Row>, c: nat, ids: set<Option<string>>)
    requires SliceAt(rows, log, c) && SliceAt(longer, log, c) && |rows| <= |longer| && SharesAny(rows, ids)
    ensures SharesAny(longer, ids)
  {
    var i :| 0 <= i < |rows| && rows[i].key in ids;
    assert SameRow(rows[i], log[c + i]) && SameRow(longer[i], log[c + i]);
    assert longer[i].key in ids;
  }

  // The current bridging load and the older page that answered it.
  ghost predicate Bridging(s: State, older: Page, relay: Relay) {
    && Served(relay) && Inv(s, relay) && s.generation in s.loads && s.loads[s.generation].phase.AwaitBridge?
    && HonestPage(older, relay)
    && older.threadId == s.loads[s.generation].threadId
    && older.generation == s.loads[s.generation].relayGeneration
    && StartOf(older.Rows(), LogOf(s, relay)) + |older.Rows()|
      == StartOf(s.loads[s.generation].phase.bridge.entries, LogOf(s, relay))
  }

  // The bridge after that page.
  ghost predicate BridgeNow(bridge: Window, s: State, older: Page, relay: Relay)
    requires s.generation in s.loads
  {
    var log := LogOf(s, relay);
    var c := StartOf(older.Rows(), log);
    && bridge.threadId == s.loads[s.generation].threadId && bridge.entries != []
    && SliceAt(bridge.entries, log, c) && StartOf(bridge.entries, log) == c
    && |older.Rows()| <= |bridge.entries|
    && bridge.olderCursor == CursorFor(c)
  }

  lemma BridgeConnects(s: State, older: Page, bridge: Window, relay: Relay)
    requires Bridging(s, older, relay) && BridgeNow(bridge, s, older, relay)
    requires SharesAny(older.Rows(), RetainedIds(s.loads[s.generation]))
    ensures Inv(Bridged(s, s.generation, s.loads[s.generation], bridge, true), relay)
  {
    var load, log := s.loads[s.generation], LogOf(s, relay);
    LongerSliceShares(older.Rows(), bridge.entries, log, StartOf(older.Rows(), log), RetainedIds(load));
    FinishConnected(s, load.phase.page.(entries := Some(bridge.entries), prevCursor := bridge.olderCursor), relay);
  }

  lemma BridgeGivesUp(s: State, relay: Relay)
    requires Served(relay) && Inv(s, relay) && s.generation in s.loads && s.loads[s.generation].phase.AwaitBridge?
    ensures Inv(FinishLoad(s, s.generation, s.loads[s.generation], s.loads[s.generation].phase.page, false), relay)
  {
    ExtendedRetains(s.loads[s.generation], relay);
    FinishDropped(s, s.loads[s.generation].phase.page, relay);
  }

  lemma BridgeContinues(s: State, older: Page, bridge: Window, fetched: nat, relay: Relay)
    requires Bridging(s, older, relay) && BridgeNow(bridge, s, older, relay) && bridge.olderCursor.Some?
    ensures var load := s.loads[s.generation];
      Inv(s.(loads := s.loads[s.generation := load.(phase := AwaitBridge(load.phase.page, bridge, fetched))]), relay)
  {
    var load := s.loads[s.generation];
    PhaseKeepsInv(s, load.(phase := AwaitBridge(load.phase.page, bridge, fetched)), relay);
  }

  lemma BridgedKeepsInv(s: State, older: Page, bridge: Window, relay: Relay)
    requires Bridging(s, older, relay) && BridgeNow(bridge, s, older, relay)
    ensures Inv(Bridged(s, s.generation, s.loads[s.generation], bridge,
      SharesAny(older.Rows(), RetainedIds(s.loads[s.generation]))), relay)
  {
    if SharesAny(older.Rows(), RetainedIds(s.loads[s.generation])) {
      BridgeConnects(s, older, bridge, relay);
    } else {
      BridgeGivesUp(s, relay);
      if bridge.olderCursor.Some? {
        BridgeContinues(s, older, bridge, s.loads[s.generation].phase.fetched + 1, relay);
      }
    }
  }

  // Why a bridge page that came for the current load may still fail it.
  predicate BridgeRefused(s: State, load: Load, older: Page)
    requires load.phase.AwaitBridge?
  {
    || OtherRun(s, load, older) || older.threadId != load.threadId
    || (older.prevCursor.Some? && older.prevCursor == load.phase.bridge.olderCursor)
  }

  lemma BridgePageKeepsInv(s: State, older: Page, relay: Relay)
    requires Bridging(s, older, relay) && BridgeIsCurrent(s, s.generation, s.loads[s.generation])
    requires !BridgeRefused(s, s.loads[s.generation], older)
    ensures Inv(BridgeAnswered(s, s.generation, older), relay)
  {
    var load := s.loads[s.generation];
    BridgeGrows(load.phase.bridge, older, LogOf(s, relay));
    BridgedKeepsInv(s, older, MergeOlder(load.phase.bridge, older), relay);
    assert BridgeAnswered(s, s.generation, older)
      == Bridged(s, s.generation, load, MergeOlder(load.phase.bridge, older), SharesAny(older.Rows(), RetainedIds(load)));
  }

  lemma RefusedBridgeFails(s: State, older: Page, relay: Relay)
    requires Inv(s, relay) && s.generation in s.loads && s.loads[s.generation].phase.AwaitBridge?
    requires BridgeIsCurrent(s, s.generation, s.loads[s.generation]) && BridgeRefused(s, s.loads[s.generation], older)
    requires older.entries.Some?
    ensures Inv(BridgeAnswered(s, s.generation, older), relay)
  {
    FailLoadKeepsInv(s, relay);
    assert BridgeAnswered(s, s.generation, older) == FailLoad(s, s.generation, s.loads[s.generation]);
  }

  lemma BridgeKeepsInv(s: State, g: nat, older: Page, relay: Relay)
    requires Served(relay) && Inv(s, relay) && g in s.loads && s.loads[g].phase.AwaitBridge?
    requires s.loads[g].phase.bridge.olderCursor.Some? ==>
      HonestOlder(older, s.loads[g].phase.bridge.olderCursor.value, relay)
    ensures Inv(BridgeAnswered(s, g, older), relay)
  {
    if !BridgeIsCurrent(s, g, s.loads[g]) {
      DropLoadKeepsInv(s, g, relay);
    } else if BridgeRefused(s, s.loads[g], older) {
      RefusedBridgeFails(s, older, relay);
    } else {
      BridgePageKeepsInv(s, older, relay);
    }
  }

  lemma BridgeErrorKeepsInv(s: State, g: nat, historyPending: bool, relay: Relay)
    requires Served(relay) && Inv(s, relay) && g in s.loads && s.loads[g].phase.AwaitBridge?
    ensures Inv(BridgeFailed(s, g, historyPending), relay)
  {
    if !BridgeIsCurrent(s, g, s.loads[g]) {
      DropLoadKeepsInv(s, g, relay);
    } else if historyPending {
      BridgeGivesUp(s, relay);
    } else {
      FailLoadKeepsInv(s, relay);
    }
  }

  // ----- Rendering, navigation and older pages ------------------------------------------

  lemma InvCanBegin(s: State, relay: Relay)
    requires Inv(s, relay)
    ensures CanBegin(s, relay)
  {
  }

  lemma ReleaseKeepsInv(s: State, relay: Relay)
    requires Inv(s, relay)
    ensures Inv(RememberPin(s).(pin := None), relay)
  {
  }

  lemma LoadAgainKeepsInv(s: State, threadId: Option<string>, terminal: bool, relay: Relay)
    requires Inv(s, relay)
    ensures Inv(BeginLoad(s, threadId, terminal), relay)
  {
    InvCanBegin(s, relay);
    BeginLoadKeepsInv(s, threadId, terminal, relay);
  }

  lemma ReconcileKeepsInv(s: State, env: RenderEnv, relay: Relay)
    requires Inv(s, relay)
    ensures Inv(Reconcile(s, env), relay)
  {
    if s.pin.Some? && s.session.Some? {
      match NextAction(s.session, s.pin, s.view, env.review)
      case Release => ReleaseKeepsInv(s, relay);
      case Refresh => LoadAgainKeepsInv(s, Some(s.pin.value.threadId), false, relay);
      case Keep => LoadAgainKeepsInv(s, Some(s.pin.value.threadId), true, relay);
    }
  }

  lemma RenderKeepsInv(s: State, env: RenderEnv, relay: Relay)
    requires Inv(s, relay)
    ensures Inv(Render(s, env), relay)
  {
    var r := Reconcile(s, env);
    ReconcileKeepsInv(s, env, relay);
    match SelfHeal(r.session, r.view, r.pin, env.backoffElapsed)
    case Some(threadId) =>
      LoadAgainKeepsInv(r, Some(threadId), false, relay);
      assert Render(s, env) == BeginLoad(r, Some(threadId), false);
    case None =>
      assert Render(s, env) == r;
  }

  // The live rows a thread leaves behind are a window a load may start from.
  lemma PinnedCanBegin(s: State, relay: Relay)
    requires Inv(s, relay) && HandsOver(s) && LiveSlice(s.leaving, relay) && HonestPaint(s, relay)
    ensures CanBegin(Pinned(s), relay)
  {
  }

  // It is rendered as the thread in view: kept, or loaded again.
  lemma PinnedRenders(s: State, env: RenderEnv, relay: Relay)
    requires HandsOver(s) && CanBegin(Pinned(s), relay)
    ensures CanBegin(Render(Pinned(s), env), relay)
  {
    var n := Pinned(s);
    BeginLoadKeepsInv(n, s.view, NextAction(n.session, n.pin, n.view, env.review).Keep?, relay);
    InvCanBegin(BeginLoad(n, s.view, NextAction(n.session, n.pin, n.view, env.review).Keep?), relay);
    PinnedIsKept(s, env);
  }

  lemma PinnedIsKept(s: State, env: RenderEnv)
    requires HandsOver(s)
    ensures var n, t := Pinned(s), Render(Pinned(s), env);
      || t == n
      || t == n.(deferred := s.view)
      || t == BeginLoad(n, s.view, NextAction(n.session, n.pin, n.view, env.review).Keep?)
  {
    var n := Pinned(s);
    assert Some(n.pin.value.threadId) == s.view;
    assert !NextAction(n.session, n.pin, n.view, env.review).Release?;
  }

  lemma PaintKeepsInv(s: State, env: RenderEnv, relay: Relay)
    requires Inv(s, relay) && LiveSlice(s.leaving, relay) && HonestPaint(s, relay)
    ensures Inv(Paint(s, env), relay)
  {
    if HandsOver(s) {
      PinnedCanBegin(s, relay);
      PinnedRenders(s, env, relay);
      BeginLoadKeepsInv(Render(Pinned(s), env), s.view, false, relay);
    } else {
      RenderKeepsInv(s.(leaving := None), env, relay);
    }
  }

  lemma NavigateKeepsInv(s: State, view: Option<string>, env: RenderEnv, relay: Relay)
    requires Inv(s, relay) && LiveSlice(s.leaving, relay) && HonestPaint(s.(view := view), relay)
    ensures Inv(Navigate(s, view, env), relay)
  {
    var n := s.(view := view);
    if n.session.Some? {
      PaintKeepsInv(n, env, relay);
      LoadAgainKeepsInv(Paint(n, env), view, false, relay);
    } else {
      LoadAgainKeepsInv(n, view, false, relay);
    }
  }

  lemma SettleKeepsInv(s: State, env: RenderEnv, relay: Relay)
    requires Inv(s.(older := None, deferred := None), relay)
    ensures Inv(SettleOlder(s, env), relay)
  {
    RenderKeepsInv(s.(older := None, deferred := None), env, relay);
  }

  // ----- Older pages -------------------------------------------------------------------

  ghost predicate OlderLanding(s: State, page: Page, relay: Relay) {
    && Served(relay) && Inv(s, relay) && s.older.Some? && OlderIsCurrent(s, s.older.value)
    && page.generation == s.pin.value.relayGeneration
    && HonestOlder(page, s.older.value.before, relay)
  }

  // The pin after the page is on it.
  ghost function Prepended(pin: Pin, page: Page): Pin {
    var merged := MergeOlder(pin.View(), page);
    pin.(entries := merged.entries, olderCursor := merged.olderCursor, historyExtended := merged.historyExtended)
  }

  lemma PrependedIsOk(s: State, page: Page, relay: Relay)
    requires OlderLanding(s, page, relay)
    ensures PinOk(Prepended(s.pin.value, page), relay)
  {
    var pin := s.pin.value;
    var log := relay.logs(pin.relayGeneration, pin.threadId);
    if page.threadId == pin.threadId {
      var lo := OlderKeepsSlice(pin.View(), StartOf(pin.entries, log), page, StartOf(page.Rows(), log), log);
      StartIs(MergeOlder(pin.View(), page).entries, log, lo);
    } else {
      assert MergeOlder(pin.View(), page) == pin.View();
      assert Prepended(pin, page) == pin;
    }
  }

  lemma NewPinKeepsInv(s: State, pin: Pin, relay: Relay)
    requires Inv(s, relay) && s.generation !in s.loads && PinOk(pin, relay) && pin.generation == s.generation
    ensures Inv(s.(pin := Some(pin), older := None, deferred := None), relay)
  {
  }

  lemma OlderKeepsInv(s: State, page: Page, env: RenderEnv, relay: Relay)
    requires Served(relay) && Inv(s, relay) && s.older.Some? && HonestOlder(page, s.older.value.before, relay)
    ensures Inv(OlderAnswered(s, page, env), relay)
  {
    if !OlderIsCurrent(s, s.older.value)
      || s.pin.value.relayGeneration != SessionGeneration(s.session)
      || page.generation != SessionGeneration(s.session)
    {
      SettleKeepsInv(s, env, relay);
    } else {
      PrependedIsOk(s, page, relay);
      NewPinKeepsInv(s, Prepended(s.pin.value, page), relay);
      SettleKeepsInv(s.(pin := Some(Prepended(s.pin.value, page))), env, relay);
    }
  }

  // The pin a rejected cursor restarts from.
  function Restarted(s: State): State
    requires s.pin.Some?
  {
    s.(pin := Some(s.pin.value.(olderCursor := None, historyExtended := false)))
  }

  lemma RestartKeepsInv(s: State, relay: Relay)
    requires Inv(s, relay) && s.older.Some? && OlderIsCurrent(s, s.older.value)
    requires HonestCursor(s, true, relay)
    ensures Inv(BeginLoad(Restarted(s), Some(s.older.value.threadId), false), relay)
  {
    var r := Restarted(s);
    if s.pin.value.error && !Eligible(s.session, s.pin.value.threadId) {
      NoPinIsOk(r.(generation := r.generation + 1), relay);
      assert BeginLoad(r, Some(s.older.value.threadId), false) == r.(generation := r.generation + 1, pin := None);
    } else {
      BeginLoadKeepsInv(r, Some(s.older.value.threadId), false, relay);
    }
  }

  lemma OlderErrorKeepsInv(s: State, cursorRejected: bool, env: RenderEnv, relay: Relay)
    requires Inv(s, relay) && s.older.Some? && HonestCursor(s, cursorRejected, relay)
    ensures Inv(OlderFailed(s, cursorRejected, env), relay)
  {
    if cursorRejected && OlderIsCurrent(s, s.older.value) {
      var begun := BeginLoad(Restarted(s), Some(s.older.value.threadId), false);
      RestartKeepsInv(s, relay);
      WithoutOlder(begun, relay);
      SettleKeepsInv(begun, env, relay);
    } else {
      WithoutOlder(s, relay);
      SettleKeepsInv(s, env, relay);
    }
  }

  lemma WithoutOlder(s: State, relay: Relay)
    requires Inv(s, relay)
    ensures Inv(s.(older := None, deferred := None), relay)
  {
  }

  // ----- Live deltas -------------------------------------------------------------------

  // The transcript's next row goes last.
  lemma NextRowGoesLast(rows: seq<Row>, row: Row, log: seq<Row>, a: nat)
    requires Transcript(log) && SliceAt(rows, log, a) && a + |rows| < |log| && SameRow(row, log[a + |rows|])
    ensures InsertByOrder(rows, row) == rows + [row]
    ensures SliceAt(rows + [row], log, a)
  {
  }

  lemma NewRowGrows(rows: seq<Row>, row: Row, log: seq<Row>, keepsCursors: bool)
    requires Transcript(log) && SliceAt(rows, log, StartOf(rows, log))
    requires NextRow(rows, row, log, keepsCursors)
    ensures var grown := InsertByOrder(rows, row);
      && |grown| == |rows| + 1
      && SliceAt(grown, log, StartOf(grown, log))
      && (rows != [] ==> StartOf(grown, log) == StartOf(rows, log))
      && (rows == [] && keepsCursors ==> StartOf(grown, log) == 0)
  {
    if rows == [] {
      var t: nat :| t < |log| && SameRow(row, log[t]) && (keepsCursors ==> t == 0);
      NextRowGoesLast(rows, row, log, t);
      StartIs(rows + [row], log, t);
    } else {
      NextRowGoesLast(rows, row, log, StartOf(rows, log));
      StartIs(rows + [row], log, StartOf(rows, log));
    }
  }

  // The pin's rows after a delta: a slice starting where it did.
  ghost predicate DeltaKeepsStart(pin: Pin, after: Pin, log: seq<Row>, keepsCursors: bool) {
    && SliceAt(after.entries, log, StartOf(after.entries, log))
    && |pin.entries| <= |after.entries|
    && (if pin.entries != [] then StartOf(after.entries, log) == StartOf(pin.entries, log)
      else keepsCursors ==> StartOf(after.entries, log) == 0)
  }

  lemma DeltaGrows(pin: Pin, delta: Delta, log: seq<Row>, keepsCursors: bool)
    requires Transcript(log) && SliceAt(pin.entries, log, StartOf(pin.entries, log))
    requires HonestDelta(pin, delta, log, keepsCursors)
    ensures DeltaKeepsStart(pin, ApplyDelta(pin, pin.relayGeneration, delta), log, keepsCursors)
  {
    if delta.NewRow? {
      NewRowKeepsStart(pin, delta, log, keepsCursors);
    } else if !delta.Ignored? {
      TouchedSlice(pin, delta, log);
    }
  }

  lemma NewRowKeepsStart(pin: Pin, delta: Delta, log: seq<Row>, keepsCursors: bool)
    requires Transcript(log) && SliceAt(pin.entries, log, StartOf(pin.entries, log)) && delta.NewRow?
    requires HonestDelta(pin, delta, log, keepsCursors)
    ensures DeltaKeepsStart(pin, ApplyDelta(pin, pin.relayGeneration, delta), log, keepsCursors)
  {
    NewRowGrows(pin.entries, delta.row, log, keepsCursors);
  }

  lemma TouchedSlice(pin: Pin, delta: Delta, log: seq<Row>)
    requires Transcript(log) && SliceAt(pin.entries, log, StartOf(pin.entries, log))
    requires delta.Refused? || delta.AppendText?
    ensures var after := ApplyDelta(pin, pin.relayGeneration, delta);
      && |after.entries| == |pin.entries|
      && SliceAt(after.entries, log, StartOf(pin.entries, log))
      && StartOf(after.entries, log) == StartOf(pin.entries, log)
  {
  }

  lemma DeltaPinIsOk(pin: Pin, delta: Delta, relay: Relay)
    requires Served(relay) && PinOk(pin, relay)
    requires HonestDelta(pin, delta, relay.logs(pin.relayGeneration, pin.threadId), relay.keepsCursors)
    ensures PinOk(ApplyDelta(pin, pin.relayGeneration, delta), relay)
  {
    var after := ApplyDelta(pin, pin.relayGeneration, delta);
    DeltaGrows(pin, delta, relay.logs(pin.relayGeneration, pin.threadId), relay.keepsCursors);
    DeltaTouchesRowsAndFlags(pin, delta);
    GrownPinIsOk(pin, after, relay);
  }

  lemma DeltaTouchesRowsAndFlags(pin: Pin, delta: Delta)
    ensures var after := ApplyDelta(pin, pin.relayGeneration, delta);
      && after.relayGeneration == pin.relayGeneration && after.threadId == pin.threadId
      && after.loading == pin.loading && after.error == pin.error && after.generation == pin.generation
      && after.olderCursor == pin.olderCursor && after.historyExtended == pin.historyExtended
  {
  }

  lemma GrownPinIsOk(pin: Pin, after: Pin, relay: Relay)
    requires PinOk(pin, relay)
    requires after.relayGeneration == pin.relayGeneration && after.threadId == pin.threadId
    requires after.loading == pin.loading && after.error == pin.error
    requires after.olderCursor == pin.olderCursor && after.historyExtended == pin.historyExtended
    requires DeltaKeepsStart(pin, after, relay.logs(pin.relayGeneration, pin.threadId), relay.keepsCursors)
    ensures PinOk(after, relay)
  {
  }

  lemma DeltaKeepsInv(s: State, run: string, delta: Delta, relay: Relay)
    requires Served(relay) && Inv(s, relay) && s.pin.Some?
    requires run == s.pin.value.relayGeneration ==>
      HonestDelta(s.pin.value, delta, relay.logs(run, s.pin.value.threadId), relay.keepsCursors)
    ensures Inv(s.(pin := Some(ApplyDelta(s.pin.value, run, delta))), relay)
  {
    if run == s.pin.value.relayGeneration {
      DeltaPinIsOk(s.pin.value, delta, relay);
      DeltaGrows(s.pin.value, delta, relay.logs(run, s.pin.value.threadId), relay.keepsCursors);
      DeltaTouchesRowsAndFlags(s.pin.value, delta);
      TailOfPinKeepsInv(s, ApplyDelta(s.pin.value, run, delta), relay);
    }
  }

  // A pin that only grew at its tail can stand in for the one on screen.
  lemma TailOfPinKeepsInv(s: State, pin: Pin, relay: Relay)
    requires Inv(s, relay) && s.pin.Some? && PinOk(pin, relay)
    requires var was, log := s.pin.value, relay.logs(s.pin.value.relayGeneration, s.pin.value.threadId);
      && pin.threadId == was.threadId && pin.relayGeneration == was.relayGeneration
      && pin.generation == was.generation && pin.loading == was.loading
      && pin.olderCursor == was.olderCursor && pin.historyExtended == was.historyExtended
      && |was.entries| <= |pin.entries|
      && (was.entries != [] ==> StartOf(pin.entries, log) == StartOf(was.entries, log))
    ensures Inv(s.(pin := Some(pin)), relay)
  {
  }

  lemma ResyncKeepsInv(s: State, threadId: string, revision: Option<int>, relay: Relay)
    requires Inv(s, relay) && s.pin.Some?
    ensures Inv(s.(pin := Some(ResyncPin(s.pin.value, threadId, revision))), relay)
  {
  }

  // ----- Whole runs --------------------------------------------------------------------

  lemma StepKeepsInv(s: State, e: Event, relay: Relay)
    requires Served(relay) && Inv(s, relay) && LiveSlice(s.leaving, relay) && Honest(s, e, relay)
    ensures Inv(Step(s, e), relay)
  {
    match e
    case SetSession(session) =>
    case Rendered(env) => PaintKeepsInv(s, env, relay);
    case Navigated(view, env) => NavigateKeepsInv(s, view, env, relay);
    case Tail(g, page) =>
      if g in s.loads && s.loads[g].phase == AwaitTail { TailKeepsInv(s, g, page, relay); }
    case TailError(g) =>
      if g in s.loads {
        if g == s.generation { FailLoadKeepsInv(s, relay); } else { DropLoadKeepsInv(s, g, relay); }
      }
    case Bridge(g, older) =>
      if g in s.loads && s.loads[g].phase.AwaitBridge? { BridgeKeepsInv(s, g, older, relay); }
    case BridgeError(g, historyPending) =>
      if g in s.loads && s.loads[g].phase.AwaitBridge? { BridgeErrorKeepsInv(s, g, historyPending, relay); }
    case AskOlder =>
    case OlderPage(page, env) =>
      if s.older.Some? { OlderKeepsInv(s, page, env, relay); }
    case OlderError(cursorRejected, env) =>
      if s.older.Some? { OlderErrorKeepsInv(s, cursorRejected, env, relay); }
    case TranscriptDelta(run, delta) =>
      if s.pin.Some? { DeltaKeepsInv(s, run, delta, relay); }
    case ResyncNotice(threadId, revision) =>
      if s.pin.Some? { ResyncKeepsInv(s, threadId, revision, relay); }
    case Evict(threadId) =>
  }

  ghost predicate HonestRun(events: seq<Event>, relay: Relay) {
    events == [] || (
      && HonestRun(events[..|events| - 1], relay)
      && Honest(Run(INITIAL, events[..|events| - 1]), events[|events| - 1], relay))
  }

  // No step but a snapshot changes the session or what is kept of the one before it.
  predicate SameSession(s: State, t: State) {
    t.session == s.session && (t.leaving == s.leaving || t.leaving.None?)
  }

  lemma ReconcileKeepsSession(s: State, env: RenderEnv)
    ensures SameSession(s, Reconcile(s, env))
  {
    if s.pin.Some? && s.session.Some? {
      match NextAction(s.session, s.pin, s.view, env.review)
      case Release =>
      case Refresh =>
        BeginLoadKeepsSession(s, Some(s.pin.value.threadId), false);
        assert Reconcile(s, env) == BeginLoad(s, Some(s.pin.value.threadId), false);
      case Keep => BeginLoadKeepsSession(s, Some(s.pin.value.threadId), true);
    }
  }

  lemma RenderKeepsSession(s: State, env: RenderEnv)
    ensures SameSession(s, Render(s, env))
  {
    ReconcileKeepsSession(s, env);
    BeginLoadKeepsSession(Reconcile(s, env), s.view, false);
    BeginLoadKeepsSession(Reconcile(s, env), Reconcile(s, env).view, false);
  }

  lemma BeginLoadKeepsSession(s: State, threadId: Option<string>, terminal: bool)
    ensures var t := BeginLoad(s, threadId, terminal); t.session == s.session && t.leaving == s.leaving && t.view == s.view
  {
  }

  lemma PaintKeepsSession(s: State, env: RenderEnv)
    ensures SameSession(s, Paint(s, env))
  {
    if HandsOver(s) {
      RenderKeepsSession(Pinned(s), env);
      BeginLoadKeepsSession(Render(Pinned(s), env), s.view, false);
    } else {
      RenderKeepsSession(s.(leaving := None), env);
    }
  }

  lemma OlderKeepsSession(s: State, e: Event)
    requires e.OlderPage? || e.OlderError?
    ensures SameSession(s, Step(s, e))
  {
    if s.older.Some? {
      RenderKeepsSession(s.(older := None, deferred := None), e.env);
      if OlderIsCurrent(s, s.older.value) {
        if e.OlderPage? {
          var pin := Prepended(s.pin.value, e.page);
          RenderKeepsSession(s.(pin := Some(pin), older := None, deferred := None), e.env);
        } else {
          var begun := BeginLoad(Restarted(s), Some(s.older.value.threadId), false);
          BeginLoadKeepsSession(Restarted(s), Some(s.older.value.threadId), false);
          RenderKeepsSession(begun.(older := None, deferred := None), e.env);
        }
      }
    }
  }

  lemma StepKeepsSession(s: State, e: Event)
    requires !e.SetSession?
    ensures SameSession(s, Step(s, e))
  {
    match e
    case Rendered(env) => PaintKeepsSession(s, env);
    case Navigated(view, env) =>
      var n := s.(view := view);
      PaintKeepsSession(n, env);
      BeginLoadKeepsSession(if n.session.Some? then Paint(n, env) else n, view, false);
    case OlderPage(_, _) => OlderKeepsSession(s, e);
    case OlderError(_, _) => OlderKeepsSession(s, e);
    case _ =>
  }

  lemma {:induction false} SessionsAreSlices(events: seq<Event>, relay: Relay)
    requires HonestRun(events, relay)
    ensures LiveSlice(Run(INITIAL, events).session, relay) && LiveSlice(Run(INITIAL, events).leaving, relay)
  {
    if events != [] {
      SessionsAreSlices(events[..|events| - 1], relay);
      if !events[|events| - 1].SetSession? {
        StepKeepsSession(Run(INITIAL, events[..|events| - 1]), events[|events| - 1]);
      }
    }
  }

  lemma {:induction false} RunKeepsInv(events: seq<Event>, relay: Relay)
    requires Served(relay) && HonestRun(events, relay)
    ensures Inv(Run(INITIAL, events), relay)
  {
    if events != [] {
      RunKeepsInv(events[..|events| - 1], relay);
      SessionsAreSlices(events[..|events| - 1], relay);
      StepKeepsInv(Run(INITIAL, events[..|events| - 1]), events[|events| - 1], relay);
    }
  }

  // No hole. Whatever the order of tail pages, bridges, older pages, deltas, notices,
  // navigations and failures, the pin shows a contiguous, duplicate-free stretch of its
  // thread's transcript; a pin that is neither loading nor failed shows at least one row,
  // and its cursor leads to rows that join on (no cursor: the stretch starts the transcript).
  lemma NoHole(events: seq<Event>, relay: Relay, pin: Pin) returns (a: nat)
    requires Served(relay) && HonestRun(events, relay) && Run(INITIAL, events).pin == Some(pin)
    ensures SliceAt(pin.entries, relay.logs(pin.relayGeneration, pin.threadId), a)
    ensures Keyed(pin.entries) && Distinct(pin.entries)
    ensures pin.historyExtended && pin.olderCursor.None? ==> a == 0
    ensures pin.olderCursor.Some? ==> CursorInside(pin.olderCursor, a, |pin.entries|)
    ensures !pin.loading && !pin.error ==> pin.entries != [] && CursorInside(pin.olderCursor, a, |pin.entries|)
    ensures relay.keepsCursors && pin.entries != [] ==> CursorInside(pin.olderCursor, a, |pin.entries|)
  {
    var log := relay.logs(pin.relayGeneration, pin.threadId);
    RunKeepsInv(events, relay);
    a := StartOf(pin.entries, log);
    SliceKeys(pin.entries, log, a);
  }
}
