// The object createViewOnlyRefreshOps returns: it rewrites its fields in place, one method per
// stretch of code between two awaits. Each method is the step that ViewOnlyOps specifies, so
// everything proved of runs there holds of the calls made here.

module ViewOnlyRefresh {
  import opened Options
  import opened TranscriptRows
  import opened PinMerge
  import Ops = ViewOnlyOps

  class ViewOnlyRefreshOps {
    var session: Option<Ops.Session>
    var viewThreadId: Option<string>
    var viewOnlyThread: Option<Ops.Pin>
    var viewOnlyGeneration: nat
    var cache: map<string, Ops.Pin>
    var cacheGeneration: string
    var loads: map<nat, Ops.Load>
    var older: Option<Ops.OlderLoad>
    var deferred: Option<string>
    var previousLiveSessionForPin: Option<Ops.Session>

    function State(): Ops.State
      reads this
    {
      Ops.State(session, viewThreadId, viewOnlyThread, viewOnlyGeneration, cache, cacheGeneration, loads, older, deferred,
        previousLiveSessionForPin)
    }

    constructor ()
      ensures State() == Ops.INITIAL
    {
      session, viewThreadId, viewOnlyThread, viewOnlyGeneration := None, None, None, 0;
      cache, cacheGeneration, loads, older, deferred := map[], "", map[], None, None;
      previousLiveSessionForPin := None;
    }

    method CacheFor(generation: string)
      modifies this
      ensures State() == Ops.CacheFor(old(State()), generation)
    {
      if cacheGeneration != generation {
        cache, cacheGeneration := map[], generation;
      }
    }

    method RememberPin()
      modifies this
      ensures State() == Ops.RememberPin(old(State()))
    {
      if viewOnlyThread.Some? {
        var pin := viewOnlyThread.value;
        var generation := Ops.SessionGeneration(session);
        if !pin.error && (!pin.loading || pin.entries != []) && pin.relayGeneration == generation {
          CacheFor(generation);
          cache := cache[pin.threadId := pin];
        }
      }
    }

    method PriorFor(threadId: string) returns (prior: Option<Ops.Pin>)
      requires session.Some?
      modifies this
      ensures (State(), prior) == Ops.PriorFor(old(State()), threadId)
    {
      var live := session.value.relayGeneration;
      if viewOnlyThread.Some? && viewOnlyThread.value.threadId == threadId {
        prior := if viewOnlyThread.value.relayGeneration != live then None else viewOnlyThread;
      } else {
        CacheFor(live);
        prior := if threadId in cache then Some(cache[threadId]) else None;
      }
    }

    method LoadViewOnlyTranscript(threadId: Option<string>, terminal: bool)
      modifies this
      ensures State() == Ops.BeginLoad(old(State()), threadId, terminal)
    {
      RememberPin();
      viewOnlyGeneration := viewOnlyGeneration + 1;
      if threadId.None? || !Ops.Eligible(session, threadId.value) {
        viewOnlyThread := None;
        return;
      }
      var prior := PriorFor(threadId.value);
      var live, isWorking := session.value.relayGeneration, threadId.value in session.value.working;
      viewOnlyThread := Some(Ops.LoadingPin(threadId.value, live, viewOnlyGeneration, prior, isWorking));
      loads := loads[viewOnlyGeneration := Ops.Load(threadId.value, live, prior, isWorking, terminal, Ops.AwaitTail)];
    }

    method Fail(g: nat, load: Ops.Load)
      modifies this
      ensures State() == Ops.FailLoad(old(State()), g, load)
    {
      var live := Ops.LivePin(State(), g, load);
      viewOnlyThread := Some(Ops.Pin(
        load.threadId,
        if live.Some? then live.value.entries else [],
        if live.Some? then live.value.olderCursor else None,
        live.Some? && live.value.historyExtended,
        if live.Some? then live.value.pageRevision else None,
        g, load.relayGeneration, false, true,
        live.Some? && live.value.tailGap && live.value.deltaDuringFetch, false, None,
        Ops.WasWorkingAfterFetch(live, load.isWorking, load.terminal)));
      loads := loads - {g};
    }

    method Finish(g: nat, load: Ops.Load, page: Page, connected: bool)
      modifies this
      ensures State() == Ops.FinishLoad(old(State()), g, load, page, connected)
    {
      match NormalizePage(page, load.threadId)
      case WrongThread => Fail(g, load);
      case Accepted(normalized) =>
        var live := Ops.LivePin(State(), g, load);
        var merged := MergeRefreshedPage(Ops.MergePin(State(), g, load, page, connected), normalized);
        var tailGap :=
          (live.Some? && live.value.tailGap && live.value.deltaDuringFetch) || Ops.BehindResync(live, normalized.revision);
        viewOnlyThread := Some(Ops.Pin(
          load.threadId, merged.entries, merged.olderCursor, merged.historyExtended, normalized.revision, g,
          load.relayGeneration, false, false, tailGap, false, None,
          Ops.WasWorkingAfterFetch(live, load.isWorking, load.terminal)));
        loads := loads - {g};
    }

    method TailArrives(g: nat, page: Page)
      requires g in loads && loads[g].phase == Ops.AwaitTail
      modifies this
      ensures State() == Ops.TailAnswered(old(State()), g, page)
    {
      var load := loads[g];
      if g != viewOnlyGeneration {
        loads := loads - {g};
        return;
      }
      if Ops.OtherRun(State(), load, page) {
        Fail(g, load);
        return;
      }
      var retainedIds := Ops.RetainedIds(load);
      var connected := Ops.SharesAny(page.Rows(), retainedIds);
      if retainedIds != {} && page.Rows() != [] && !connected {
        match NormalizePage(page, load.threadId) {
          case WrongThread =>
            Fail(g, load);
            return;
          case Accepted(normalized) =>
            if page.prevCursor.Some? {
              var bridge := Window(load.threadId, normalized.Rows(), page.prevCursor, false);
              loads := loads[g := load.(phase := Ops.AwaitBridge(page, bridge, 0))];
              return;
            }
        }
      }
      Finish(g, load, page, connected);
    }

    method TailFails(g: nat)
      requires g in loads
      modifies this
      ensures State() == Ops.TailFailed(old(State()), g)
    {
      if g != viewOnlyGeneration { loads := loads - {g}; } else { Fail(g, loads[g]); }
    }

    // One turn of the bridge loop, from its answer to its next request or its end.
    method BridgeArrives(g: nat, olderPage: Page)
      requires g in loads && loads[g].phase.AwaitBridge?
      modifies this
      ensures State() == Ops.BridgeAnswered(old(State()), g, olderPage)
    {
      var load := loads[g];
      var phase := load.phase;
      if !Ops.BridgeIsCurrent(State(), g, load) {
        loads := loads - {g};
        return;
      }
      if Ops.OtherRun(State(), load, olderPage) {
        Fail(g, load);
        return;
      }
      match NormalizePage(olderPage, load.threadId)
      case WrongThread => Fail(g, load);
      case Accepted(normalized) =>
        if olderPage.prevCursor.Some? && olderPage.prevCursor == phase.bridge.olderCursor {
          Fail(g, load);
          return;
        }
        var bridge := MergeOlderPage(phase.bridge, normalized);
        if Ops.SharesAny(normalized.Rows(), Ops.RetainedIds(load)) {
          Finish(g, load, phase.page.(entries := Some(bridge.entries), prevCursor := bridge.olderCursor), true);
        } else if bridge.olderCursor.None? || phase.fetched + 1 >= Ops.MAX_CACHED_HISTORY_BRIDGE_PAGES {
          Finish(g, load, phase.page, false);
        } else {
          loads := loads[g := load.(phase := Ops.AwaitBridge(phase.page, bridge, phase.fetched + 1))];
        }
    }

    method BridgeFails(g: nat, historyPending: bool)
      requires g in loads && loads[g].phase.AwaitBridge?
      modifies this
      ensures State() == Ops.BridgeFailed(old(State()), g, historyPending)
    {
      var load := loads[g];
      if !Ops.BridgeIsCurrent(State(), g, load) {
        loads := loads - {g};
      } else if historyPending {
        Finish(g, load, load.phase.page, false);
      } else {
        Fail(g, load);
      }
    }

    method MaybeRefreshViewOnly(env: Ops.RenderEnv)
      modifies this
      ensures State() == Ops.Render(old(State()), env)
    {
      Reconcile(env);
      var selfHeal := Ops.SelfHeal(session, viewThreadId, viewOnlyThread, env.backoffElapsed);
      if selfHeal.Some? {
        LoadViewOnlyTranscript(selfHeal, false);
      }
    }

    method Reconcile(env: Ops.RenderEnv)
      modifies this
      ensures State() == Ops.Reconcile(old(State()), env)
    {
      if viewOnlyThread.Some? && session.Some? {
        var pin := viewOnlyThread.value;
        match Ops.NextAction(session, viewOnlyThread, viewThreadId, env.review)
        case Release =>
          RememberPin();
          viewOnlyThread := None;
        case Refresh =>
          LoadViewOnlyTranscript(Some(pin.threadId), false);
        case Keep =>
          if Ops.ShouldRefresh(pin.loading, pin.tailGap, pin.wasWorking, pin.threadId in session.value.working) {
            if older.Some? {
              deferred := Some(pin.threadId);
            } else {
              LoadViewOnlyTranscript(Some(pin.threadId), true);
            }
          }
      }
    }

    method ApplySessionSnapshot(snapshot: Ops.Session)
      modifies this`session, this`previousLiveSessionForPin
      ensures State() == Ops.Written(old(State()), Some(snapshot))
    {
      if session.Some? && session.value.activeThread != snapshot.activeThread {
        previousLiveSessionForPin := session;
      }
      session := Some(snapshot);
    }

    // The render every surface goes through.
    method WrappedRenderSession(env: Ops.RenderEnv)
      requires session.Some?
      modifies this
      ensures State() == Ops.Paint(old(State()), env)
    {
      var previous, viewed := previousLiveSessionForPin, viewThreadId;
      previousLiveSessionForPin := None;
      var viewedThreadWasLive := viewThreadId.Some? && previous.Some? && previous.value.activeThread == viewThreadId
        && session.value.activeThread != viewThreadId && viewOnlyThread.None?;
      if viewedThreadWasLive {
        viewOnlyThread := Some(Ops.HandoverPin(viewThreadId.value, previous.value));
      }
      MaybeRefreshViewOnly(env);
      if viewedThreadWasLive {
        LoadViewOnlyTranscript(viewed, false);
      }
    }

    method LoadOlderViewOnlyTranscript()
      modifies this`older
      ensures State() == Ops.BeginOlder(old(State()))
    {
      if viewOnlyThread.None? || viewThreadId != Some(viewOnlyThread.value.threadId) { return; }
      var pin := viewOnlyThread.value;
      if pin.olderCursor.None? || pin.loading || older.Some? { return; }
      older := Some(Ops.OlderLoad(pin.threadId, pin.generation, pin.olderCursor.value));
    }

    method SettleOlder(env: Ops.RenderEnv)
      modifies this
      ensures State() == Ops.SettleOlder(old(State()), env)
    {
      var waiting := deferred;
      older, deferred := None, None;
      if waiting.Some? && viewThreadId == waiting && viewOnlyThread.Some?
        && Some(viewOnlyThread.value.threadId) == waiting && session.Some?
      {
        MaybeRefreshViewOnly(env);
      }
    }

    method OlderArrives(page: Page, env: Ops.RenderEnv)
      requires older.Some?
      modifies this
      ensures State() == Ops.OlderAnswered(old(State()), page, env)
    {
      if Ops.OlderIsCurrent(State(), older.value)
        && viewOnlyThread.value.relayGeneration == Ops.SessionGeneration(session)
        && page.generation == Ops.SessionGeneration(session)
      {
        var merged := MergeOlderPage(viewOnlyThread.value.View(), page);
        viewOnlyThread := Some(viewOnlyThread.value.(
          entries := merged.entries,
          olderCursor := merged.olderCursor,
          historyExtended := merged.historyExtended));
      }
      SettleOlder(env);
    }

    method OlderFails(cursorRejected: bool, env: Ops.RenderEnv)
      requires older.Some?
      modifies this
      ensures State() == Ops.OlderFailed(old(State()), cursorRejected, env)
    {
      if cursorRejected && Ops.OlderIsCurrent(State(), older.value) {
        viewOnlyThread := Some(viewOnlyThread.value.(olderCursor := None, historyExtended := false));
        LoadViewOnlyTranscript(Some(older.value.threadId), false);
      }
      SettleOlder(env);
    }
  }
}
