// Who owns the pin: only the newest load writes it, a failed load costs no rows, a loading
// pin has a load behind it, and a noticed gap outlives every load that began before it.
// None of this needs the relay to answer honestly.

module ViewOnlyLoads {
  import opened Options
  import opened TranscriptRows
  import opened PinMerge
  import opened ViewOnlyOps

  // How pin, loads and older page stand to each other in every reachable state.
  predicate Aligned(s: State) {
    && (s.pin.Some? ==> s.pin.value.generation == s.generation)
    && (forall g :: g in s.loads ==> g <= s.generation)
    && (s.generation in s.loads && s.pin.Some? ==>
      && s.pin.value.loading
      && s.pin.value.threadId == s.loads[s.generation].threadId
      && s.pin.value.relayGeneration == s.loads[s.generation].relayGeneration)
    && (s.older.Some? ==>
      && s.older.value.generation <= s.generation
      && (s.older.value.generation == s.generation ==>
        && s.generation !in s.loads
        && (s.pin.Some? ==> !s.pin.value.loading)))
  }

  // A loading pin has the load of the current generation behind it.
  predicate Owned(s: State) {
    s.pin.Some? && s.pin.value.loading ==> s.generation in s.loads
  }

  // A new generation, whatever the pin was.
  lemma BeginLoadAligns(s: State, threadId: Option<string>, terminal: bool)
    requires forall g :: g in s.loads ==> g <= s.generation
    requires s.older.Some? ==> s.older.value.generation <= s.generation
    ensures var t := BeginLoad(s, threadId, terminal);
      && Aligned(t) && t.generation == s.generation + 1 && t.view == s.view && t.session == s.session
      && Owned(t) && (t.pin.Some? ==> Eligible(t.session, t.pin.value.threadId))
  {
  }

  lemma ReconcileAligns(s: State, env: RenderEnv)
    requires Aligned(s)
    ensures var t := Reconcile(s, env);
      && Aligned(t) && t.view == s.view && t.session == s.session
      && s.generation <= t.generation
      && (t.generation == s.generation && t.pin.Some? ==> t.pin == s.pin && t.loads == s.loads)
      && (s.generation < t.generation ==> Owned(t) && (t.pin.Some? ==> Eligible(t.session, t.pin.value.threadId)))
  {
    if s.pin.Some? && s.session.Some? {
      match NextAction(s.session, s.pin, s.view, env.review)
      case Release =>
      case Refresh =>
        BeginLoadAligns(s, Some(s.pin.value.threadId), false);
        assert Reconcile(s, env) == BeginLoad(s, Some(s.pin.value.threadId), false);
      case Keep =>
        BeginLoadAligns(s, Some(s.pin.value.threadId), true);
    }
  }

  lemma RenderAligns(s: State, env: RenderEnv)
    requires Aligned(s)
    ensures var t := Render(s, env);
      && Aligned(t) && t.view == s.view && t.session == s.session
      && s.generation <= t.generation
      && (t.generation == s.generation && t.pin.Some? ==> t.pin == s.pin && t.loads == s.loads)
      && (s.generation < t.generation ==> Owned(t) && (t.pin.Some? ==> Eligible(t.session, t.pin.value.threadId)))
  {
    ReconcileAligns(s, env);
    BeginLoadAligns(Reconcile(s, env), s.view, false);
  }

  // What holds of loads before and after any step, a pin just handed over included.
  predicate Bounded(s: State) {
    && (forall g :: g in s.loads ==> g <= s.generation)
    && (s.older.Some? ==> s.older.value.generation <= s.generation)
  }

  lemma ReconcileIsBounded(s: State, env: RenderEnv)
    requires Bounded(s)
    ensures var t := Reconcile(s, env);
      Bounded(t) && t.view == s.view && t.session == s.session && s.generation <= t.generation
  {
    if s.pin.Some? && s.session.Some? {
      match NextAction(s.session, s.pin, s.view, env.review)
      case Release =>
      case Refresh =>
        BeginLoadAligns(s, Some(s.pin.value.threadId), false);
        assert Reconcile(s, env) == BeginLoad(s, Some(s.pin.value.threadId), false);
      case Keep => BeginLoadAligns(s, Some(s.pin.value.threadId), true);
    }
  }

  lemma RenderIsBounded(s: State, env: RenderEnv)
    requires Bounded(s)
    ensures var t := Render(s, env);
      Bounded(t) && t.view == s.view && t.session == s.session && s.generation <= t.generation
  {
    ReconcileIsBounded(s, env);
    BeginLoadAligns(Reconcile(s, env), s.view, false);
  }

  lemma PaintAligns(s: State, env: RenderEnv)
    requires Aligned(s)
    ensures var t := Paint(s, env);
      && Aligned(t) && t.view == s.view && t.session == s.session
      && s.generation <= t.generation
      && (t.generation == s.generation && t.pin.Some? ==> t.pin == s.pin && t.loads == s.loads)
      && (s.generation < t.generation ==> Owned(t) && (t.pin.Some? ==> Eligible(t.session, t.pin.value.threadId)))
  {
    if HandsOver(s) {
      RenderIsBounded(Pinned(s), env);
      BeginLoadAligns(Render(Pinned(s), env), s.view, false);
    } else {
      RenderAligns(s.(leaving := None), env);
    }
  }

  lemma NavigateAligns(s: State, view: Option<string>, env: RenderEnv)
    requires Aligned(s)
    ensures var t := Navigate(s, view, env);
      && Aligned(t) && s.generation < t.generation && t.view == view && t.session == s.session
      && Owned(t) && (t.pin.Some? ==> Eligible(t.session, t.pin.value.threadId))
  {
    var n := s.(view := view);
    PaintAligns(n, env);
    BeginLoadAligns(if n.session.Some? then Paint(n, env) else n, view, false);
  }

  lemma SettleAligns(s: State, env: RenderEnv)
    requires Aligned(s.(older := None, deferred := None))
    ensures var t := SettleOlder(s, env);
      && Aligned(t) && t.view == s.view && t.session == s.session
      && s.generation <= t.generation
      && (t.generation == s.generation && t.pin.Some? ==> t.pin == s.pin && t.loads == s.loads)
      && (s.generation < t.generation ==> Owned(t) && (t.pin.Some? ==> Eligible(t.session, t.pin.value.threadId)))
  {
    RenderAligns(s.(older := None, deferred := None), env);
  }

  // What one event may do to the pin.
  ghost predicate PinStep(s: State, e: Event, t: State) {
    && s.generation <= t.generation
    && (t.generation == s.generation && s.pin.Some? && t.pin.Some? ==>
      PinKept(s.pin.value, t.pin.value, Told(s.pin.value, e)))
  }

  // A pin still loading was changed by deltas and notices only; a settled one keeps its gap;
  // a load that fails keeps every row; one that lands keeps the gap raised while it was out,
  // and owns up to the notices it does not satisfy.
  predicate PinKept(was: Pin, now: Pin, told: Pin) {
    && now.threadId == was.threadId && now.relayGeneration == was.relayGeneration
    && (now.loading ==> was.loading && now == told)
    && (!was.loading && was.tailGap ==> now.tailGap)
    && (was.loading && !now.loading ==>
      if now.error then
        && now.View() == was.View() && now.pageRevision == was.pageRevision
        && now.tailGap == (was.tailGap && was.deltaDuringFetch)
      else
        now.tailGap == ((was.tailGap && was.deltaDuringFetch) || BehindResync(Some(was), now.pageRevision)))
  }

  // A pin after one delta or notice.
  function Told(pin: Pin, e: Event): Pin {
    match e
    case TranscriptDelta(run, delta) => ApplyDelta(pin, run, delta)
    case ResyncNotice(threadId, revision) => ResyncPin(pin, threadId, revision)
    case _ => pin
  }

  // The current load ends in t: it is gone, and the pin it left is no longer loading.
  ghost predicate Settles(s: State, t: State) {
    && t.generation == s.generation
    && t == s.(pin := t.pin, loads := s.loads - {s.generation})
    && t.pin.Some? && t.pin.value.generation == s.generation && !t.pin.value.loading
    && (s.pin.Some? ==> PinKept(s.pin.value, t.pin.value, s.pin.value))
  }

  lemma FailSettles(s: State)
    requires Aligned(s) && s.generation in s.loads
    ensures Settles(s, FailLoad(s, s.generation, s.loads[s.generation]))
  {
  }

  lemma FinishSettles(s: State, page: Page, connected: bool)
    requires Aligned(s) && s.generation in s.loads
    ensures Settles(s, FinishLoad(s, s.generation, s.loads[s.generation], page, connected))
  {
  }

  function LoadOf(e: Event): Option<nat> {
    match e
    case Tail(g, _) => Some(g)
    case TailError(g) => Some(g)
    case Bridge(g, _) => Some(g)
    case BridgeError(g, _) => Some(g)
    case _ => None
  }

  // A bridge answer that lands while the thread is off screen, or is the relay's active one,
  // ends the load without settling the pin.
  predicate Strands(s: State, e: Event) {
    && LoadOf(e) == Some(s.generation) && (e.Bridge? || e.BridgeError?)
    && s.generation in s.loads && s.loads[s.generation].phase.AwaitBridge?
    && !BridgeIsCurrent(s, s.generation, s.loads[s.generation])
  }

  // The four things the answer to the current load can do.
  ghost predicate Outcome(s: State, e: Event, t: State)
    requires s.generation in s.loads
  {
    || t == s
    || Settles(s, t)
    || (s.generation in t.loads && t == s.(loads := s.loads[s.generation := t.loads[s.generation]])
        && t.loads[s.generation] == s.loads[s.generation].(phase := t.loads[s.generation].phase))
    || (Strands(s, e) && t == DropLoad(s, s.generation))
  }

  lemma TailOutcome(s: State, page: Page)
    requires Aligned(s) && s.generation in s.loads && s.loads[s.generation].phase == AwaitTail
    ensures Outcome(s, Tail(s.generation, page), TailAnswered(s, s.generation, page))
  {
    FailSettles(s);
    FinishSettles(s, page, SharesAny(page.Rows(), RetainedIds(s.loads[s.generation])));
    FinishSettles(s, page, false);
  }

  lemma BridgeOutcome(s: State, older: Page)
    requires Aligned(s) && s.generation in s.loads && s.loads[s.generation].phase.AwaitBridge?
    ensures Outcome(s, Bridge(s.generation, older), BridgeAnswered(s, s.generation, older))
  {
    FailSettles(s);
    var phase := s.loads[s.generation].phase;
    var bridge := MergeOlder(phase.bridge, older);
    FinishSettles(s, phase.page.(entries := Some(bridge.entries), prevCursor := bridge.olderCursor), true);
    FinishSettles(s, phase.page, false);
  }

  lemma LoadOutcome(s: State, e: Event)
    requires Aligned(s) && s.generation in s.loads && LoadOf(e) == Some(s.generation)
    ensures Outcome(s, e, Step(s, e))
    ensures Strands(s, e) ==> Step(s, e) == DropLoad(s, s.generation)
  {
    var phase := s.loads[s.generation].phase;
    match e
    case Tail(_, page) => if phase == AwaitTail { TailOutcome(s, page); }
    case Bridge(_, older) => if phase.AwaitBridge? { BridgeOutcome(s, older); }
    case TailError(_) => FailSettles(s);
    case BridgeError(_, _) =>
      FailSettles(s);
      if phase.AwaitBridge? { FinishSettles(s, phase.page, false); }
  }

  // The answer to a superseded load changes nothing but its own bookkeeping.
  lemma SupersededLoadIsSilent(s: State, e: Event)
    requires LoadOf(e).Some? && LoadOf(e).value != s.generation
    ensures var t := Step(s, e); t == s || t == DropLoad(s, LoadOf(e).value)
  {
  }

  lemma LoadStep(s: State, e: Event)
    requires Aligned(s) && LoadOf(e).Some?
    ensures Aligned(Step(s, e)) && PinStep(s, e, Step(s, e))
  {
    if s.generation in s.loads && LoadOf(e) == Some(s.generation) {
      LoadOutcome(s, e);
      OutcomeAligns(s, e, Step(s, e));
    } else {
      DropAligns(s, e, LoadOf(e).value);
    }
  }

  lemma OutcomeAligns(s: State, e: Event, t: State)
    requires Aligned(s) && s.generation in s.loads && LoadOf(e).Some? && Outcome(s, e, t)
    ensures Aligned(t) && PinStep(s, e, t)
  {
  }

  lemma DropAligns(s: State, e: Event, g: nat)
    requires Aligned(s) && LoadOf(e).Some?
    ensures Aligned(DropLoad(s, g)) && PinStep(s, e, DropLoad(s, g)) && PinStep(s, e, s)
  {
  }

  // What the end of an older page, whatever it brought, does to pin and loads.
  predicate OlderKept(s: State, t: State) {
    && Aligned(t) && t.view == s.view && t.session == s.session && s.generation <= t.generation
    && (t.generation == s.generation && t.pin.Some? ==>
      && s.pin.Some? && t.loads == s.loads && t.pin.value.loading == s.pin.value.loading
      && PinKept(s.pin.value, t.pin.value, s.pin.value))
    && (s.generation < t.generation ==> Owned(t) && (t.pin.Some? ==> Eligible(t.session, t.pin.value.threadId)))
  }

  lemma OlderOutcome(s: State, e: Event)
    requires Aligned(s) && (e.OlderPage? || e.OlderError?)
    ensures OlderKept(s, Step(s, e))
  {
    if s.older.Some? {
      SettleAligns(s, e.env);
      if OlderIsCurrent(s, s.older.value) {
        match e
        case OlderPage(page, env) => OlderPageOutcome(s, page, env);
        case OlderError(cursorRejected, env) => if cursorRejected { RejectionOutcome(s, env); }
      }
    }
  }

  lemma OlderPageOutcome(s: State, page: Page, env: RenderEnv)
    requires Aligned(s) && s.older.Some? && OlderIsCurrent(s, s.older.value)
    ensures OlderKept(s, OlderAnswered(s, page, env))
  {
    SettleAligns(s, env);
    var merged := MergeOlder(s.pin.value.View(), page);
    SettleAligns(s.(pin := Some(s.pin.value.(
      entries := merged.entries,
      olderCursor := merged.olderCursor,
      historyExtended := merged.historyExtended))), env);
  }

  lemma RejectionOutcome(s: State, env: RenderEnv)
    requires Aligned(s) && s.older.Some? && OlderIsCurrent(s, s.older.value)
    ensures OlderKept(s, OlderFailed(s, true, env))
  {
    var restarted := s.(pin := Some(s.pin.value.(olderCursor := None, historyExtended := false)));
    BeginLoadAligns(restarted, Some(s.older.value.threadId), false);
    SettleAligns(BeginLoad(restarted, Some(s.older.value.threadId), false), env);
  }

  lemma StepAligns(s: State, e: Event)
    requires Aligned(s)
    ensures Aligned(Step(s, e)) && PinStep(s, e, Step(s, e))
  {
    if LoadOf(e).Some? {
      LoadStep(s, e);
    } else if e.OlderPage? || e.OlderError? {
      OlderOutcome(s, e);
    } else if e.Rendered? {
      PaintAligns(s, e.env);
    } else if e.Navigated? {
      NavigateAligns(s, e.view, e.env);
    } else {
      QuietStep(s, e);
    }
  }

  lemma QuietStep(s: State, e: Event)
    requires Aligned(s)
    requires e.SetSession? || e.AskOlder? || e.TranscriptDelta? || e.ResyncNotice? || e.Evict?
    ensures Aligned(Step(s, e)) && PinStep(s, e, Step(s, e))
  {
    if e.TranscriptDelta? || e.ResyncNotice? {
      if s.pin.Some? { ToldAligns(s, e); }
    } else {
      UnpinnedAligns(s, e);
    }
  }

  lemma ToldAligns(s: State, e: Event)
    requires Aligned(s) && s.pin.Some? && (e.TranscriptDelta? || e.ResyncNotice?)
    ensures var t := s.(pin := Some(Told(s.pin.value, e))); Aligned(t) && PinStep(s, e, t)
  {
    ToldKeeps(s.pin.value, e);
  }

  lemma ToldKeeps(pin: Pin, e: Event)
    ensures var told := Told(pin, e);
      && told.generation == pin.generation && told.threadId == pin.threadId
      && told.relayGeneration == pin.relayGeneration && told.loading == pin.loading
      && (pin.tailGap ==> told.tailGap)
  {
    if e.TranscriptDelta? {
      DeltaKeepsPin(pin, e.generation, e.delta);
    }
  }

  lemma DeltaKeepsPin(pin: Pin, run: string, delta: Delta)
    ensures var told := ApplyDelta(pin, run, delta);
      && told.generation == pin.generation && told.threadId == pin.threadId
      && told.relayGeneration == pin.relayGeneration && told.loading == pin.loading
      && (pin.tailGap ==> told.tailGap)
  {
  }

  lemma UnpinnedAligns(s: State, e: Event)
    requires Aligned(s) && (e.SetSession? || e.AskOlder? || e.Evict?)
    ensures Aligned(Step(s, e)) && PinStep(s, e, Step(s, e))
  {
  }

  lemma {:induction false} RunAligns(events: seq<Event>)
    ensures Aligned(Run(INITIAL, events))
  {
    if events != [] {
      RunAligns(events[..|events| - 1]);
      StepAligns(Run(INITIAL, events[..|events| - 1]), events[|events| - 1]);
    }
  }

  // ----- Load ownership ----------------------------------------------------------------

  // A bridge answer that strands is the only event after which a loading pin has no load.
  lemma OwnershipLostExactlyWhen(s: State, e: Event)
    requires Aligned(s) && Owned(s)
    ensures Owned(Step(s, e)) <==> !(Strands(s, e) && s.pin.Some?)
  {
    match e
    case Rendered(env) => PaintAligns(s, env);
    case Navigated(view, env) => NavigateAligns(s, view, env);
    case OlderPage(_, _) => OlderOwned(s, e);
    case OlderError(_, _) => OlderOwned(s, e);
    case Tail(_, _) => LoadOwned(s, e);
    case TailError(_) => LoadOwned(s, e);
    case Bridge(_, _) => LoadOwned(s, e);
    case BridgeError(_, _) => LoadOwned(s, e);
    case _ =>
  }

  lemma LoadOwned(s: State, e: Event)
    requires Aligned(s) && Owned(s) && LoadOf(e).Some?
    ensures Owned(Step(s, e)) <==> !(Strands(s, e) && s.pin.Some?)
  {
    if LoadOf(e).value != s.generation {
      SupersededLoadIsSilent(s, e);
    } else if s.generation in s.loads {
      LoadOutcome(s, e);
      OutcomeOwned(s, e, Step(s, e));
    }
  }

  lemma OutcomeOwned(s: State, e: Event, t: State)
    requires Aligned(s) && s.generation in s.loads && Outcome(s, e, t)
    requires Strands(s, e) ==> t == DropLoad(s, s.generation)
    ensures Owned(t) <==> !(Strands(s, e) && s.pin.Some?)
  {
  }

  lemma OlderOwned(s: State, e: Event)
    requires Aligned(s) && Owned(s) && (e.OlderPage? || e.OlderError?)
    ensures Owned(Step(s, e))
  {
    OlderOutcome(s, e);
  }

  // What a render can do for a loading pin: the run has changed, its thread has become the
  // active one, its review is over, or another thread is in view.
  predicate RenderActs(s: State, env: RenderEnv) {
    || NextAction(s.session, s.pin, s.view, env.review) != Keep
    || SelfHeal(s.session, s.view, s.pin, env.backoffElapsed).Some?
  }

  // A refresh deferred behind an older page is handed back as a render.
  predicate HandsBack(s: State) {
    && s.older.Some? && s.deferred.Some? && s.view == s.deferred && s.session.Some?
    && s.pin.Some? && Some(s.pin.value.threadId) == s.deferred
  }

  predicate Rescues(s: State, e: Event) {
    match e
    case Navigated(_, _) => true
    case Rendered(env) => s.session.Some? && RenderActs(s, env)
    case OlderPage(_, env) => HandsBack(s) && RenderActs(s, env)
    case OlderError(_, env) => HandsBack(s) && RenderActs(s, env)
    case _ => false
  }

  lemma RenderRescuesExactlyWhen(s: State, env: RenderEnv)
    requires Aligned(s) && !Owned(s)
    ensures Owned(Render(s, env)) <==> RenderActs(s, env)
  {
    RenderAligns(s, env);
    ReconcileAligns(s, env);
    if NextAction(s.session, s.pin, s.view, env.review).Keep? {
      assert Reconcile(s, env) == s;
    } else {
      assert Owned(Reconcile(s, env));
    }
  }

  lemma SettleRescuesExactlyWhen(s: State, env: RenderEnv)
    requires Aligned(s) && !Owned(s) && s.older.Some?
    ensures Owned(SettleOlder(s, env)) <==> HandsBack(s) && RenderActs(s, env)
  {
    RenderRescuesExactlyWhen(s.(older := None, deferred := None), env);
  }

  // A loading pin whose load is gone gets another exactly at a navigation or at a render that
  // has another reason to act on it; no answer still to come touches it.
  lemma StrandedPinHealsExactlyWhen(s: State, e: Event)
    requires Aligned(s) && !Owned(s)
    ensures Owned(Step(s, e)) <==> Rescues(s, e)
  {
    match e
    case Rendered(env) => if s.session.Some? { RenderRescuesExactlyWhen(s.(leaving := None), env); }
    case Navigated(view, env) => NavigateAligns(s, view, env);
    case OlderPage(_, env) => if s.older.Some? { SettleRescuesExactlyWhen(s, env); }
    case OlderError(_, env) => if s.older.Some? { SettleRescuesExactlyWhen(s, env); }
    case TranscriptDelta(_, _) => ToldKeeps(s.pin.value, e);
    case ResyncNotice(_, _) => ToldKeeps(s.pin.value, e);
    case SetSession(_) =>
    case AskOlder =>
    case Evict(_) =>
    case _ => if LoadOf(e).value != s.generation { SupersededLoadIsSilent(s, e); }
  }

  ghost predicate Unrescued(s: State, events: seq<Event>) {
    events == [] || (
      Unrescued(s, events[..|events| - 1])
      && !Rescues(Run(s, events[..|events| - 1]), events[|events| - 1]))
  }

  // So a stranded pin stays loading over every run without such an event...
  lemma {:induction false} StrandedPinNeverHeals(s: State, events: seq<Event>)
    requires Aligned(s) && !Owned(s) && Unrescued(s, events)
    ensures Aligned(Run(s, events)) && Run(s, events).pin.Some? && Run(s, events).pin.value.loading
    ensures Run(s, events).generation !in Run(s, events).loads
  {
    if events != [] {
      var before := Run(s, events[..|events| - 1]);
      StrandedPinNeverHeals(s, events[..|events| - 1]);
      StepAligns(before, events[|events| - 1]);
      StrandedPinHealsExactlyWhen(before, events[|events| - 1]);
    }
  }

  // ...and rendering it as the background thread in view is not one.
  lemma RenderingAsBackgroundDoesNotRescue(s: State, env: RenderEnv)
    requires Aligned(s) && !Owned(s) && s.view == Some(s.pin.value.threadId)
    requires Eligible(s.session, s.pin.value.threadId) && !env.review.ReviewOver?
    requires s.session.value.relayGeneration == s.pin.value.relayGeneration
    ensures !Rescues(s, Rendered(env))
  {
  }

  // When every snapshot is rendered as it is written, a viewed loading pin always has its load.
  datatype Move = Publish(session: Session, env: RenderEnv) | Other(event: Event)

  ghost function RunMoves(moves: seq<Move>): State {
    if moves == [] then INITIAL
    else
      var s := RunMoves(moves[..|moves| - 1]);
      match moves[|moves| - 1]
      case Publish(session, env) => Step(Step(s, SetSession(Some(session))), Rendered(env))
      case Other(event) => if event.SetSession? then s else Step(s, event)
  }

  predicate ViewedIsOwned(s: State) {
    s.pin.Some? && s.pin.value.loading && s.view == Some(s.pin.value.threadId) ==>
      Eligible(s.session, s.pin.value.threadId) && s.generation in s.loads
  }

  lemma {:induction false} ViewedLoadIsOutstanding(moves: seq<Move>)
    ensures Aligned(RunMoves(moves)) && ViewedIsOwned(RunMoves(moves))
  {
    if moves != [] {
      ViewedLoadIsOutstanding(moves[..|moves| - 1]);
      var s := RunMoves(moves[..|moves| - 1]);
      match moves[|moves| - 1]
      case Publish(session, env) => PublishKeepsViewed(s, session, env);
      case Other(event) =>
        if !event.SetSession? {
          StepAligns(s, event);
          EventKeepsViewed(s, event);
        }
    }
  }

  lemma PublishKeepsViewed(s: State, session: Session, env: RenderEnv)
    requires Aligned(s) && ViewedIsOwned(s)
    ensures var t := Step(Step(s, SetSession(Some(session))), Rendered(env)); Aligned(t) && ViewedIsOwned(t)
  {
    var w := Written(s, Some(session));
    SnapshotAligns(s, session);
    PaintAligns(w, env);
    var n := w.(leaving := None);
    if !HandsOver(w) {
      ReconcileAligns(n, env);
      if n.pin.Some? && Reconcile(n, env).pin == n.pin && Reconcile(n, env).generation == n.generation {
        ReconcileKeepsOnlyEligible(n, env);
      }
    }
  }

  lemma SnapshotAligns(s: State, session: Session)
    requires Aligned(s)
    ensures Aligned(Written(s, Some(session)))
  {
  }

  // A pin that a render keeps as it is is not the active thread's.
  lemma ReconcileKeepsOnlyEligible(s: State, env: RenderEnv)
    requires Aligned(s) && s.session.Some? && s.pin.Some?
    requires Reconcile(s, env).pin == s.pin && Reconcile(s, env).generation == s.generation
    ensures Eligible(s.session, s.pin.value.threadId)
  {
  }

  lemma EventKeepsViewed(s: State, e: Event)
    requires Aligned(s) && ViewedIsOwned(s) && !e.SetSession?
    ensures ViewedIsOwned(Step(s, e))
  {
    match e
    case Rendered(env) => PaintAligns(s, env);
    case Navigated(view, env) => NavigateAligns(s, view, env);
    case OlderPage(_, _) => OlderKeepsViewed(s, e);
    case OlderError(_, _) => OlderKeepsViewed(s, e);
    case Tail(_, _) => LoadKeepsViewed(s, e);
    case TailError(_) => LoadKeepsViewed(s, e);
    case Bridge(_, _) => LoadKeepsViewed(s, e);
    case BridgeError(_, _) => LoadKeepsViewed(s, e);
    case _ =>
  }

  lemma LoadKeepsViewed(s: State, e: Event)
    requires Aligned(s) && ViewedIsOwned(s) && LoadOf(e).Some?
    ensures ViewedIsOwned(Step(s, e))
  {
    if LoadOf(e).value != s.generation {
      SupersededLoadIsSilent(s, e);
    } else if s.generation in s.loads {
      LoadOutcome(s, e);
      OutcomeKeepsViewed(s, e, Step(s, e));
    }
  }

  lemma OutcomeKeepsViewed(s: State, e: Event, t: State)
    requires Aligned(s) && ViewedIsOwned(s) && s.generation in s.loads && Outcome(s, e, t)
    ensures ViewedIsOwned(t)
  {
  }

  lemma OlderKeepsViewed(s: State, e: Event)
    requires Aligned(s) && ViewedIsOwned(s) && (e.OlderPage? || e.OlderError?)
    ensures ViewedIsOwned(Step(s, e))
  {
    OlderOutcome(s, e);
  }
}
