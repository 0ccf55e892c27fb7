// A hole the client has noticed, and a resync notice it has been sent, are not lost: only a
// load begun afterwards, or a tail new enough, clears them.

module ViewOnlyGaps {
  import opened Options
  import opened Filters
  import opened TranscriptRows
  import opened PinMerge
  import opened PinSlices
  import opened ViewOnlyOps
  import opened ViewOnlyLoads
  import opened ViewOnlyNoHole
  import opened ViewOnlyRuns

  // ----- Refused deltas ----------------------------------------------------------------

  // A run in which no new load begins and the pin is never released.
  ghost predicate Stays(s: State, events: seq<Event>) {
    && s.pin.Some?
    && (events == [] || (
      && Stays(s, events[..|events| - 1])
      && Run(s, events).generation == s.generation && Run(s, events).pin.Some?))
  }

  lemma {:induction false} StaysAligned(s: State, events: seq<Event>)
    requires Aligned(s)
    ensures Aligned(Run(s, events))
  {
    if events != [] {
      StaysAligned(s, events[..|events| - 1]);
      StepAligns(Run(s, events[..|events| - 1]), events[|events| - 1]);
    }
  }

  // A gap noticed by a settled pin, or by a loading one during its load.
  predicate Noticed(pin: Pin) {
    pin.tailGap && (pin.loading ==> pin.deltaDuringFetch)
  }

  // A refused delta raises a gap that every load already out, however it ends, leaves raised.
  lemma {:induction false} RefusedDeltaIsRemembered(s: State, index: int, events: seq<Event>)
    requires Aligned(s) && s.pin.Some?
    requires Stays(Step(s, TranscriptDelta(s.pin.value.relayGeneration, Refused(index))), events)
    ensures var refused := Step(s, TranscriptDelta(s.pin.value.relayGeneration, Refused(index)));
      Run(refused, events).pin.Some? && Noticed(Run(refused, events).pin.value)
  {
    var refused := Step(s, TranscriptDelta(s.pin.value.relayGeneration, Refused(index)));
    StepAligns(s, TranscriptDelta(s.pin.value.relayGeneration, Refused(index)));
    NoticedSurvives(refused, events);
  }

  lemma {:induction false} NoticedSurvives(s: State, events: seq<Event>)
    requires Aligned(s) && Stays(s, events) && Noticed(s.pin.value)
    ensures Run(s, events).pin.Some? && Noticed(Run(s, events).pin.value)
  {
    if events != [] {
      var before, e := events[..|events| - 1], events[|events| - 1];
      NoticedSurvives(s, before);
      StaysAligned(s, before);
      StepAligns(Run(s, before), e);
      if before != [] { assert Run(s, before).generation == s.generation; }
      ToldStaysNoticed(Run(s, before).pin.value, e);
    }
  }

  lemma ToldStaysNoticed(pin: Pin, e: Event)
    requires Noticed(pin)
    ensures Noticed(Told(pin, e))
  {
  }

  // The load that does clear the flag: one that began with it raised and saw no delta.
  lemma LaterLoadClearsTheGap(s: State, page: Page)
    requires Aligned(s) && s.generation in s.loads && s.pin.Some?
    requires s.pin.value.tailGap && !s.pin.value.deltaDuringFetch && s.pin.value.resyncRevision.None?
    requires page.threadId == s.loads[s.generation].threadId
    ensures var t := FinishLoad(s, s.generation, s.loads[s.generation], page, true);
      t.pin.Some? && !t.pin.value.error ==> !t.pin.value.tailGap
  {
  }

  // ----- Resync notices ----------------------------------------------------------------

  // A run in which the load that s began is still out.
  ghost predicate StillLoading(s: State, events: seq<Event>) {
    && s.pin.Some? && s.pin.value.loading
    && (events == [] || (
      && StillLoading(s, events[..|events| - 1])
      && Run(s, events).generation == s.generation
      && Run(s, events).pin.Some? && Run(s, events).pin.value.loading))
  }

  predicate IsNotice(e: Event, threadId: string) {
    e.ResyncNotice? && e.threadId == threadId
  }

  // Some notice in the run asked for a revision the page does not reach.
  predicate Unmet(events: seq<Event>, threadId: string, pageRevision: Option<int>) {
    exists i :: 0 <= i < |events| && IsNotice(events[i], threadId)
      && Wanted(events[i].revision) >= 0 && !AtLeast(pageRevision, Wanted(events[i].revision))
  }

  predicate Asked(events: seq<Event>, threadId: string, wanted: int) {
    exists i :: 0 <= i < |events| && IsNotice(events[i], threadId) && Wanted(events[i].revision) == wanted
  }

  // What a run of notices leaves in resyncRevision: none, or one of them and at least each.
  predicate Accumulates(resync: Option<int>, events: seq<Event>, threadId: string) {
    && (resync.Some? ==> resync.value >= 0 && Asked(events, threadId, resync.value))
    && (forall i :: 0 <= i < |events| && IsNotice(events[i], threadId) && Wanted(events[i].revision) >= 0 ==>
      resync.Some? && resync.value >= Wanted(events[i].revision))
  }

  lemma {:induction false} NoticesAccumulate(s: State, events: seq<Event>)
    requires Aligned(s) && StillLoading(s, events) && s.pin.value.resyncRevision.None?
    ensures Aligned(Run(s, events)) && Run(s, events).pin.Some? && Run(s, events).pin.value.loading
    ensures Run(s, events).generation == s.generation
    ensures Run(s, events).pin.value.threadId == s.pin.value.threadId
    ensures Accumulates(Run(s, events).pin.value.resyncRevision, events, s.pin.value.threadId)
  {
    if events != [] {
      var before, e := events[..|events| - 1], events[|events| - 1];
      NoticesAccumulate(s, before);
      StepAligns(Run(s, before), e);
      OneMoreNotice(Run(s, before).pin.value, before, e);
      assert before + [e] == events;
    }
  }

  lemma OneMoreNotice(pin: Pin, before: seq<Event>, e: Event)
    requires pin.loading && Accumulates(pin.resyncRevision, before, pin.threadId)
    ensures Accumulates(Told(pin, e).resyncRevision, before + [e], pin.threadId)
  {
    var events, resync := before + [e], Told(pin, e).resyncRevision;
    if resync.Some? {
      StillAsked(pin, before, e);
    }
    OneMoreMaximum(pin, e);
    forall i | 0 <= i < |events| && IsNotice(events[i], pin.threadId) && Wanted(events[i].revision) >= 0
      ensures resync.Some? && resync.value >= Wanted(events[i].revision)
    {
      if i < |before| { assert IsNotice(before[i], pin.threadId); } else { assert events[i] == e; }
    }
  }

  lemma OneMoreMaximum(pin: Pin, e: Event)
    requires pin.loading
    ensures var was, now := pin.resyncRevision, Told(pin, e).resyncRevision;
      && (was.Some? ==> now.Some? && now.value >= was.value)
      && (IsNotice(e, pin.threadId) && Wanted(e.revision) >= 0 ==> now.Some? && now.value >= Wanted(e.revision))
  {
  }

  lemma StillAsked(pin: Pin, before: seq<Event>, e: Event)
    requires pin.loading && Told(pin, e).resyncRevision.Some?
    requires pin.resyncRevision.Some? ==> Asked(before, pin.threadId, pin.resyncRevision.value)
    ensures Asked(before + [e], pin.threadId, Told(pin, e).resyncRevision.value)
  {
    var events, resync := before + [e], Told(pin, e).resyncRevision;
    if resync == pin.resyncRevision {
      var i :| 0 <= i < |before| && IsNotice(before[i], pin.threadId) && Wanted(before[i].revision) == resync.value;
      assert IsNotice(events[i], pin.threadId);
    } else {
      assert IsNotice(events[|before|], pin.threadId);
    }
  }

  // After a load that succeeds, the pin owns up to a gap exactly when one was noticed during
  // the load or some notice received during it wanted a revision the page does not reach.
  lemma ResyncIsNotLost(s: State, events: seq<Event>, e: Event)
    requires Aligned(s) && StillLoading(s, events) && s.pin.value.resyncRevision.None?
    requires var t := Step(Run(s, events), e);
      t.generation == s.generation && t.pin.Some? && !t.pin.value.loading && !t.pin.value.error
    ensures var loading, landed := Run(s, events).pin.value, Step(Run(s, events), e).pin.value;
      landed.tailGap <==>
        (loading.tailGap && loading.deltaDuringFetch) || Unmet(events, s.pin.value.threadId, landed.pageRevision)
  {
    NoticesAccumulate(s, events);
    StepAligns(Run(s, events), e);
    var resync, landed := Run(s, events).pin.value.resyncRevision, Step(Run(s, events), e).pin.value;
    if resync.Some? {
      var i :| 0 <= i < |events| && IsNotice(events[i], s.pin.value.threadId)
        && Wanted(events[i].revision) == resync.value;
      assert !AtLeast(landed.pageRevision, Wanted(events[i].revision)) ==>
        Unmet(events, s.pin.value.threadId, landed.pageRevision);
    }
  }

  // A load starts with no notice pending, so the two results above speak of every load.
  lemma EveryLoadStartsClean(s: State, threadId: Option<string>, terminal: bool)
    ensures var t := BeginLoad(s, threadId, terminal);
      t.pin.Some? ==> t.pin.value.loading && t.pin.value.resyncRevision.None? && !t.pin.value.deltaDuringFetch
  {
  }

  // ----- Where the code falls short of its own comments --------------------------------

  // "Keeping the pin is the only safe move" when a page brings no rows: it does, unless the
  // reader had paged in history, which an empty tail drops.
  lemma EmptyTailKeepsRowsExactlyWhen(events: seq<Event>, relay: Relay, page: Page)
    requires Served(relay) && HonestRun(events, relay)
    requires var s := Run(INITIAL, events);
      && s.generation in s.loads && s.pin.Some?
      && s.loads[s.generation].phase == AwaitTail && !OtherRun(s, s.loads[s.generation], page)
      && page.threadId == s.loads[s.generation].threadId && page.entries == Some([])
    ensures var s := Run(INITIAL, events);
      var load, t := s.loads[s.generation], TailAnswered(s, s.generation, page);
      t.pin.Some? && (t.pin.value.entries == s.pin.value.entries <==>
        !(load.prior.Some? && load.prior.value.historyExtended))
  {
    var s := Run(INITIAL, events);
    RunKeepsInv(events, relay);
    RunAligns(events);
    EmptyTailOn(s, relay, page);
  }

  lemma EmptyTailOn(s: State, relay: Relay, page: Page)
    requires Served(relay) && Inv(s, relay) && Aligned(s) && s.generation in s.loads && s.pin.Some?
    requires s.loads[s.generation].phase == AwaitTail && !OtherRun(s, s.loads[s.generation], page)
    requires page.threadId == s.loads[s.generation].threadId && page.entries == Some([])
    ensures var load, t := s.loads[s.generation], TailAnswered(s, s.generation, page);
      t.pin.Some? && (t.pin.value.entries == s.pin.value.entries <==>
        !(load.prior.Some? && load.prior.value.historyExtended))
  {
    var load := s.loads[s.generation];
    if load.prior.Some? && load.prior.value.historyExtended {
      FirstRowIsRetained(load.prior.value, s.pin.value, relay.logs(load.relayGeneration, load.threadId));
      FilteredOut(s.pin.value.entries, RetainedIds(load));
    }
  }

  // A pin that grew from one with history still starts with a retained row.
  lemma FirstRowIsRetained(prior: Pin, pin: Pin, log: seq<Row>)
    requires Transcript(log) && HeldAt(prior.View(), log, false) && HeldAt(pin.View(), log, false)
    requires Grown(Some(prior), pin, log) && prior.historyExtended
    ensures pin.entries != [] && pin.entries[0].key in KeysOf(prior.entries)
  {
    assert SameRow(prior.entries[0], log[StartOf(prior.entries, log)]);
    assert SameRow(pin.entries[0], log[StartOf(pin.entries, log)]);
    assert prior.entries[0].key in KeysOf(prior.entries);
  }

  lemma FilteredOut(rows: seq<Row>, ids: set<Option<string>>)
    requires rows != [] && rows[0].key in ids
    ensures Filter(rows, (r: Row) => r.key !in ids) != rows
  {
    FilterMembers(rows, (r: Row) => r.key !in ids);
  }

  lemma {:induction false} FilterMembers<T>(s: seq<T>, keep: T -> bool)
    ensures forall x :: x in Filter(s, keep) ==> keep(x)
  {
    if s != [] { FilterMembers(s[1..], keep); }
  }
}
