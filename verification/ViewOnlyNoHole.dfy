// No hole: over every run the relay can answer honestly, the pin on screen is a contiguous,
// duplicate-free slice of its thread's transcript, and a settled pin's cursor lies inside
// that slice, so the next older page joins on.

module ViewOnlyNoHole {
  import opened Options
  import opened Filters
  import opened TranscriptRows
  import opened PinMerge
  import opened PinSlices
  import opened PinHoles
  import opened ViewOnlyOps

  // The whole transcript of each thread under each run of the relay. The relay only
  // appends, so any page it ever serves is a slice of this.
  type Logs = (string, string) -> seq<Row>

  // `keepsCursors` is whether a pin is spared the three events that make it forget where its
  // history goes on (see HonestCursor, NextRow and HonestPaint).
  datatype Relay = Relay(logs: Logs, keepsCursors: bool)

  ghost predicate Served(relay: Relay) {
    forall run, threadId :: Transcript(relay.logs(run, threadId))
  }

  function StartOf(rows: seq<Row>, log: seq<Row>): nat {
    if rows == [] then 0 else KeyIndex(log, rows[0].key)
  }

  lemma StartIs(rows: seq<Row>, log: seq<Row>, a: nat)
    requires Transcript(log) && SliceAt(rows, log, a) && rows != []
    ensures StartOf(rows, log) == a
  {
  }

  // Rows, cursor and flag of a pin or a remembered pin. A held-open history always knows
  // where to continue; without one, "no cursor" may be an answer still to come, unless the
  // relay keeps cursors.
  ghost predicate HeldAt(w: Window, log: seq<Row>, keepsCursors: bool) {
    var a := StartOf(w.entries, log);
    && SliceAt(w.entries, log, a)
    && (w.entries == [] ==> !w.historyExtended && w.olderCursor.None?)
    && (w.olderCursor.Some? ==> CursorInside(w.olderCursor, a, |w.entries|))
    && (w.olderCursor.None? ==> a == 0 || !w.historyExtended)
    && (keepsCursors && w.entries != [] ==> CursorInside(w.olderCursor, a, |w.entries|))
  }

  // What a pin that is neither loading nor failed promises besides.
  ghost predicate SettledAt(w: Window, log: seq<Row>) {
    w.entries != [] && CursorInside(w.olderCursor, StartOf(w.entries, log), |w.entries|)
  }

  // What a page may be merged into: a slice, whose cursor matters only while its history is
  // held open.
  ghost predicate Mergeable(w: Window, log: seq<Row>) {
    var a := StartOf(w.entries, log);
    SliceAt(w.entries, log, a) && (w.historyExtended ==> w.entries != [] && CursorInside(w.olderCursor, a, |w.entries|))
  }

  // A pin of the run the session is in: the only kind whose rows may be carried on.
  ghost predicate PinHeld(s: State, relay: Relay) {
    s.pin.Some? && s.pin.value.relayGeneration == SessionGeneration(s.session) ==>
      HeldAt(s.pin.value.View(), relay.logs(s.pin.value.relayGeneration, s.pin.value.threadId), relay.keepsCursors)
  }

  ghost predicate PinOk(pin: Pin, relay: Relay) {
    var log := relay.logs(pin.relayGeneration, pin.threadId);
    HeldAt(pin.View(), log, relay.keepsCursors) && (!pin.loading && !pin.error ==> SettledAt(pin.View(), log))
  }

  // During a load the pin only grows at the tail of what the load started from.
  ghost predicate Grown(prior: Option<Pin>, pin: Pin, log: seq<Row>) {
    && pin.historyExtended == (prior.Some? && prior.value.historyExtended)
    && (prior.Some? && prior.value.entries != [] ==>
      && pin.entries != []
      && StartOf(pin.entries, log) == StartOf(prior.value.entries, log)
      && |prior.value.entries| <= |pin.entries|)
  }

  ghost predicate BridgeOk(page: Page, bridge: Window, prior: Pin, threadId: string, log: seq<Row>) {
    var c, b := StartOf(page.Rows(), log), StartOf(bridge.entries, log);
    && page.threadId == threadId && bridge.threadId == threadId
    && PageOf(page, log, c)
    && !SharesAny(page.Rows(), KeysOf(prior.entries))
    && c + |page.Rows()| > StartOf(prior.entries, log)
    && bridge.entries != []
    && SliceAt(bridge.entries, log, b)
    && bridge.olderCursor == Some(b)
  }

  ghost predicate LoadOk(load: Load, relay: Relay) {
    var log := relay.logs(load.relayGeneration, load.threadId);
    && (load.prior.Some? ==>
      && HeldAt(load.prior.value.View(), log, relay.keepsCursors)
      && load.prior.value.threadId == load.threadId
      && load.prior.value.relayGeneration == load.relayGeneration)
    && (load.phase.AwaitBridge? ==>
      && load.prior.Some? && load.prior.value.historyExtended
      && BridgeOk(load.phase.page, load.phase.bridge, load.prior.value, load.threadId, log))
  }

  ghost predicate CacheOk(s: State, relay: Relay) {
    forall t :: t in s.cache ==>
      && s.cache[t].threadId == t
      && s.cache[t].relayGeneration == s.cacheGeneration
      && HeldAt(s.cache[t].View(), relay.logs(s.cacheGeneration, t), relay.keepsCursors)
  }

  ghost predicate LoadsOk(s: State, relay: Relay) {
    forall g :: g in s.loads ==> g <= s.generation && LoadOk(s.loads[g], relay)
  }

  ghost predicate PinInv(s: State, relay: Relay) {
    s.pin.Some? ==> PinOk(s.pin.value, relay) && s.pin.value.generation == s.generation
  }

  ghost predicate CurrentInv(s: State, relay: Relay) {
    s.generation in s.loads && s.pin.Some? ==>
      var load, pin := s.loads[s.generation], s.pin.value;
      && pin.loading
      && pin.threadId == load.threadId && pin.relayGeneration == load.relayGeneration
      && Grown(load.prior, pin, relay.logs(load.relayGeneration, load.threadId))
  }

  ghost predicate OlderInv(s: State) {
    s.older.Some? ==>
      && s.older.value.generation <= s.generation
      && (s.older.value.generation == s.generation ==>
        && s.generation !in s.loads
        && (s.pin.Some? ==>
          && s.pin.value.threadId == s.older.value.threadId
          && !s.pin.value.loading
          && s.pin.value.olderCursor == Some(s.older.value.before)))
  }

  ghost predicate Inv(s: State, relay: Relay) {
    PinInv(s, relay) && CacheOk(s, relay) && LoadsOk(s, relay) && CurrentInv(s, relay) && OlderInv(s)
  }

  // ----- What an honest relay answers --------------------------------------------------

  // A page is a non-empty slice, with the cursor of its own start.
  ghost predicate HonestPage(page: Page, relay: Relay) {
    var log := relay.logs(page.generation, page.threadId);
    page.entries.Some? && PageOf(page, log, StartOf(page.Rows(), log))
  }

  // The tail page ends after the first row of whatever it is merged into.
  ghost predicate HonestTail(s: State, g: nat, page: Page, relay: Relay)
    requires g in s.loads
  {
    var log, live := relay.logs(page.generation, page.threadId), LivePin(s, g, s.loads[g]);
    && HonestPage(page, relay)
    && (live.Some? && live.value.entries != [] ==>
      StartOf(page.Rows(), log) + |page.Rows()| > StartOf(live.value.entries, log))
  }

  // An older page ends where the cursor it was asked for says.
  ghost predicate HonestOlder(page: Page, before: Cursor, relay: Relay) {
    && HonestPage(page, relay)
    && StartOf(page.Rows(), relay.logs(page.generation, page.threadId)) + |page.Rows()| == before
  }

  // The row that follows the held ones; to a pin without rows any may come, or, from a relay
  // that keeps cursors, the first.
  ghost predicate NextRow(rows: seq<Row>, row: Row, log: seq<Row>, keepsCursors: bool) {
    if rows == [] then exists t: nat :: t < |log| && SameRow(row, log[t]) && (keepsCursors ==> t == 0)
    else
      var next := StartOf(rows, log) + |rows|;
      next < |log| && SameRow(row, log[next])
  }

  // A delta either touches a held row or brings the transcript's next one.
  ghost predicate HonestDelta(pin: Pin, delta: Delta, log: seq<Row>, keepsCursors: bool) {
    delta.NewRow? ==> NextRow(pin.entries, delta.row, log, keepsCursors)
  }

  // A rejected cursor of a pin that starts past the transcript's beginning, whose rows are then
  // carried on or remembered.
  ghost predicate ForgetsCursor(s: State, logs: Logs) {
    && s.older.Some? && OlderIsCurrent(s, s.older.value)
    && StartOf(s.pin.value.entries, logs(s.pin.value.relayGeneration, s.pin.value.threadId)) != 0
    && s.pin.value.relayGeneration == SessionGeneration(s.session)
    && (Eligible(s.session, s.pin.value.threadId) || !s.pin.value.error)
  }

  ghost predicate HonestCursor(s: State, cursorRejected: bool, relay: Relay) {
    relay.keepsCursors && cursorRejected ==> !ForgetsCursor(s, relay.logs)
  }

  // A session shows a stretch of its active thread.
  ghost predicate LiveSlice(session: Option<Session>, relay: Relay) {
    session.Some? && session.value.activeThread.Some? ==>
      var rows, log := session.value.transcript, relay.logs(session.value.relayGeneration, session.value.activeThread.value);
      SliceAt(rows, log, StartOf(rows, log))
  }

  // A thread handed over with rows that start past the transcript's beginning, and carried on.
  ghost predicate ForgetsStart(s: State, logs: Logs) {
    && HandsOver(s)
    && s.leaving.value.relayGeneration == SessionGeneration(s.session)
    && StartOf(s.leaving.value.transcript, logs(s.leaving.value.relayGeneration, s.view.value)) != 0
  }

  ghost predicate HonestPaint(s: State, relay: Relay) {
    relay.keepsCursors ==> !ForgetsStart(s, relay.logs)
  }

  ghost predicate Honest(s: State, e: Event, relay: Relay) {
    match e
    case SetSession(session) => LiveSlice(session, relay)
    case Rendered(_) => HonestPaint(s, relay)
    case Navigated(view, _) => HonestPaint(s.(view := view), relay)
    case Tail(g, page) => g in s.loads ==> HonestTail(s, g, page, relay)
    case Bridge(g, older) =>
      g in s.loads && s.loads[g].phase.AwaitBridge? && s.loads[g].phase.bridge.olderCursor.Some? ==>
        HonestOlder(older, s.loads[g].phase.bridge.olderCursor.value, relay)
    case OlderPage(page, _) => s.older.Some? ==> HonestOlder(page, s.older.value.before, relay)
    case TranscriptDelta(run, delta) =>
      s.pin.Some? && run == s.pin.value.relayGeneration ==>
        HonestDelta(s.pin.value, delta, relay.logs(run, s.pin.value.threadId), relay.keepsCursors)
    case OlderError(cursorRejected, _) => HonestCursor(s, cursorRejected, relay)
    case _ => true
  }

  // ----- Beginning, failing and finishing loads ----------------------------------------

  ghost predicate PriorOk(prior: Option<Pin>, threadId: string, run: string, relay: Relay) {
    prior.Some? ==>
      && HeldAt(prior.value.View(), relay.logs(run, threadId), relay.keepsCursors)
      && prior.value.threadId == threadId
      && prior.value.relayGeneration == run
  }

  lemma PriorForIsOk(s: State, threadId: string, relay: Relay)
    requires CacheOk(s, relay) && s.session.Some?
    requires PinHeld(s, relay)
    ensures PriorOk(PriorFor(s, threadId).1, threadId, s.session.value.relayGeneration, relay)
    ensures CacheOk(PriorFor(s, threadId).0, relay)
    ensures var c := PriorFor(s, threadId).0;
      c == s.(cache := c.cache, cacheGeneration := c.cacheGeneration)
  {
  }

  // A pin or cache entry that carries forward is one a load may start from.
  ghost predicate CanBegin(s: State, relay: Relay) {
    && CacheOk(s, relay) && LoadsOk(s, relay)
    && PinHeld(s, relay)
    && (s.older.Some? ==> s.older.value.generation <= s.generation)
  }

  lemma BeginLoadKeepsInv(s: State, threadId: Option<string>, terminal: bool, relay: Relay)
    requires CanBegin(s, relay)
    ensures Inv(BeginLoad(s, threadId, terminal), relay)
  {
    var r := RememberPin(s).(generation := s.generation + 1);
    RememberKeepsCache(s, relay);
    BeginLoadIs(s, r, threadId, terminal);
    if threadId.Some? && Eligible(r.session, threadId.value) {
      var (c, prior) := PriorFor(r, threadId.value);
      PriorForIsOk(r, threadId.value, relay);
      StartedLoadIsOk(c, threadId.value, prior, threadId.value in c.session.value.working, terminal, relay);
    } else {
      NoPinIsOk(r, relay);
    }
  }

  lemma BeginLoadIs(s: State, r: State, threadId: Option<string>, terminal: bool)
    requires r == RememberPin(s).(generation := s.generation + 1)
    ensures BeginLoad(s, threadId, terminal) ==
      if threadId.Some? && Eligible(r.session, threadId.value) then
        var (c, prior) := PriorFor(r, threadId.value);
        Started(c, threadId.value, prior, threadId.value in r.session.value.working, terminal)
      else r.(pin := None)
  {
  }

  lemma NoPinIsOk(s: State, relay: Relay)
    requires CacheOk(s, relay) && LoadsOk(s, relay)
    requires s.older.Some? ==> s.older.value.generation < s.generation
    ensures Inv(s.(pin := None), relay)
  {
  }

  function Started(s: State, threadId: string, prior: Option<Pin>, isWorking: bool, terminal: bool): State
    requires s.session.Some?
  {
    var live := s.session.value.relayGeneration;
    s.(
      pin := Some(LoadingPin(threadId, live, s.generation, prior, isWorking)),
      loads := s.loads[s.generation := Load(threadId, live, prior, isWorking, terminal, AwaitTail)])
  }

  // The state a load begins in: its loading pin on screen, its locals waiting.
  lemma StartedLoadIsOk(s: State, threadId: string, prior: Option<Pin>, isWorking: bool, terminal: bool, relay: Relay)
    requires s.session.Some? && s.generation > 0
    requires CacheOk(s, relay) && PriorOk(prior, threadId, s.session.value.relayGeneration, relay)
    requires forall h :: h in s.loads ==> h < s.generation && LoadOk(s.loads[h], relay)
    requires s.older.Some? ==> s.older.value.generation < s.generation
    ensures Inv(Started(s, threadId, prior, isWorking, terminal), relay)
  {
  }

  lemma RememberKeepsCache(s: State, relay: Relay)
    requires CacheOk(s, relay)
    requires PinHeld(s, relay)
    ensures CacheOk(RememberPin(s), relay)
    ensures var r := RememberPin(s);
      r.loads == s.loads && r.pin == s.pin && r.older == s.older && r.generation == s.generation && r.session == s.session
  {
  }

  lemma FailLoadKeepsInv(s: State, relay: Relay)
    requires Inv(s, relay) && s.generation in s.loads
    ensures Inv(FailLoad(s, s.generation, s.loads[s.generation]), relay)
  {
  }

  lemma DropLoadKeepsInv(s: State, g: nat, relay: Relay)
    requires Inv(s, relay) && g in s.loads
    ensures Inv(DropLoad(s, g), relay)
  {
  }

  // The live pin of the current load is what the load started from, grown at its tail.
  lemma LiveIsGrown(s: State, relay: Relay)
    requires Inv(s, relay) && s.generation in s.loads
    ensures var load := s.loads[s.generation];
      var live, log := LivePin(s, s.generation, load), relay.logs(load.relayGeneration, load.threadId);
      live.Some? ==>
        && HeldAt(live.value.View(), log, relay.keepsCursors)
        && live.value.threadId == load.threadId
        && Grown(load.prior, live.value, log)
  {
  }

  // A finished load writes a slice whenever the window it merges into is one and touches.
  lemma FinishKeepsInv(s: State, page: Page, connected: bool, relay: Relay)
    requires Served(relay) && Inv(s, relay) && s.generation in s.loads
    requires page.entries.Some?
    requires var load := s.loads[s.generation];
      var log, merge := relay.logs(load.relayGeneration, load.threadId), MergePin(s, s.generation, load, page, connected);
      page.threadId == load.threadId ==>
        && PageOf(page, log, StartOf(page.Rows(), log))
        && Mergeable(merge, log)
        && (merge.entries != [] ==> RefreshTouches(merge, StartOf(merge.entries, log), page, StartOf(page.Rows(), log)))
    ensures Inv(FinishLoad(s, s.generation, s.loads[s.generation], page, connected), relay)
  {
    var load := s.loads[s.generation];
    var log, merge := relay.logs(load.relayGeneration, load.threadId), MergePin(s, s.generation, load, page, connected);
    if page.threadId != load.threadId {
      FailLoadKeepsInv(s, relay);
    } else {
      LiveIsGrown(s, relay);
      assert merge.threadId == load.threadId;
      var lo := RefreshKeepsSlice(merge, StartOf(merge.entries, log), page, StartOf(page.Rows(), log), log);
      StartIs(MergeRefreshed(merge, page).entries, log, lo);
    }
  }

  // ----- Landing answers ---------------------------------------------------------------

  lemma SharedRowMeets(held: seq<Row>, a: nat, page: seq<Row>, c: nat, log: seq<Row>)
    requires Transcript(log) && SliceAt(held, log, a) && SliceAt(page, log, c)
    ensures SharesAny(page, KeysOf(held)) <==> Meets(held, a, page, c)
  {
    if SharesAny(page, KeysOf(held)) {
      var i :| 0 <= i < |page| && page[i].key in KeysOf(held);
      var k :| 0 <= k < |held| && held[k].key == page[i].key;
      assert SameRow(page[i], log[c + i]);
      SharedPosition(held, a, k, page[i], c + i, log);
    } else if Meets(held, a, page, c) {
      MeetingSharesKey(held, a, page, c, log, if a < c then c else a);
    }
  }

  lemma MeetingSharesKey(held: seq<Row>, a: nat, page: seq<Row>, c: nat, log: seq<Row>, t: nat)
    requires SliceAt(held, log, a) && SliceAt(page, log, c)
    requires a <= t < a + |held| && c <= t < c + |page|
    ensures SharesAny(page, KeysOf(held))
  {
    assert SameRow(held[t - a], log[t]) && SameRow(page[t - c], log[t]);
    assert held[t - a].key in KeysOf(held);
    assert page[t - c].key in KeysOf(held);
  }

  // A page that shares a row with what was retained touches the grown live pin.
  lemma ConnectedTouches(prior: Pin, live: Pin, page: Page, log: seq<Row>)
    requires Transcript(log) && HeldAt(prior.View(), log, false) && HeldAt(live.View(), log, false)
    requires Grown(Some(prior), live, log) && PageOf(page, log, StartOf(page.Rows(), log))
    requires SharesAny(page.Rows(), KeysOf(prior.entries))
    ensures RefreshTouches(live.View(), StartOf(live.entries, log), page, StartOf(page.Rows(), log))
  {
  }

  // Dropping the unreachable history leaves what arrived since, right after it.
  lemma DroppedHistory(prior: Pin, live: Pin, log: seq<Row>)
    requires Transcript(log) && HeldAt(prior.View(), log, false) && HeldAt(live.View(), log, false)
    requires Grown(Some(prior), live, log) && prior.entries != []
    ensures Filter(live.entries, (r: Row) => r.key !in KeysOf(prior.entries)) == live.entries[|prior.entries|..]
  {
    var ids, n := KeysOf(prior.entries), |prior.entries|;
    var a := StartOf(prior.entries, log);
    forall k | 0 <= k < |live.entries| ensures live.entries[k].key !in ids <==> n <= k {
      assert SameRow(live.entries[k], log[a + k]);
      if k < n {
        assert SameRow(prior.entries[k], log[a + k]);
      }
      if live.entries[k].key in ids {
        var i :| 0 <= i < n && prior.entries[i].key == live.entries[k].key;
        SharedPosition(prior.entries, a, i, live.entries[k], a + k, log);
      }
    }
    FilterCutsStretch(live.entries, (r: Row) => r.key !in ids, 0, n);
    assert live.entries[..0] + live.entries[n..] == live.entries[n..];
  }

  lemma DroppedTouches(prior: Pin, live: Pin, page: Page, log: seq<Row>, c: nat, rest: seq<Row>)
    requires Transcript(log) && HeldAt(prior.View(), log, false) && HeldAt(live.View(), log, false)
    requires Grown(Some(prior), live, log) && prior.entries != []
    requires page.Rows() != [] && SliceAt(page.Rows(), log, c) && !SharesAny(page.Rows(), KeysOf(prior.entries))
    requires c + |page.Rows()| > StartOf(prior.entries, log)
    requires rest == Filter(live.entries, (r: Row) => r.key !in KeysOf(prior.entries))
    ensures SliceAt(rest, log, StartOf(rest, log))
    ensures rest != [] ==> StartOf(rest, log) <= c + |page.Rows()|
  {
    DroppedHistory(prior, live, log);
    SharedRowMeets(prior.entries, StartOf(prior.entries, log), page.Rows(), c, log);
    PageBeyond(prior.entries, StartOf(prior.entries, log), page.Rows(), c);
    SuffixStart(live.entries, log, StartOf(live.entries, log), |prior.entries|);
  }

  // A page that ends past the slice's first row without meeting it starts past its last.
  lemma PageBeyond(held: seq<Row>, a: nat, page: seq<Row>, c: nat)
    requires held != [] && page != [] && c + |page| > a && !Meets(held, a, page, c)
    ensures a + |held| <= c
  {
  }

  lemma SuffixStart(rows: seq<Row>, log: seq<Row>, a: nat, p: nat)
    requires Transcript(log) && SliceAt(rows, log, a) && p <= |rows|
    ensures SliceAt(rows[p..], log, StartOf(rows[p..], log))
    ensures p < |rows| ==> StartOf(rows[p..], log) == a + p
  {
  }
}
