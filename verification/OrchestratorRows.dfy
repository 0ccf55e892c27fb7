// Which rows of the Orchestrator pane a landing page keeps. The page is merged into what the
// pane held when the load began, not into what the stream has made of it since.

module OrchestratorRows {
  import opened Options
  import opened Filters
  import opened TranscriptRows
  import opened PinMerge
  import opened PinSlices
  import opened PinHoles
  import opened OrchestratorLoad
  import Ops = ViewOnlyOps

  predicate HasKey(rows: seq<Row>, key: Option<string>) {
    exists i :: 0 <= i < |rows| && rows[i].key == key
  }

  lemma SliceHasKey(rows: seq<Row>, log: seq<Row>, a: nat, t: nat)
    requires Transcript(log) && SliceAt(rows, log, a) && t < |log|
    ensures HasKey(rows, log[t].key) <==> a <= t < a + |rows|
  {
    if a <= t < a + |rows| {
      assert rows[t - a].key == log[t].key;
    }
    forall i | 0 <= i < |rows| && rows[i].key == log[t].key ensures a + i == t {
      assert SameRow(rows[i], log[a + i]);
      SharedPosition(rows, a, i, log[t], t, log);
    }
  }

  lemma ConcatHasKey(left: seq<Row>, right: seq<Row>, key: Option<string>)
    ensures HasKey(left + right, key) <==> HasKey(left, key) || HasKey(right, key)
  {
    var both := left + right;
    if HasKey(left, key) {
      var i :| 0 <= i < |left| && left[i].key == key;
      assert both[i].key == key;
    }
    if HasKey(right, key) {
      var i :| 0 <= i < |right| && right[i].key == key;
      assert both[|left| + i].key == key;
    }
  }

  // Unnumbered, unordered and without a row in common: the merge can only take the page.
  ghost predicate GivesUp(base: Window, a: nat, page: Page, c: nat, log: seq<Row>) {
    !StrictlyNumbered(log) && !StrictlySequenced(log) && !Meets(base.entries, a, page.Rows(), c)
  }

  // Row t of the transcript after a page from c lands on rows held from a: the page has it, or
  // they do and it is not before a page that trims what it does not reach.
  ghost predicate KeptAt(base: Window, a: nat, page: Page, c: nat, log: seq<Row>, t: nat) {
    || c <= t < c + |page.Rows()|
    || (a <= t < a + |base.entries|
      && (page.Rows() == [] || ((base.historyExtended || c <= t) && !GivesUp(base, a, page, c, log))))
  }

  lemma RefreshKeepsExactly(base: Window, a: nat, page: Page, c: nat, log: seq<Row>, t: nat)
    requires Transcript(log) && page.threadId == base.threadId && t < |log|
    requires SliceAt(base.entries, log, a) && SliceAt(page.Rows(), log, c)
    ensures HasKey(MergeRefreshed(base, page).entries, log[t].key) <==> KeptAt(base, a, page, c, log, t)
  {
    SliceHasKey(base.entries, log, a, t);
    SliceHasKey(page.Rows(), log, c, t);
    if base.entries != [] && page.Rows() != [] {
      SliceKeys(page.Rows(), log, c);
      SliceKeys(base.entries, log, a);
      if StrictlyNumbered(log) {
        RefreshByNumberIs(base, a, page, c, log);
        JoinedKeepsExactly(base, a, page, c, log, t);
      } else if !GivesUp(base, a, page, c, log) {
        RefreshByOverlapIs(base, a, page, c, log);
        JoinedKeepsExactly(base, a, page, c, log, t);
      } else {
        RefreshByOverlapGivesUp(base, a, page, c, log);
      }
    }
  }

  lemma JoinedKeepsExactly(base: Window, a: nat, page: Page, c: nat, log: seq<Row>, t: nat)
    requires Transcript(log) && t < |log|
    requires SliceAt(base.entries, log, a) && SliceAt(page.Rows(), log, c)
    ensures HasKey(PinSlices.Refreshed(base, a, page, c).entries, log[t].key) <==>
      c <= t < c + |page.Rows()| || (a <= t < a + |base.entries| && (base.historyExtended || c <= t))
  {
    var rows, n := page.Rows(), |base.entries|;
    var p, q := Clamp(c - a, n), Clamp(c + |rows| - a, n);
    var prefix, blended, tail := base.entries[..p], Blend(base.entries, a, rows, c, TakeIncoming), base.entries[q..];
    BlendSlice(base.entries, a, rows, c, log);
    SliceHasKey(blended, log, c, t);
    PartsHaveKey(base.entries, log, a, p, q, t);
    var kept := if base.historyExtended then prefix else [];
    ConcatHasKey(kept + blended, tail, log[t].key);
    ConcatHasKey(kept, blended, log[t].key);
    assert HasKey(kept, log[t].key) <==> base.historyExtended && a <= t < a + p;
    Stretches(a, n, c, |rows|, t);
  }

  lemma PartsHaveKey(rows: seq<Row>, log: seq<Row>, a: nat, p: nat, q: nat, t: nat)
    requires Transcript(log) && SliceAt(rows, log, a) && p <= |rows| && q <= |rows| && t < |log|
    ensures HasKey(rows[..p], log[t].key) <==> a <= t < a + p
    ensures HasKey(rows[q..], log[t].key) <==> a + q <= t < a + |rows|
  {
    PrefixSlice(rows, log, a, p);
    SliceHasKey(rows[..p], log, a, t);
    assert SliceAt(rows[q..], log, a + q);
    SliceHasKey(rows[q..], log, a + q, t);
  }

  // Before the page, in it, or after it.
  lemma Stretches(a: nat, n: nat, c: nat, m: nat, t: nat)
    ensures var p, q := Clamp(c - a, n), Clamp(c + m - a, n);
      && (a <= t < a + p <==> a <= t < a + n && t < c)
      && (a + q <= t < a + n <==> a <= t < a + n && c + m <= t)
  {
  }

  // What the load that brings the page merges into.
  function Base(load: Load): Window {
    if load.prior.Some? then load.prior.value else NO_WINDOW.(threadId := load.threadId)
  }

  // The current load's page, of the session's run and the load's thread.
  predicate Lands(s: State, g: nat, page: Page) {
    && g in s.loads && g == s.generation && page.generation == s.liveRun
    && page.entries.Some? && page.threadId == s.loads[g].threadId && Base(s.loads[g]).threadId == page.threadId
  }

  // A transcript row is in the pane after a page lands exactly when the page has it or the
  // merge keeps it of what was held when the load began. What is held now plays no part.
  lemma LandingKeepsExactly(s: State, g: nat, page: Page, log: seq<Row>, a: nat, c: nat, t: nat)
    requires Lands(s, g, page) && Transcript(log) && t < |log|
    requires SliceAt(Base(s.loads[g]).entries, log, a) && SliceAt(page.Rows(), log, c)
    ensures var after := PageArrives(s, g, page).entries;
      after.Some? && (HasKey(after.value, log[t].key) <==> KeptAt(Base(s.loads[g]), a, page, c, log, t))
  {
    RefreshKeepsExactly(Base(s.loads[g]), a, page, c, log, t);
  }

  // So a row the stream brought while the page was out survives its landing exactly when the
  // page has it; with a page that joins on, exactly when it stands before the page's end.
  lemma StreamedRowSurvivesExactlyWhen(s: State, g: nat, page: Page, log: seq<Row>, a: nat, c: nat, i: nat)
    requires Lands(s, g, page) && Transcript(log) && s.entries.Some?
    requires SliceAt(s.entries.value, log, a) && SliceAt(page.Rows(), log, c)
    requires SliceAt(Base(s.loads[g]).entries, log, a)
    requires |Base(s.loads[g]).entries| <= i < |s.entries.value|
    ensures var after, row := PageArrives(s, g, page).entries, s.entries.value[i];
      && after.Some?
      && (HasKey(after.value, row.key) <==> c <= a + i < c + |page.Rows()|)
      && (c <= a + |Base(s.loads[g]).entries| ==> (HasKey(after.value, row.key) <==> a + i < c + |page.Rows()|))
  {
    var t := a + i;
    assert SameRow(s.entries.value[i], log[t]);
    LandingKeepsExactly(s, g, page, log, a, c, t);
    assert KeptAt(Base(s.loads[g]), a, page, c, log, t) <==> c <= t < c + |page.Rows()|;
  }

  // ----- It happens --------------------------------------------------------------------

  ghost function Follow(events: seq<Event>, e: Event): (longer: seq<Event>)
    ensures longer == events + [e] && Run(EMPTY_PANE, longer) == Step(Run(EMPTY_PANE, events), e)
  {
    assert (events + [e])[..|events|] == events;
    events + [e]
  }

  // The page of one row, as the relay read it before the second was written.
  function FirstRowPage(first: Row): Page {
    Page("o", Some([first]), None, None, "run")
  }

  // The first row shown; then a turn seen to run and to end, whose last render refreshes the pane.
  function Shown(first: Row): seq<Event> {
    [Session("run", None, false), Reload(Some("o"), []), Arrives(1, FirstRowPage(first))]
  }

  const TURN := [
    Session("run", None, true), Rendered(Some("o"), []), Session("run", None, false), Rendered(Some("o"), [])]

  // A second row streams in while the page that refresh fetches, read before it, is on its way:
  // the pane shows it, the page takes it away, and nothing notes a gap.
  lemma LandingForgetsDeltasDuringTheFetch(first: Row, second: Row, log: seq<Row>)
    requires Transcript(log) && |log| == 2 && SameRow(first, log[0]) && SameRow(second, log[1])
    ensures var before := Run(EMPTY_PANE, Shown(first) + TURN + [Delta(Ops.NewRow(second))]);
      var after := Step(before, Arrives(2, FirstRowPage(first)));
      && before.entries == Some([first, second])
      && after.entries.Some? && HasKey(after.entries.value, first.key) && !HasKey(after.entries.value, second.key)
      && !after.loading && !after.tailGap
  {
    var turn := ReachRefreshing(first);
    var streamed := Follow(turn, Delta(Ops.NewRow(second)));
    SecondRowStreams(Run(EMPTY_PANE, turn), first, second, log);
    var before := Run(EMPTY_PANE, streamed);
    LandingKeepsExactly(before, 2, FirstRowPage(first), log, 0, 0, 0);
    LandingKeepsExactly(before, 2, FirstRowPage(first), log, 0, 0, 1);
  }

  lemma ReachRefreshing(first: Row) returns (turn: seq<Event>)
    ensures turn == Shown(first) + TURN && Refreshing(Run(EMPTY_PANE, turn), first)
  {
    var begun := Follow(Follow([], Session("run", None, false)), Reload(Some("o"), []));
    var landed := Follow(begun, Arrives(1, FirstRowPage(first)));
    FirstLanding(Run(EMPTY_PANE, begun), first);
    turn := Follow(Follow(Follow(Follow(landed, TURN[0]), TURN[1]), TURN[2]), TURN[3]);
    TurnEndsInARefresh(Run(EMPTY_PANE, landed), first);
  }

  // Settled on the first row of "o".
  predicate Shows(s: State, rows: seq<Row>) {
    && s.liveRun == "run" && s.entriesRun == "run" && s.activeThread.None? && s.generation == 1
    && s.entries == Some(rows) && s.entriesThread == Some("o") && s.olderCursor.None? && !s.historyExtended
    && !s.loading && !s.tailGap && !s.deltaDuringFetch && s.loads == map[] && s.older.None?
    && !s.wasWorking && !s.lastActivityWorking && !s.deltaRaisedWorking
  }

  lemma FirstLanding(s: State, first: Row)
    requires s == Step(Step(EMPTY_PANE, Session("run", None, false)), Reload(Some("o"), []))
    ensures Shows(Step(s, Arrives(1, FirstRowPage(first))), [first])
  {
    assert s.loads == map[1 := Load("o", false, None)];
    assert s.loads - {1} == map[];
  }

  // The refresh is out, from the first row alone.
  predicate Refreshing(s: State, first: Row) {
    && s.liveRun == "run" && s.entriesRun == "run" && s.generation == 2 && s.entries == Some([first])
    && s.entriesThread == Some("o") && !s.tailGap
    && 2 in s.loads && s.loads[2] == Load("o", true, Some(Window("o", [first], None, false)))
  }

  lemma TurnEndsInARefresh(s: State, first: Row)
    requires Shows(s, [first])
    ensures Refreshing(Step(Step(Step(Step(s, TURN[0]), TURN[1]), TURN[2]), TURN[3]), first)
  {
    var working := s.(orchWorking := true);
    var seen := working.(wasWorking := true, lastActivityWorking := true, deltaRaisedWorking := false);
    assert Step(working, TURN[1]) == seen;
    var idle := seen.(orchWorking := false);
    assert Decide(idle, Some("o")) == Decision(true, false, true, false);
  }

  lemma SecondRowStreams(s: State, first: Row, second: Row, log: seq<Row>)
    requires Transcript(log) && |log| == 2 && SameRow(first, log[0]) && SameRow(second, log[1])
    requires Refreshing(s, first)
    ensures var t := Step(s, Delta(Ops.NewRow(second)));
      && t.entries == Some([first, second]) && t.generation == 2 && t.liveRun == "run" && !t.tailGap
      && 2 in t.loads && t.loads[2] == s.loads[2]
  {
    assert Ops.InsertByOrder([first], second) == [first, second] by {
      assert first.orderSeq == log[0].orderSeq && second.orderSeq == log[1].orderSeq;
    }
  }

  // ----- The cursor of a pane turned live ----------------------------------------------

  // The pane shows a page of "o" that starts at c; then it is given another thread, which is the
  // active one.
  function TurnedLive(page: Page, transcript: seq<Row>): seq<Event> {
    [Session("run", None, false), Reload(Some("o"), []), Arrives(1, page), Session("run", Some("n"), false),
     Reload(Some("n"), transcript)]
  }

  // Its rows are the session's, and its cursor still the one of the page: here it does not join
  // on, and the next older page is asked for there all the same.
  lemma LiveTranscriptKeepsTheOldCursor(
    page: Page, oldLog: seq<Row>, c: nat, transcript: seq<Row>, newLog: seq<Row>, b: nat)
    requires Transcript(oldLog) && PageOf(page, oldLog, c) && page.threadId == "o" && page.generation == "run"
    requires SliceAt(transcript, newLog, b) && 0 < c && (c < b || b + |transcript| < c)
    ensures var t := Run(EMPTY_PANE, TurnedLive(page, transcript));
      && t.entriesThread == Some("n") && t.entries == Some(transcript) && t.olderCursor == Some(c)
      && !CursorInside(t.olderCursor, b, |transcript|)
      && Step(t, AskOlder).older == Some(OlderLoad("n", t.generation, c))
  {
    var events := TurnedLive(page, transcript);
    var begun := Follow(Follow([], events[0]), events[1]);
    var landed := Follow(begun, events[2]);
    PageLands(Run(EMPTY_PANE, begun), page);
    var taken := Follow(Follow(landed, events[3]), events[4]);
    assert taken == events;
    TakesLiveRows(Run(EMPTY_PANE, landed), transcript);
  }

  lemma PageLands(s: State, page: Page)
    requires s == Step(Step(EMPTY_PANE, Session("run", None, false)), Reload(Some("o"), []))
    requires page.threadId == "o" && page.generation == "run" && page.Rows() != []
    ensures var t := Step(s, Arrives(1, page));
      t.olderCursor == page.prevCursor && t.older.None? && t.generation == 1 && t.loads == map[]
  {
    assert s.loads == map[1 := Load("o", false, None)];
    assert s.loads - {1} == map[];
  }

  lemma TakesLiveRows(s: State, transcript: seq<Row>)
    requires s.olderCursor.Some? && s.older.None? && s.generation == 1
    ensures var t := Step(Step(s, Session("run", Some("n"), false)), Reload(Some("n"), transcript));
      && t.entriesThread == Some("n") && t.entries == Some(transcript) && t.olderCursor == s.olderCursor
      && !t.loading && t.older.None?
  {
  }
}
