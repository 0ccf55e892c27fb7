// Declaring which threads this surface shows (frontend/local/watched-threads.js): a canonical
// key for a set of threads, and a declarer that posts only what changed, one post at a time.

module WatchedThreads {
  import opened Options

  // ----- The watch set and its key -----------------------------------------------------

  // The order of Array.prototype.sort on strings.
  predicate Before(a: string, b: string) {
    if a == "" then b != ""
    else if b == "" then false
    else if a[0] != b[0] then a[0] < b[0]
    else Before(a[1..], b[1..])
  }

  lemma {:induction false} BeforeIsTotal(a: string, b: string)
    ensures a != b ==> (Before(a, b) <==> !Before(b, a))
    ensures !Before(a, a)
  {
    if a != "" {
      BeforeIsTotal(a[1..], if b == "" then "" else b[1..]);
      BeforeIsTotal(a[1..], a[1..]);
      if b != "" && a[0] == b[0] && a[1..] == b[1..] { assert a == [a[0]] + a[1..] && b == [b[0]] + b[1..]; }
    }
  }

  lemma {:induction false} BeforeIsTransitive(a: string, b: string, c: string)
    requires Before(a, b) && Before(b, c)
    ensures Before(a, c)
  {
    if a != "" && a[0] == b[0] && b[0] == c[0] {
      BeforeIsTransitive(a[1..], b[1..], c[1..]);
    }
  }

  predicate Ordered(ids: seq<string>) {
    forall i, j :: 0 <= i < j < |ids| ==> Before(ids[i], ids[j])
  }

  function Members(ids: seq<string>): set<string> {
    set id | id in ids
  }

  // Set.add on an insertion-ordered set.
  function AddOnce(ids: seq<string>, id: string): seq<string> {
    if id in ids then ids else ids + [id]
  }

  function AddAll(ids: seq<string>, more: seq<string>): seq<string> {
    if more == [] then ids
    else
      var before, id := AddAll(ids, more[..|more| - 1]), more[|more| - 1];
      if id == "" then before else AddOnce(before, id)
  }

  function InsertOrdered(ids: seq<string>, id: string): seq<string> {
    if ids == [] then [id]
    else if Before(id, ids[|ids| - 1]) then InsertOrdered(ids[..|ids| - 1], id) + [ids[|ids| - 1]]
    else ids + [id]
  }

  function Sort(ids: seq<string>): seq<string> {
    if ids == [] then [] else InsertOrdered(Sort(ids[..|ids| - 1]), ids[|ids| - 1])
  }

  // watchedThreadIds; "" stands for no thread.
  function WatchedThreadIds(activeThread: string, viewThread: string, alsoWatch: seq<string>): seq<string> {
    Sort(AddAll(Shown(activeThread, viewThread), alsoWatch))
  }

  function Shown(activeThread: string, viewThread: string): seq<string> {
    if viewThread != "" then [viewThread] else if activeThread != "" then [activeThread] else []
  }

  // join(" ")
  function Key(ids: seq<string>): string {
    if ids == [] then ""
    else if |ids| == 1 then ids[0]
    else ids[0] + " " + Key(ids[1..])
  }

  predicate NoRepeats(ids: seq<string>) {
    forall i, j :: 0 <= i < j < |ids| ==> ids[i] != ids[j]
  }

  lemma {:induction false} AddAllAdds(ids: seq<string>, more: seq<string>)
    requires NoRepeats(ids) && "" !in ids
    ensures NoRepeats(AddAll(ids, more)) && "" !in AddAll(ids, more)
    ensures Members(AddAll(ids, more)) == Members(ids) + Members(more) - {""}
  {
    if more != [] {
      var front, id := more[..|more| - 1], more[|more| - 1];
      AddAllAdds(ids, front);
      assert Members(more) == Members(front) + {id} by { assert more == front + [id]; }
      assert Members(AddOnce(AddAll(ids, front), id)) == Members(AddAll(ids, front)) + {id};
    }
  }

  lemma {:induction false} InsertOrders(ids: seq<string>, id: string)
    requires Ordered(ids) && id !in ids
    ensures Ordered(InsertOrdered(ids, id)) && Members(InsertOrdered(ids, id)) == Members(ids) + {id}
  {
    if ids != [] {
      var front, last := ids[..|ids| - 1], ids[|ids| - 1];
      assert ids == front + [last];
      BeforeIsTotal(id, last);
      if Before(id, last) {
        InsertOrders(front, id);
        var grown := InsertOrdered(front, id);
        forall i, j | 0 <= i < j < |grown + [last]| ensures Before((grown + [last])[i], (grown + [last])[j]) {
          if j == |grown| { assert grown[i] in Members(front) + {id}; }
        }
      } else {
        forall i | 0 <= i < |ids| ensures Before(ids[i], id) {
          if i < |ids| - 1 { BeforeIsTransitive(ids[i], last, id); }
        }
      }
    }
  }

  lemma {:induction false} SortOrders(ids: seq<string>)
    requires NoRepeats(ids)
    ensures Ordered(Sort(ids)) && Members(Sort(ids)) == Members(ids)
  {
    if ids != [] {
      var front := ids[..|ids| - 1];
      SortOrders(front);
      assert ids[|ids| - 1] !in front;
      assert ids[|ids| - 1] !in Members(Sort(front));
      InsertOrders(Sort(front), ids[|ids| - 1]);
      assert ids == front + [ids[|ids| - 1]];
    }
  }

  // An ordered list without repeats is determined by its members.
  lemma {:induction false} OrderedIsDetermined(a: seq<string>, b: seq<string>)
    requires Ordered(a) && Ordered(b) && Members(a) == Members(b)
    ensures a == b
  {
    if a == [] {
      assert forall i :: 0 <= i < |b| ==> b[i] in Members(a);
    } else {
      assert a[0] in Members(b) && b != [];
      var lastA, lastB := a[|a| - 1], b[|b| - 1];
      LastIsGreatest(a, b);
      var frontA, frontB := a[..|a| - 1], b[..|b| - 1];
      FrontMembers(a);
      FrontMembers(b);
      OrderedIsDetermined(frontA, frontB);
      assert a == frontA + [lastA] && b == frontB + [lastB];
    }
  }

  lemma FrontMembers(a: seq<string>)
    requires a != [] && Ordered(a)
    ensures Members(a[..|a| - 1]) == Members(a) - {a[|a| - 1]}
  {
    forall i | 0 <= i < |a| - 1 ensures a[i] != a[|a| - 1] {
      BeforeIsTotal(a[i], a[|a| - 1]);
    }
  }

  lemma LastIsGreatest(a: seq<string>, b: seq<string>)
    requires Ordered(a) && Ordered(b) && a != [] && b != [] && Members(a) == Members(b)
    ensures a[|a| - 1] == b[|b| - 1]
  {
    assert a[|a| - 1] in Members(b) && b[|b| - 1] in Members(a);
    var i :| 0 <= i < |b| && b[i] == a[|a| - 1];
    var j :| 0 <= j < |a| && a[j] == b[|b| - 1];
    BeforeIsTotal(a[|a| - 1], b[|b| - 1]);
  }

  // What the surface shows, as a set.
  function WatchSet(activeThread: string, viewThread: string, alsoWatch: seq<string>): set<string> {
    Members(Shown(activeThread, viewThread)) + Members(alsoWatch) - {""}
  }

  lemma WatchedIdsAreTheSet(activeThread: string, viewThread: string, alsoWatch: seq<string>)
    ensures var ids := WatchedThreadIds(activeThread, viewThread, alsoWatch);
      Ordered(ids) && Members(ids) == WatchSet(activeThread, viewThread, alsoWatch)
  {
    AddAllAdds(Shown(activeThread, viewThread), alsoWatch);
    SortOrders(AddAll(Shown(activeThread, viewThread), alsoWatch));
  }

  predicate Spaceless(ids: seq<string>) {
    forall i :: 0 <= i < |ids| ==> ids[i] != "" && ' ' !in ids[i]
  }

  lemma {:induction false} KeyIsInjective(a: seq<string>, b: seq<string>)
    requires Spaceless(a) && Spaceless(b) && Key(a) == Key(b)
    ensures a == b
  {
    if a != [] && b != [] {
      KeyStartsWithFirst(a);
      KeyStartsWithFirst(b);
      FirstWordIs(Key(a), a[0], b[0]);
      assert a == [a[0]] + a[1..] && b == [b[0]] + b[1..];
      if |a| > 1 && |b| > 1 {
        assert Key(a)[|a[0]| + 1..] == Key(a[1..]) && Key(b)[|b[0]| + 1..] == Key(b[1..]);
        KeyIsInjective(a[1..], b[1..]);
      }
    } else if a != [] {
      KeyStartsWithFirst(a);
    } else if b != [] {
      KeyStartsWithFirst(b);
    }
  }

  // The key is its first id, alone or with a space after it.
  lemma KeyStartsWithFirst(a: seq<string>)
    requires Spaceless(a) && a != []
    ensures StartsWithWord(Key(a), a[0]) && (|Key(a)| == |a[0]| <==> |a| == 1) && Key(a) != ""
  {
  }

  predicate StartsWithWord(s: string, word: string) {
    |word| <= |s| && s[..|word|] == word && ' ' !in word && (|s| > |word| ==> s[|word|] == ' ')
  }

  lemma FirstWordIs(s: string, a: string, b: string)
    requires StartsWithWord(s, a) && StartsWithWord(s, b)
    ensures a == b
  {
  }

  // The key is canonical: two surfaces' keys are equal exactly when they show the same threads.
  lemma KeyIsCanonical(
    active: string, view: string, also: seq<string>, active': string, view': string, also': seq<string>)
    requires forall id :: id in WatchSet(active, view, also) + WatchSet(active', view', also') ==> ' ' !in id
    ensures Key(WatchedThreadIds(active, view, also)) == Key(WatchedThreadIds(active', view', also'))
      <==> WatchSet(active, view, also) == WatchSet(active', view', also')
  {
    WatchedIdsAreTheSet(active, view, also);
    WatchedIdsAreTheSet(active', view', also');
    var a, b := WatchedThreadIds(active, view, also), WatchedThreadIds(active', view', also');
    assert Spaceless(a) by { forall i | 0 <= i < |a| ensures a[i] in Members(a) {} }
    assert Spaceless(b) by { forall i | 0 <= i < |b| ensures b[i] in Members(b) {} }
    if Members(a) == Members(b) { OrderedIsDetermined(a, b); }
    if Key(a) == Key(b) { KeyIsInjective(a, b); }
  }

  // A thread id with a space in it can be mistaken for two.
  lemma SpaceMakesKeysCollide()
    ensures Key(WatchedThreadIds("a b", "", [])) == Key(WatchedThreadIds("a", "", ["b"]))
    ensures WatchSet("a b", "", []) != WatchSet("a", "", ["b"])
  {
    WatchedIdsAreTheSet("a b", "", []);
    WatchedIdsAreTheSet("a", "", ["b"]);
    OrderedIsDetermined(WatchedThreadIds("a b", "", []), ["a b"]);
    OrderedIsDetermined(WatchedThreadIds("a", "", ["b"]), ["a", "b"]);
    assert "a b" in WatchSet("a b", "", []);
  }

  // ----- Declaring it ------------------------------------------------------------------

  type Target = seq<string>

  // A post under way: its body names the stream generation it was built in, and `handled` once
  // the relay has dealt with it.
  datatype Post = Post(target: Target, claim: Option<nat>, handled: bool)

  // The declarer, the page's stream generation, and of the relay the generation it has in force
  // for this surface and the set it holds.
  datatype State = State(
    lastKey: Option<string>,
    inFlight: Option<Post>,
    pending: Option<Target>,
    claim: Option<nat>,
    current: Option<nat>,
    relay: Option<Target>)

  const SILENT := State(None, None, None, None, None, None)

  datatype Event =
    | Sync(target: Target)
    | Arrives
    | PostOk
    | PostFails
    // The page starts another stream, at this time on its clock.
    | Connects(now: nat)
    // The relay opens that stream; the page hears of it and resets the declarer.
    | Admits
    | Reset
    // A stream of this generation is torn down.
    | Ends(generation: nat)

  // Only a post of an earlier generation than the one in force is refused.
  predicate Accepts(current: Option<nat>, claim: Option<nat>) {
    claim.None? || current.None? || claim.value >= current.value
  }

  function Opened(current: Option<nat>, claim: Option<nat>): Option<nat> {
    var held := if current.Some? then current.value else 0;
    if claim.None? then Some(held + 1) else Some(if claim.value > held then claim.value else held)
  }

  function Step(s: State, e: Event): State {
    match e
    case Sync(target) =>
      if s.lastKey == Some(Key(target)) then s
      else if s.inFlight.Some? then s.(pending := Some(target))
      else s.(inFlight := Some(Post(target, s.claim, false)), pending := None)
    case Arrives =>
      if s.inFlight.None? || s.inFlight.value.handled then s
      else
        s.(
          inFlight := Some(s.inFlight.value.(handled := true)),
          relay := if Accepts(s.current, s.inFlight.value.claim) then Some(s.inFlight.value.target) else s.relay)
    case PostOk =>
      // A refused post is answered like one that was stored.
      if s.inFlight.None? || !s.inFlight.value.handled then s
      else
        s.(
          lastKey := Some(Key(s.inFlight.value.target)),
          inFlight := if s.pending.Some? then Some(Post(s.pending.value, s.claim, false)) else None,
          pending := None)
    case PostFails =>
      // The relay may or may not have handled it; the target waiting behind it is dropped.
      if s.inFlight.None? then s else s.(lastKey := None, inFlight := None, pending := None)
    case Connects(now) => s.(claim := Some(now))
    case Admits => s.(current := Opened(s.current, s.claim))
    case Reset => s.(lastKey := None)
    case Ends(generation) =>
      // The teardown of a stream that another has replaced leaves the set alone.
      if s.current == Some(generation) then s.(current := None, relay := None) else s
  }

  function Run(events: seq<Event>): State {
    if events == [] then SILENT else Step(Run(events[..|events| - 1]), events[|events| - 1])
  }

  lemma RunGrows(events: seq<Event>, e: Event)
    ensures Run(events + [e]) == Step(Run(events), e)
  {
    assert (events + [e])[..|events|] == events;
  }

  predicate HoldsKey(relay: Option<Target>, key: string) {
    relay.Some? && Key(relay.value) == key
  }

  // ----- When an idle declarer is right ------------------------------------------------

  // The post that arrived last was stored, or asked for what was there, and no teardown has
  // dropped the set since.
  predicate Kept(events: seq<Event>) {
    if events == [] then false
    else
      var s, e := Run(events[..|events| - 1]), events[|events| - 1];
      if e.Arrives? && s.inFlight.Some? && !s.inFlight.value.handled then
        Accepts(s.current, s.inFlight.value.claim) || HoldsKey(s.relay, Key(s.inFlight.value.target))
      else
        Kept(events[..|events| - 1]) && (e.Ends? ==> s.current != Some(e.generation))
  }

  // Over every run of calls, failures and streams that come and go, an idle declarer that
  // remembers a key is right about the relay exactly when that post was kept.
  lemma {:induction false} IdleIsRightExactlyWhen(events: seq<Event>)
    ensures var s := Run(events);
      s.inFlight.Some? && s.inFlight.value.handled ==>
        (HoldsKey(s.relay, Key(s.inFlight.value.target)) <==> Kept(events))
    ensures var s := Run(events);
      s.lastKey.Some? && !(s.inFlight.Some? && s.inFlight.value.handled) ==>
        (HoldsKey(s.relay, s.lastKey.value) <==> Kept(events))
  {
    if events != [] { IdleIsRightExactlyWhen(events[..|events| - 1]); }
  }

  // A post stored before its stream ends and answered after the next one opened leaves the
  // declarer sure of a set the relay has dropped: asking again posts nothing.
  lemma StoredThenDropped(target: Target)
    ensures var s := Run([Connects(1), Admits, Reset, Sync(target), Arrives, Ends(1), Connects(2), Admits, Reset, PostOk]);
      s.inFlight.None? && s.lastKey == Some(Key(target)) && s.relay.None? && Step(s, Sync(target)) == s
  {
    var up := StreamOpens([], 1);
    var posted := Follow(Follow(Follow(up, Sync(target)), Arrives), Ends(1));
    var again := StreamOpens(posted, 2);
    RunGrows(again, PostOk);
    assert again + [PostOk]
      == [Connects(1), Admits, Reset, Sync(target), Arrives, Ends(1), Connects(2), Admits, Reset, PostOk];
  }

  // So does one that reaches the relay only after the next stream opened, and is refused.
  lemma RefusedAsStale(target: Target)
    ensures var s := Run([Connects(1), Admits, Reset, Sync(target), Ends(1), Connects(2), Admits, Reset, Arrives, PostOk]);
      s.inFlight.None? && s.lastKey == Some(Key(target)) && s.relay.None? && Step(s, Sync(target)) == s
  {
    var up := StreamOpens([], 1);
    var posted := Follow(Follow(up, Sync(target)), Ends(1));
    var again := Follow(StreamOpens(posted, 2), Arrives);
    RunGrows(again, PostOk);
    assert again + [PostOk]
      == [Connects(1), Admits, Reset, Sync(target), Ends(1), Connects(2), Admits, Reset, Arrives, PostOk];
  }

  ghost function Follow(events: seq<Event>, e: Event): (longer: seq<Event>)
    ensures longer == events + [e] && Run(longer) == Step(Run(events), e)
  {
    RunGrows(events, e);
    events + [e]
  }

  ghost function StreamOpens(events: seq<Event>, now: nat): (longer: seq<Event>)
    ensures longer == events + [Connects(now), Admits, Reset]
    ensures var s := Run(events);
      Run(longer) == s.(claim := Some(now), current := Opened(s.current, Some(now)), lastKey := None)
  {
    Follow(Follow(Follow(events, Connects(now)), Admits), Reset)
  }

  // ----- Reconnecting ------------------------------------------------------------------

  // A page whose stream, when it drops, is torn down before the next one opens at a later time.
  datatype Move = Does(e: Event) | Reconnects(now: nat)

  function UpSince(now: nat): State {
    SILENT.(claim := Some(now), current := Some(now))
  }

  function Reopened(s: State, now: nat): State
    requires s.current.Some?
  {
    Step(Step(Step(Step(s, Ends(s.current.value)), Connects(now)), Admits), Reset)
  }

  predicate Declares(e: Event) {
    e.Sync? || e.Arrives? || e.PostOk? || e.PostFails?
  }

  function Play(start: nat, moves: seq<Move>): (s: State)
    ensures s.claim.Some? && s.current == s.claim
  {
    if moves == [] then UpSince(start)
    else
      var s := Play(start, moves[..|moves| - 1]);
      match moves[|moves| - 1]
      case Does(e) => if Declares(e) then Step(s, e) else s
      case Reconnects(now) => if now > s.claim.value then Reopened(s, now) else s
  }

  // The post answered last was built on an earlier stream: the page reconnected while it was out.
  predicate Straddled(start: nat, moves: seq<Move>) {
    if moves == [] then false
    else
      var s, m := Play(start, moves[..|moves| - 1]), moves[|moves| - 1];
      if m == Does(PostOk) && s.inFlight.Some? && s.inFlight.value.handled then s.inFlight.value.claim != s.claim
      else Straddled(start, moves[..|moves| - 1])
  }

  ghost predicate PlayInv(s: State, straddled: bool) {
    && s.claim.Some?
    && (s.inFlight.Some? ==> s.inFlight.value.claim.Some? && s.inFlight.value.claim.value <= s.claim.value)
    && (s.inFlight.Some? && s.inFlight.value.claim != s.claim ==> s.relay.None?)
    && (s.inFlight.Some? && s.inFlight.value.handled && s.inFlight.value.claim == s.claim ==>
      s.relay == Some(s.inFlight.value.target))
    && (s.lastKey.Some? && !(s.inFlight.Some? && s.inFlight.value.handled) ==>
      if straddled then s.relay.None? else HoldsKey(s.relay, s.lastKey.value))
  }

  // An idle declarer that remembers a key is right exactly when the page did not reconnect while
  // the post behind that key was out; the page could tell, by comparing generations.
  lemma {:induction false} IdleIsWrongExactlyAcrossReconnects(start: nat, moves: seq<Move>)
    ensures PlayInv(Play(start, moves), Straddled(start, moves))
    ensures var s := Play(start, moves);
      s.inFlight.None? && s.lastKey.Some? ==> (HoldsKey(s.relay, s.lastKey.value) <==> !Straddled(start, moves))
  {
    if moves != [] { IdleIsWrongExactlyAcrossReconnects(start, moves[..|moves| - 1]); }
  }

  // ----- On one stream -----------------------------------------------------------------

  // After `before` the stream is up, its generation in force, and the reset found no post out;
  // from then on no stream comes or goes.
  predicate OneStream(before: seq<Event>, after: seq<Event>) {
    && Run(before).inFlight.None? && Run(before).pending.None? && Run(before).lastKey.None?
    && Accepts(Run(before).current, Run(before).claim)
    && forall i :: 0 <= i < |after| ==>
      after[i].Sync? || after[i].Arrives? || after[i].PostOk? || after[i].PostFails? || after[i].Reset?
  }

  predicate Remembers(s: State) {
    && (s.pending.Some? ==> s.inFlight.Some?)
    && Accepts(s.current, s.claim)
    && (s.inFlight.Some? ==> Accepts(s.current, s.inFlight.value.claim))
    && (s.inFlight.Some? && s.inFlight.value.handled ==> s.relay == Some(s.inFlight.value.target))
    && (s.lastKey.Some? && !(s.inFlight.Some? && s.inFlight.value.handled) ==> HoldsKey(s.relay, s.lastKey.value))
  }

  lemma RunFollows(before: seq<Event>, after: seq<Event>)
    requires after != []
    ensures Run(before + after) == Step(Run(before + after[..|after| - 1]), after[|after| - 1])
  {
    assert before + after == (before + after[..|after| - 1]) + [after[|after| - 1]];
    RunGrows(before + after[..|after| - 1], after[|after| - 1]);
  }

  // On one stream, whatever fails, resets or overlaps, an idle declarer that remembers a key is
  // right.
  lemma {:induction false} IdleMeansDeclared(before: seq<Event>, after: seq<Event>)
    requires OneStream(before, after)
    ensures Remembers(Run(before + after))
    ensures var s := Run(before + after);
      s.inFlight.None? && s.lastKey.Some? ==> HoldsKey(s.relay, s.lastKey.value)
  {
    if after == [] {
      assert before + after == before;
    } else {
      IdleMeansDeclared(before, after[..|after| - 1]);
      RunFollows(before, after);
    }
  }

  // The newest target whose key differed from lastKey when it was asked for.
  function Newest(before: seq<Event>, after: seq<Event>): Option<Target> {
    if after == [] then None
    else
      var front, e := after[..|after| - 1], after[|after| - 1];
      if e.Sync? && Run(before + front).lastKey != Some(Key(e.target)) then Some(e.target) else Newest(before, front)
  }

  predicate Delivers(s: State, newest: Option<Target>) {
    if s.pending.Some? then newest == s.pending
    else if s.inFlight.Some? then newest == Some(s.inFlight.value.target)
    else newest.Some? ==> s.relay == newest && s.lastKey == Some(Key(newest.value))
  }

  // With no further reset and no failed post, an idle declarer has delivered the newest such target.
  lemma {:induction false} IdleMeansNewestDelivered(before: seq<Event>, after: seq<Event>)
    requires OneStream(before, after)
    requires forall i :: 0 <= i < |after| ==> !after[i].Reset? && !after[i].PostFails?
    ensures Delivers(Run(before + after), Newest(before, after))
    ensures Run(before + after).inFlight.None? && Newest(before, after).Some? ==>
      Run(before + after).relay == Newest(before, after)
  {
    IdleMeansDeclared(before, after);
    if after == [] {
      assert before + after == before;
    } else {
      var front := after[..|after| - 1];
      IdleMeansNewestDelivered(before, front);
      IdleMeansDeclared(before, front);
      RunFollows(before, after);
      assert !after[|after| - 1].Reset? && !after[|after| - 1].PostFails?;
    }
  }

  // ----- What one call achieves --------------------------------------------------------

  // The post under way and the one waiting are handled and answered, and nothing else happens.
  function Drained(s: State): State {
    var once := Step(Step(s, Arrives), PostOk);
    Step(Step(once, Arrives), PostOk)
  }

  // What the relay will hold once it has handled the post under way...
  function AfterFlight(s: State): Option<Target> {
    if s.inFlight.Some? && !s.inFlight.value.handled && Accepts(s.current, s.inFlight.value.claim) then
      Some(s.inFlight.value.target)
    else s.relay
  }

  // ...and the one waiting behind it.
  function Heading(s: State): Option<Target> {
    if s.pending.Some? && Accepts(s.current, s.claim) then s.pending else AfterFlight(s)
  }

  lemma {:induction false} PendingMeansBusy(events: seq<Event>)
    ensures Run(events).pending.Some? ==> Run(events).inFlight.Some?
  {
    if events != [] { PendingMeansBusy(events[..|events| - 1]); }
  }

  lemma DrainedIsIdle(s: State)
    requires s.pending.Some? ==> s.inFlight.Some?
    ensures Drained(s).inFlight.None? && Drained(s).relay == Heading(s)
  {
  }

  // A call and then quiet leaves the relay holding what was asked for exactly when the call goes
  // out on a generation the relay accepts, or the relay comes to hold it anyway. A call for the
  // remembered key is not sent: it rests on what is already on its way.
  lemma NewestWinsExactlyWhen(events: seq<Event>, target: Target)
    ensures var s := Run(events);
      HoldsKey(Drained(Step(s, Sync(target))).relay, Key(target))
      <==>
      if s.lastKey == Some(Key(target)) then HoldsKey(Heading(s), Key(target))
      else Accepts(s.current, s.claim) || HoldsKey(AfterFlight(s), Key(target))
  {
    PendingMeansBusy(events);
    DrainedIsIdle(Run(events));
    DrainedIsIdle(Step(Run(events), Sync(target)));
  }

  // On one stream that is always, unless the call goes back to the remembered key while a post
  // for something else is under way.
  lemma NewestWinsOnOneStream(before: seq<Event>, after: seq<Event>, target: Target)
    requires OneStream(before, after)
    ensures var s := Run(before + after);
      HoldsKey(Drained(Step(s, Sync(target))).relay, Key(target))
      <==> !(s.lastKey == Some(Key(target)) && s.inFlight.Some? && !HoldsKey(Heading(s), Key(target)))
  {
    IdleMeansDeclared(before, after);
    NewestWinsExactlyWhen(before + after, target);
  }

  // From an idle declarer one undisturbed call suffices exactly when the declaration it rests on
  // was kept, or when it is sent and accepted or finds its set already there.
  lemma OneCallConverges(events: seq<Event>, target: Target)
    requires Run(events).inFlight.None?
    ensures var s := Run(events);
      HoldsKey(Drained(Step(s, Sync(target))).relay, Key(target))
      <==>
      if s.lastKey == Some(Key(target)) then Kept(events)
      else Accepts(s.current, s.claim) || HoldsKey(s.relay, Key(target))
  {
    NewestWinsExactlyWhen(events, target);
    IdleIsRightExactlyWhen(events);
    PendingMeansBusy(events);
  }

  // After a failed post the next call posts, whatever it asks for.
  lemma FailureIsRetried(events: seq<Event>, target: Target)
    requires Run(events).inFlight.Some?
    ensures Step(Step(Run(events), PostFails), Sync(target)).inFlight == Some(Post(target, Run(events).claim, false))
  {
  }

  class WatchedThreadsSync {
    var lastKey: Option<string>
    var inFlight: Option<Post>
    var pending: Option<Target>
    // The generation of the page's stream.
    var surfaceGeneration: Option<nat>
    // What the relay has for this surface.
    var current: Option<nat>
    var relay: Option<Target>

    function View(): State
      reads this
    {
      State(lastKey, inFlight, pending, surfaceGeneration, current, relay)
    }

    constructor ()
      ensures View() == SILENT
    {
      lastKey, inFlight, pending, surfaceGeneration, current, relay := None, None, None, None, None, None;
    }

    // Up to the first post; `declared` is whether this device has an id to declare under.
    method SyncWatchedThreads(declared: bool, activeThread: string, viewThread: string, alsoWatch: seq<string>)
      modifies this
      ensures View() ==
        if declared then Step(old(View()), Sync(WatchedThreadIds(activeThread, viewThread, alsoWatch))) else old(View())
    {
      if !declared { return; }
      var threadIds := CollectWatchedThreadIds(activeThread, viewThread, alsoWatch);
      var key := Key(threadIds);
      if lastKey == Some(key) { return; }
      if inFlight.Some? {
        pending := Some(threadIds);
        return;
      }
      inFlight, pending := Some(Post(threadIds, surfaceGeneration, false)), None;
    }

    method CollectWatchedThreadIds(activeThread: string, viewThread: string, alsoWatch: seq<string>)
      returns (ids: seq<string>)
      ensures ids == WatchedThreadIds(activeThread, viewThread, alsoWatch)
      ensures Ordered(ids) && Members(ids) == WatchSet(activeThread, viewThread, alsoWatch)
    {
      ids := [];
      if viewThread != "" {
        ids := [viewThread];
      } else if activeThread != "" {
        ids := [activeThread];
      }
      for i := 0 to |alsoWatch|
        invariant ids == AddAll(Shown(activeThread, viewThread), alsoWatch[..i])
      {
        assert alsoWatch[..i + 1][..i] == alsoWatch[..i];
        if alsoWatch[i] != "" && alsoWatch[i] !in ids {
          ids := ids + [alsoWatch[i]];
        }
      }
      assert alsoWatch[..|alsoWatch|] == alsoWatch;
      WatchedIdsAreTheSet(activeThread, viewThread, alsoWatch);
      ids := Sort(ids);
    }

    // The relay refuses a superseded generation, replaces the set otherwise, and answers alike.
    method SetWatchedThreadsForGeneration()
      requires inFlight.Some? && !inFlight.value.handled
      modifies this
      ensures View() == Step(old(View()), Arrives)
    {
      var post := inFlight.value;
      inFlight := Some(post.(handled := true));
      if post.claim.Some? {
        var held := if current.Some? then current.value else 0;
        if post.claim.value < held { return; }
      }
      relay := Some(post.target);
    }

    // One turn of the posting loop.
    method PostSucceeds()
      requires inFlight.Some? && inFlight.value.handled
      modifies this
      ensures View() == Step(old(View()), PostOk)
    {
      lastKey := Some(Key(inFlight.value.target));
      if pending.None? {
        inFlight := None;
      } else {
        inFlight, pending := Some(Post(pending.value, surfaceGeneration, false)), None;
      }
    }

    method PostThrows()
      requires inFlight.Some?
      modifies this
      ensures View() == Step(old(View()), PostFails)
    {
      lastKey, inFlight, pending := None, None, None;
    }

    method ConnectSessionStream(now: nat)
      modifies this`surfaceGeneration
      ensures View() == Step(old(View()), Connects(now))
    {
      surfaceGeneration := Some(now);
    }

    method OpenSurfaceGeneration()
      modifies this`current
      ensures View() == Step(old(View()), Admits)
    {
      var held := if current.Some? then current.value else 0;
      if surfaceGeneration.None? {
        current := Some(held + 1);
      } else if surfaceGeneration.value > held {
        current := surfaceGeneration;
      } else {
        current := Some(held);
      }
    }

    method DropWatchedSurfaceGeneration(generation: nat)
      modifies this`current, this`relay
      ensures View() == Step(old(View()), Ends(generation))
    {
      if current != Some(generation) { return; }
      current, relay := None, None;
    }

    method ForgetDeclaration()
      modifies this`lastKey
      ensures View() == Step(old(View()), Reset)
    {
      lastKey := None;
    }
  }
}
