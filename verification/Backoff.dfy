// Reconnect backoff (frontend/remote/broker-client.js, nextSocketReconnectDelayMs): a
// doubling cap with the delay drawn from its upper half, reset by a session that lasted.

module Backoff {
  import opened Options

  const BASE_DELAY_MS: int := 1500
  const MAX_DELAY_MS: int := 60000
  const STABLE_SESSION_MS: real := 60000.0

  function Pow2(n: nat): (p: nat)
    ensures p >= 1
  {
    if n == 0 then 1 else 2 * Pow2(n - 1)
  }

  function Cap(failures: nat): int {
    var exponent := if failures < 31 then failures else 31;
    if BASE_DELAY_MS * Pow2(exponent) < MAX_DELAY_MS then BASE_DELAY_MS * Pow2(exponent) else MAX_DELAY_MS
  }

  function FloorOf(cap: int): int {
    if cap / 2 > 1 then cap / 2 else 1
  }

  // Math.random()
  type Random = r: real | 0.0 <= r < 1.0

  function Delay(failures: nat, random: Random): int {
    var cap := Cap(failures);
    (FloorOf(cap) as real + random * (cap - FloorOf(cap) + 1) as real).Floor
  }

  lemma {:induction false} Pow2Grows(n: nat, m: nat)
    requires n <= m
    ensures Pow2(n) <= Pow2(m)
  {
    if n < m { Pow2Grows(n, m - 1); }
  }

  lemma CapsAre(failures: nat)
    ensures Cap(failures) == match failures
      case 0 => 1500 case 1 => 3000 case 2 => 6000 case 3 => 12000 case 4 => 24000 case 5 => 48000
      case _ => 60000
  {
    assert Pow2(4) == 16 && Pow2(3) == 8;
    assert Pow2(6) == 64 && Pow2(5) == 32;
    if failures >= 6 {
      Pow2Grows(6, if failures < 31 then failures else 31);
    }
  }

  // Caps never decrease, and every delay lies in the upper half of its cap.
  lemma DelayBounds(failures: nat, random: Random)
    ensures Cap(failures) <= Cap(failures + 1)
    ensures Cap(failures) / 2 <= Delay(failures, random) <= Cap(failures)
  {
    CapsAre(failures);
    CapsAre(failures + 1);
    DrawnBetween(FloorOf(Cap(failures)), Cap(failures), random);
  }

  lemma DrawnBetween(floor: int, cap: int, random: Random)
    requires floor <= cap
    ensures floor <= (floor as real + random * (cap - floor + 1) as real).Floor <= cap
  {
    var width := cap - floor + 1;
    assert 0.0 <= random * width as real < width as real;
    assert floor as real + width as real == (cap + 1) as real;
  }

  // The least total of the first n delays after a reset.
  function Least(n: nat): int {
    if n == 0 then 0 else Least(n - 1) + Cap(n - 1) / 2
  }

  lemma {:induction false} LeastIs(n: nat)
    requires n >= 6
    ensures Least(n) == 47250 + 30000 * (n - 6)
  {
    CapsAre(n - 1);
    if n > 6 {
      LeastIs(n - 1);
    } else {
      CapsAre(0); CapsAre(1); CapsAre(2); CapsAre(3); CapsAre(4);
      assert Least(1) == 750 && Least(2) == 2250 && Least(3) == 5250;
      assert Least(4) == 11250 && Least(5) == 23250;
    }
  }

  lemma {:induction false} LeastAtLeast(n: nat)
    ensures Least(n) >= 30000 * n - 132750
  {
    if n >= 6 {
      LeastIs(n);
    } else {
      CapsAre(0); CapsAre(1); CapsAre(2); CapsAre(3); CapsAre(4);
      assert Least(1) == 750 && Least(2) == 2250 && Least(3) == 5250;
      assert Least(4) == 11250 && Least(5) == 23250;
    }
  }

  // ----- Runs --------------------------------------------------------------------------

  datatype Selection = Selection(key: string, window: int)

  // A retry is scheduled, or a socket that had opened (or never did) closes.
  datatype Event = Retry(random: Random) | Closed(openFor: Option<real>)

  datatype State = State(failures: nat, selection: Selection)

  // syncSocketReconnectBackoff
  function Sync(s: State, selection: Selection): State {
    if s.selection != selection then State(0, selection) else s
  }

  function Step(s: State, selection: Selection, e: Event): State {
    match e
    case Retry(_) => State(Sync(s, selection).failures + 1, selection)
    case Closed(openFor) => if openFor.Some? && openFor.value >= STABLE_SESSION_MS then State(0, selection) else s
  }

  // One page's attempts at one relay.
  datatype Totals = Totals(state: State, retries: nat, resets: nat, elapsed: real)

  function Run(s: State, selection: Selection, events: seq<Event>): Totals {
    if events == [] then Totals(Sync(s, selection), 0, 0, 0.0)
    else
      var t, e := Run(s, selection, events[..|events| - 1]), events[|events| - 1];
      var next := Step(t.state, selection, e);
      match e
      case Retry(random) => Totals(next, t.retries + 1, t.resets, t.elapsed + Delay(t.state.failures, random) as real)
      case Closed(openFor) =>
        if openFor.Some? && openFor.value >= STABLE_SESSION_MS then
          Totals(next, t.retries, t.resets + 1, t.elapsed + openFor.value)
        else Totals(next, t.retries, t.resets, t.elapsed)
  }

  // k consecutive failures, wherever the count stood, wait at least this long.
  lemma {:induction false} ConsecutiveFailuresWait(s: State, selection: Selection, events: seq<Event>)
    requires forall i :: 0 <= i < |events| ==> events[i].Retry?
    ensures var t := Run(s, selection, events);
      && t.state.selection == selection && t.state.failures >= t.retries == |events| && t.elapsed >= Least(|events|) as real
    ensures |events| >= 6 ==> Run(s, selection, events).elapsed >= (47250 + 30000 * (|events| - 6)) as real
  {
    if events != [] {
      ConsecutiveFailuresWait(s, selection, events[..|events| - 1]);
      var t := Run(s, selection, events[..|events| - 1]);
      assert events[|events| - 1].Retry?;
      DelayBounds(t.state.failures, events[|events| - 1].random);
      CapGrows(|events| - 1, t.state.failures);
    }
    if |events| >= 6 { LeastIs(|events|); }
  }

  lemma CapGrows(n: nat, m: nat)
    requires n <= m
    ensures Cap(n) / 2 <= Cap(m) / 2
  {
    CapsAre(n);
    CapsAre(m);
  }

  // Over every run of failures and of sessions short and long, with no reconnect asked for by
  // anything but a closed socket, reconnects are bounded by the
  // time they take: a reset costs a session of a minute, a late retry half a minute.
  lemma {:induction false} ReconnectsAreBounded(s: State, selection: Selection, events: seq<Event>)
    requires s.selection == selection && s.failures == 0
    ensures var t := Run(s, selection, events);
      && (30000 * t.retries) as real <= t.elapsed + 132750.0 + 72750.0 * t.resets as real
      && 60000.0 * t.resets as real <= t.elapsed
  {
    RunSlack(s, selection, events);
    LeastAtLeast(Run(s, selection, events).state.failures);
    LeastIsNat(Run(s, selection, events).state.failures);
  }

  lemma {:induction false} RunSlack(s: State, selection: Selection, events: seq<Event>)
    requires s.selection == selection && s.failures == 0
    ensures var t := Run(s, selection, events);
      && t.state.selection == selection && t.state.failures <= t.retries
      && t.elapsed >= (Least(t.state.failures) + 30000 * (t.retries - t.state.failures) - 72750 * t.resets) as real
      && t.elapsed >= (60000 * t.resets + Least(t.state.failures)) as real
  {
    if events != [] {
      RunSlack(s, selection, events[..|events| - 1]);
      var t, e := Run(s, selection, events[..|events| - 1]), events[|events| - 1];
      LeastAtLeast(t.state.failures);
      LeastIsNat(t.state.failures);
      if e.Retry? { DelayBounds(t.state.failures, e.random); }
    }
  }

  lemma {:induction false} LeastIsNat(n: nat)
    ensures Least(n) >= 0
  {
    if n > 0 { LeastIsNat(n - 1); CapsAre(n - 1); }
  }

  class SocketReconnect {
    var failures: nat
    var selectionKey: string
    var window: int

    function View(): State
      reads this
    {
      State(failures, Selection(selectionKey, window))
    }

    constructor (key: string, window: int)
      ensures View() == State(0, Selection(key, window))
    {
      failures, selectionKey, this.window := 0, key, window;
    }

    method SyncBackoff(selection: Selection)
      modifies this
      ensures View() == Sync(old(View()), selection)
    {
      if selection.window != window || selection.key != selectionKey {
        failures, selectionKey, window := 0, selection.key, selection.window;
      }
    }

    method NoteClosedSocketDuration(openFor: Option<real>, selection: Selection)
      modifies this
      ensures View() == Step(old(View()), selection, Closed(openFor))
    {
      if openFor.Some? && openFor.value >= STABLE_SESSION_MS {
        failures, selectionKey, window := 0, selection.key, selection.window;
      }
    }

    method NextSocketReconnectDelayMs(selection: Selection, random: Random) returns (delay: int)
      modifies this
      ensures View() == Step(old(View()), selection, Retry(random))
      ensures delay == Delay(Sync(old(View()), selection).failures, random)
      ensures Cap(Sync(old(View()), selection).failures) / 2 <= delay <= MAX_DELAY_MS
    {
      SyncBackoff(selection);
      var cap := Cap(failures);
      var floor := FloorOf(cap);
      delay := (floor as real + random * (cap - floor + 1) as real).Floor;
      DelayBounds(failures, random);
      failures := failures + 1;
    }
  }
}
