// Pairing codes (frontend/local/settings-controller.js and the PairingBody of
// settings-devices.js): codes are asked for and answered out of order, and the page shows one
// only if it grants what the page now says.

module Pairing {
  import opened Options
  import opened Strings

  type Scope = seq<string>

  // A code, and the scope startPairing was asked to mint it for.
  datatype Ticket = Ticket(id: string, minted: Scope)

  datatype State = State(
    codeRequest: nat,
    requestedScope: Scope,
    pairingOpen: bool,
    scannedPairingId: Option<string>,
    currentPairing: Option<Ticket>,
    busy: bool,
    error: bool,
    requests: map<nat, Scope>)

  const CLOSED := State(0, [], false, None, None, false, false, map[])

  datatype Event =
    | Open(scope: Scope)
    | Regenerate(scope: Scope)
    | CodeArrives(n: nat, id: string)
    | CodeFails(n: nat)
    | Close
    | Render(pending: set<string>)

  // closePairing; requests under way are left to answer into nothing.
  function ClosePairing(s: State): State {
    State(s.codeRequest + 1, [], false, None, None, false, false, s.requests)
  }

  // requestCode up to its await.
  function RequestCode(s: State, scope: Scope): State {
    s.(
      codeRequest := s.codeRequest + 1,
      requestedScope := scope,
      scannedPairingId := None,
      busy := true,
      error := false,
      requests := s.requests[s.codeRequest + 1 := scope])
  }

  predicate Scanned(s: State, pending: set<string>) {
    !s.busy && s.currentPairing.Some? && s.currentPairing.value.id in pending
  }

  // The request this code produced was seen and is gone: it was approved or rejected.
  predicate Decided(s: State, pending: set<string>) {
    !Scanned(s, pending) && !s.busy && s.pairingOpen
    && s.currentPairing.Some? && s.scannedPairingId == Some(s.currentPairing.value.id)
  }

  // pairingProps
  function Rendered(s: State, pending: set<string>): State {
    if Scanned(s, pending) then s.(scannedPairingId := Some(s.currentPairing.value.id))
    else if Decided(s, pending) then ClosePairing(s)
    else s
  }

  function Step(s: State, e: Event): State {
    match e
    case Open(scope) => RequestCode(s.(pairingOpen := true), scope)
    case Regenerate(scope) => RequestCode(s, scope)
    case CodeArrives(n, id) =>
      if n !in s.requests then s
      else
        var answered := s.(requests := s.requests - {n});
        if n != s.codeRequest then answered
        else answered.(currentPairing := Some(Ticket(id, s.requests[n])), busy := false)
    case CodeFails(n) =>
      if n !in s.requests then s
      else
        var answered := s.(requests := s.requests - {n});
        if n != s.codeRequest then answered
        else answered.(currentPairing := None, error := true, busy := false)
    case Close => ClosePairing(s)
    case Render(pending) => Rendered(s, pending)
  }

  function Run(events: seq<Event>): State {
    if events == [] then CLOSED else Step(Run(events[..|events| - 1]), events[|events| - 1])
  }

  // ----- What the page shows -----------------------------------------------------------

  datatype Mode = All | Folder

  // The scope the page says right now; none while no folder is typed.
  function Wanted(mode: Mode, folder: string): Option<Scope> {
    match mode
    case All => Some([])
    case Folder => if Trim(folder) == "" then None else Some([Trim(folder)])
  }

  function Shown(s: State, mode: Mode, folder: string): Option<Ticket> {
    if s.currentPairing.Some? && !s.busy && Wanted(mode, folder) == Some(s.requestedScope) then s.currentPairing else None
  }

  method SameScope(left: Scope, right: Scope) returns (same: bool)
    ensures same <==> left == right
  {
    if |left| != |right| { return false; }
    for index := 0 to |left|
      invariant left[..index] == right[..index]
    {
      if left[index] != right[index] { return false; }
    }
    assert left[..|left|] == left && right[..|right|] == right;
    same := true;
  }

  // ----- What is shown was minted for what is selected ---------------------------------

  // While nothing is being asked for, the code held is the requested scope's.
  predicate Matches(s: State) {
    && (s.currentPairing.Some? && !s.busy ==> s.currentPairing.value.minted == s.requestedScope)
    && (s.busy ==> s.codeRequest in s.requests && s.requests[s.codeRequest] == s.requestedScope)
    && (s.codeRequest in s.requests ==> s.busy)
    && (forall n :: n in s.requests ==> n <= s.codeRequest)
  }

  lemma {:induction false} RunMatches(events: seq<Event>)
    ensures Matches(Run(events))
  {
    if events != [] { RunMatches(events[..|events| - 1]); }
  }

  // Whatever the page selects when it looks, a code it shows grants exactly that.
  lemma ShownCodeGrantsTheSelection(events: seq<Event>, mode: Mode, folder: string)
    ensures var shown := Shown(Run(events), mode, folder);
      shown.Some? ==> Some(shown.value.minted) == Wanted(mode, folder)
  {
    RunMatches(events);
  }

  predicate Asks(e: Event, scope: Scope) {
    e == Open(scope) || e == Regenerate(scope)
  }

  // A later request, or the page closing: from then on an answer to an earlier one is stale.
  predicate Supersedes(s: State, e: Event) {
    e.Open? || e.Regenerate? || e.Close? || (e.Render? && !Scanned(s, e.pending) && Decided(s, e.pending))
  }

  predicate Undisturbed(events: seq<Event>, i: nat, j: nat) {
    i <= j <= |events| && forall k :: i <= k < j ==> !Supersedes(Run(events[..k]), events[k])
  }

  // Event i asked for a code, event j brought it, and nothing has superseded it since.
  predicate Brought(events: seq<Event>, i: nat, j: nat, ticket: Ticket) {
    && i < j < |events|
    && Asks(events[i], ticket.minted)
    && events[j] == CodeArrives(Run(events[..i + 1]).codeRequest, ticket.id)
    && Undisturbed(events, i + 1, |events|)
  }

  lemma StepAt(events: seq<Event>, k: nat)
    requires k < |events|
    ensures Run(events[..k + 1]) == Step(Run(events[..k]), events[k])
  {
    assert events[..k + 1][..k] == events[..k];
  }

  // While nothing supersedes a request it is the current one: outstanding until it is answered.
  lemma {:induction false} StaysCurrent(events: seq<Event>, i: nat, k: nat, scope: Scope)
    requires i < k <= |events| && Asks(events[i], scope) && Undisturbed(events, i + 1, k)
    ensures var s := Run(events[..k]);
      && s.codeRequest == Run(events[..i + 1]).codeRequest && s.requestedScope == scope
      && (s.busy ==> s.codeRequest in s.requests && s.requests[s.codeRequest] == scope)
  {
    StepAt(events, k - 1);
    var before, e := Run(events[..k - 1]), events[k - 1];
    if k - 1 > i {
      StaysCurrent(events, i, k - 1, scope);
      assert !Supersedes(before, e);
      NumberStays(before, e);
    } else {
      AskBegins(before, e, scope);
    }
  }

  lemma AskBegins(s: State, e: Event, scope: Scope)
    requires Asks(e, scope)
    ensures var t := Step(s, e); t.requestedScope == scope && t.codeRequest in t.requests && t.requests[t.codeRequest] == scope
  {
  }

  lemma NumberStays(s: State, e: Event)
    requires !Supersedes(s, e)
    ensures Step(s, e).codeRequest == s.codeRequest && Step(s, e).requestedScope == s.requestedScope
    ensures Step(s, e).busy ==> s.busy
    ensures s.codeRequest in s.requests && Step(s, e).busy ==>
      s.codeRequest in Step(s, e).requests && Step(s, e).requests[s.codeRequest] == s.requests[s.codeRequest]
  {
  }

  // The first answer to the current request decides what is held from then on.
  lemma {:induction false} AnswerStays(events: seq<Event>, i: nat, j: nat, k: nat, ticket: Ticket)
    requires i < j < k <= |events| && Asks(events[i], ticket.minted) && Undisturbed(events, i + 1, k)
    requires events[j] == CodeArrives(Run(events[..i + 1]).codeRequest, ticket.id) && Run(events[..j]).busy
    ensures HeldAt(Run(events[..k]), ticket)
  {
    if k - 1 > j {
      AnswerStays(events, i, j, k - 1, ticket);
      HeldOneMore(events, k, ticket);
    } else {
      StaysCurrent(events, i, j, ticket.minted);
      AnswerLandsAt(events, j, ticket);
    }
  }

  predicate HeldAt(s: State, ticket: Ticket) {
    s.currentPairing == Some(ticket) && !s.busy && s.requestedScope == ticket.minted
  }

  lemma HeldOneMore(events: seq<Event>, k: nat, ticket: Ticket)
    requires 0 < k <= |events| && HeldAt(Run(events[..k - 1]), ticket)
    requires !Supersedes(Run(events[..k - 1]), events[k - 1])
    ensures HeldAt(Run(events[..k]), ticket)
  {
    StepAt(events, k - 1);
    RunMatches(events[..k - 1]);
    HeldStays(Run(events[..k - 1]), events[k - 1]);
  }

  lemma AnswerLandsAt(events: seq<Event>, j: nat, ticket: Ticket)
    requires j < |events|
    requires var s := Run(events[..j]);
      && s.busy && s.codeRequest in s.requests && s.requests[s.codeRequest] == ticket.minted
      && s.requestedScope == ticket.minted && events[j] == CodeArrives(s.codeRequest, ticket.id)
    ensures HeldAt(Run(events[..j + 1]), ticket)
  {
    StepAt(events, j);
    AnswerLands(Run(events[..j]), events[j], ticket);
  }

  lemma HeldStays(s: State, e: Event)
    requires Matches(s) && s.currentPairing.Some? && !s.busy && !Supersedes(s, e)
    ensures var t := Step(s, e);
      t.currentPairing == s.currentPairing && !t.busy && t.requestedScope == s.requestedScope
  {
  }

  lemma AnswerLands(s: State, e: Event, ticket: Ticket)
    requires s.busy && s.codeRequest in s.requests && s.requests[s.codeRequest] == ticket.minted
    requires s.requestedScope == ticket.minted && e == CodeArrives(s.codeRequest, ticket.id)
    ensures var t := Step(s, e);
      t.currentPairing == Some(ticket) && !t.busy && t.requestedScope == ticket.minted
  {
  }

  // A code that was asked for and came, with nothing superseding it, is shown exactly when the
  // page selects its scope.
  lemma BroughtCodeIsShown(events: seq<Event>, i: nat, j: nat, ticket: Ticket, mode: Mode, folder: string)
    requires Brought(events, i, j, ticket) && Run(events[..j]).busy
    ensures Shown(Run(events), mode, folder)
      == if Wanted(mode, folder) == Some(ticket.minted) then Some(ticket) else None
  {
    AnswerStays(events, i, j, |events|, ticket);
    assert events[..|events|] == events;
  }

  // And nothing else is ever shown: behind a code on show there are its request and its answer.
  lemma ShownCodeWasBrought(events: seq<Event>, mode: Mode, folder: string) returns (i: nat, j: nat)
    requires Shown(Run(events), mode, folder).Some?
    ensures Brought(events, i, j, Shown(Run(events), mode, folder).value)
  {
    assert events[..|events|] == events;
    i, j := HeldCodeWasBrought(events, |events|);
  }

  lemma {:induction false} HeldCodeWasBrought(events: seq<Event>, n: nat) returns (i: nat, j: nat)
    requires n <= |events| && Run(events[..n]).currentPairing.Some? && !Run(events[..n]).busy
    ensures i < j < n && Asks(events[i], Run(events[..n]).currentPairing.value.minted)
    ensures events[j] == CodeArrives(Run(events[..i + 1]).codeRequest, Run(events[..n]).currentPairing.value.id)
    ensures Undisturbed(events, i + 1, n)
  {
    StepAt(events, n - 1);
    RunMatches(events[..n - 1]);
    if BringsCurrent(Run(events[..n - 1]), events[n - 1]) {
      BroughtNow(Run(events[..n - 1]), events[n - 1]);
      i := CurrentRequest(events, n - 1);
      j := n - 1;
    } else {
      HeldBefore(Run(events[..n - 1]), events[n - 1]);
      i, j := HeldCodeWasBrought(events, n - 1);
    }
    UndisturbedOneMore(events, i + 1, n);
  }

  lemma BroughtNow(s: State, e: Event)
    requires Matches(s) && BringsCurrent(s, e)
    ensures s.busy && Step(s, e).currentPairing == Some(Ticket(e.id, s.requestedScope)) && !Supersedes(s, e)
  {
  }

  lemma UndisturbedOneMore(events: seq<Event>, i: nat, n: nat)
    requires 0 < n <= |events| && Undisturbed(events, i, n - 1) && !Supersedes(Run(events[..n - 1]), events[n - 1])
    ensures Undisturbed(events, i, n)
  {
  }

  // A request under way was made by the latest event that could supersede it.
  lemma {:induction false} CurrentRequest(events: seq<Event>, n: nat) returns (i: nat)
    requires n <= |events| && Run(events[..n]).busy
    ensures i < n && Asks(events[i], Run(events[..n]).requestedScope)
    ensures Run(events[..i + 1]).codeRequest == Run(events[..n]).codeRequest
    ensures Undisturbed(events, i + 1, n)
  {
    StepAt(events, n - 1);
    if events[n - 1].Open? || events[n - 1].Regenerate? {
      i := n - 1;
    } else {
      BusyBefore(Run(events[..n - 1]), events[n - 1]);
      i := CurrentRequest(events, n - 1);
      UndisturbedOneMore(events, i + 1, n);
    }
  }

  lemma BusyBefore(s: State, e: Event)
    requires Step(s, e).busy && !e.Open? && !e.Regenerate?
    ensures s.busy && !Supersedes(s, e)
    ensures Step(s, e).requestedScope == s.requestedScope && Step(s, e).codeRequest == s.codeRequest
  {
  }

  predicate BringsCurrent(s: State, e: Event) {
    e.CodeArrives? && e.n in s.requests && e.n == s.codeRequest
  }

  lemma HeldBefore(s: State, e: Event)
    requires Matches(s) && Step(s, e).currentPairing.Some? && !Step(s, e).busy && !BringsCurrent(s, e)
    ensures !s.busy && Step(s, e).currentPairing == s.currentPairing && !Supersedes(s, e)
  {
  }

  // ----- Closing by itself -------------------------------------------------------------

  // The panel closes itself only for the code it holds, after that code's own request was
  // seen pending and is no longer.
  lemma {:induction false} SelfCloseMeansDecided(events: seq<Event>, pending: set<string>) returns (k: nat)
    requires Decided(Run(events), pending)
    ensures k < |events| && events[k].Render? && Run(events).currentPairing.value.id in events[k].pending
    ensures Run(events).currentPairing == Run(events[..k]).currentPairing
    ensures Run(events).currentPairing.value.id !in pending
  {
    assert events[..|events|] == events;
    k := ScannedWasSeen(events, |events|);
  }

  lemma {:induction false} ScannedWasSeen(events: seq<Event>, n: nat) returns (k: nat)
    requires n <= |events| && Run(events[..n]).currentPairing.Some? && !Run(events[..n]).busy
    requires Run(events[..n]).scannedPairingId == Some(Run(events[..n]).currentPairing.value.id)
    ensures k < n && events[k].Render? && Run(events[..n]).currentPairing.value.id in events[k].pending
    ensures Run(events[..n]).currentPairing == Run(events[..k]).currentPairing
  {
    StepAt(events, n - 1);
    var before, e := Run(events[..n - 1]), events[n - 1];
    RunMatches(events[..n - 1]);
    ScannedOnlyWhileHeld(events[..n - 1]);
    if e.Render? && Scanned(before, e.pending) {
      k := n - 1;
    } else {
      k := ScannedWasSeen(events, n - 1);
    }
  }

  // A request for a new code forgets the scan of the old one.
  lemma {:induction false} ScannedOnlyWhileHeld(events: seq<Event>)
    ensures Run(events).busy ==> Run(events).scannedPairingId.None?
  {
    if events != [] { ScannedOnlyWhileHeld(events[..|events| - 1]); }
  }

  class SettingsPairing {
    var codeRequest: nat
    var requestedScope: Scope
    var pairingOpen: bool
    var scannedPairingId: Option<string>
    var currentPairing: Option<Ticket>
    var pairingBusy: bool
    var pairingError: bool
    var requests: map<nat, Scope>

    function View(): State
      reads this
    {
      State(codeRequest, requestedScope, pairingOpen, scannedPairingId, currentPairing, pairingBusy, pairingError, requests)
    }

    constructor ()
      ensures View() == CLOSED
    {
      codeRequest, requestedScope, pairingOpen, scannedPairingId := 0, [], false, None;
      currentPairing, pairingBusy, pairingError, requests := None, false, false, map[];
    }

    method Dismiss()
      modifies this
      ensures View() == Step(old(View()), Close)
    {
      codeRequest := codeRequest + 1;
      requestedScope, pairingOpen, scannedPairingId := [], false, None;
      currentPairing, pairingError, pairingBusy := None, false, false;
    }

    method AskForCode(scope: Scope) returns (mine: nat)
      modifies this
      ensures View() == Step(old(View()), Regenerate(scope)) && mine == codeRequest
    {
      codeRequest := codeRequest + 1;
      mine := codeRequest;
      requestedScope, scannedPairingId := scope, None;
      pairingBusy, pairingError := true, false;
      requests := requests[mine := scope];
    }

    method OnOpen(scope: Scope) returns (mine: nat)
      modifies this
      ensures View() == Step(old(View()), Open(scope)) && mine == codeRequest
    {
      pairingOpen := true;
      mine := AskForCode(scope);
    }

    method TicketArrives(mine: nat, id: string)
      requires mine in requests
      modifies this
      ensures View() == Step(old(View()), CodeArrives(mine, id))
    {
      var ticket := Ticket(id, requests[mine]);
      requests := requests - {mine};
      if mine == codeRequest {
        currentPairing := Some(ticket);
        pairingBusy := false;
      }
    }

    method TicketFails(mine: nat)
      requires mine in requests
      modifies this
      ensures View() == Step(old(View()), CodeFails(mine))
    {
      requests := requests - {mine};
      if mine == codeRequest {
        currentPairing, pairingError := None, true;
        pairingBusy := false;
      }
    }

    method PairingProps(pending: set<string>) returns (scanned: bool)
      modifies this
      ensures View() == Step(old(View()), Render(pending))
      ensures scanned <==> Scanned(old(View()), pending)
    {
      var replacing := pairingBusy;
      scanned := !replacing && currentPairing.Some? && currentPairing.value.id in pending;
      if scanned {
        scannedPairingId := Some(currentPairing.value.id);
      } else if !replacing && pairingOpen && currentPairing.Some?
        && scannedPairingId == Some(currentPairing.value.id)
      {
        Dismiss();
      }
    }
  }
}
