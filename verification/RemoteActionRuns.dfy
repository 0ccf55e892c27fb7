// Pending-action bookkeeping over whole runs: chunks belong to pending actions, a promise is
// settled at most once, re-authorization asks at most twice, and an operation keeps the
// identity of its first completed send.

module RemoteActionRuns {
  import opened Options
  import opened RemoteActions

  ghost predicate Inv(s: State) {
    ChunkInv(s) && PromiseInv(s) && ReauthInv(s)
  }

  // ----- The steps every event is made of ----------------------------------------------

  lemma ClearChunksKeepsInv(s: State, id: string)
    requires Inv(s)
    ensures Inv(ClearChunks(s, id))
  {
  }

  lemma ForgetKeepsInv(s: State, id: string)
    requires Inv(s) && id !in s.chunks
    ensures Inv(s.(pendings := s.pendings - {id}))
  {
  }

  // An effect that settles nothing and sends no re-authorization.
  lemma QuietEffectKeepsInv(s: State, e: Effect)
    requires Inv(s) && !e.Resolved? && !e.Rejected? && !(e.Sent? && e.attempt.Reauth?)
    ensures Inv(s.(effects := s.effects + [e]))
  {
  }

  lemma SettleEffectKeepsInv(s: State, e: Effect)
    requires Inv(s) && (e.Resolved? || e.Rejected?) && e.id in s.used && e.id !in s.pendings
    requires forall i :: 0 <= i < |s.effects| ==> !SettlesPromise(s.effects[i], e.id)
    ensures Inv(s.(effects := s.effects + [e]))
  {
  }

  lemma RejectKeepsInv(s: State, id: string)
    requires Inv(s)
    ensures Inv(Reject(s, id))
  {
  }

  lemma HandleResultKeepsInv(s: State, id: string, serialized: string, parsed: Parsed)
    requires Inv(s)
    ensures Inv(HandleResult(s, id, serialized, parsed))
  {
    var c := ClearChunks(s, id);
    ClearChunksKeepsInv(s, id);
    QuietEffectKeepsInv(c, Handled(id, serialized));
    var handled := c.(effects := s.effects + [Handled(id, serialized)]);
    if id in s.pendings {
      ForgetKeepsInv(handled, id);
      var gone := handled.(pendings := s.pendings - {id});
      assert ClearChunks(handled, id).chunks == handled.chunks;
      match parsed
      case Value(ok) =>
        SettleEffectKeepsInv(gone, if ok then Resolved(id) else Rejected(id));
        assert Settle(handled, id, parsed) == gone.(effects := gone.effects + [if ok then Resolved(id) else Rejected(id)]);
      case _ =>
        assert Settle(handled, id, parsed) == gone;
    }
  }

  lemma ExtendKeepsInv(s: State, id: string)
    requires Inv(s)
    ensures Inv(Extend(s, id))
  {
  }

  lemma StoreKeepsInv(s: State, id: string, c: Chunks)
    requires Inv(s) && id in s.pendings && Counted(c)
    ensures Inv(s.(chunks := s.chunks[id := c]))
  {
  }

  // ----- Chunks ------------------------------------------------------------------------

  lemma HandleChunkKeepsInv(s: State, id: string, f: ChunkFrame, parse: string -> Parsed)
    requires Inv(s)
    ensures Inv(HandleChunk(s, id, f, parse))
  {
    ClearChunksKeepsInv(s, id);
    RejectKeepsInv(s, id);
    if id in s.pendings && !Malformed(f) {
      var held := HeldChunks(s, id, f.count.value);
      HeldIsCounted(s, id, f.count.value);
      if held.chunkCount != f.count.value {
        StoreKeepsInv(s, id, held);
        RejectKeepsInv(s.(chunks := s.chunks[id := held]), id);
      } else {
        StoredChunkKeepsInv(s, id, f, parse);
      }
    }
  }

  lemma StoredChunkKeepsInv(s: State, id: string, f: ChunkFrame, parse: string -> Parsed)
    requires Inv(s) && id in s.pendings && !Malformed(f)
    requires HeldChunks(s, id, f.count.value).chunkCount == f.count.value
    requires Counted(HeldChunks(s, id, f.count.value))
    ensures Inv(HandleChunk(s, id, f, parse))
  {
    var held := HeldChunks(s, id, f.count.value);
    var filled := Filling(held, f.index.value, f.data.value);
    var stored := StoreChunk(s, id, held, f.index.value, f.data.value);
    MissingIsUnreachable(s, id, f);
    if filled.receivedCount != f.count.value {
      StoreKeepsInv(s, id, filled);
      ExtendKeepsInv(s.(chunks := s.chunks[id := filled]), id);
    } else {
      ClearChunksKeepsInv(s, id);
      ExtendKeepsInv(ClearChunks(s, id), id);
      assert s.chunks[id := filled] - {id} == s.chunks - {id};
      assert ClearChunks(stored, id) == CompletedTransfer(s, id, held, f.index.value);
      FinishKeepsInv(stored, id, filled.slots, parse);
    }
  }

  lemma FinishKeepsInv(s: State, id: string, slots: seq<Option<string>>, parse: string -> Parsed)
    requires Inv(ClearChunks(s, id))
    ensures Inv(FinishChunks(s, id, slots, parse))
  {
    RejectKeepsInv(ClearChunks(s, id), id);
    if Reassemble(slots).Whole? {
      HandleResultKeepsInv(ClearChunks(s, id), id, Reassemble(slots).serialized, parse(Reassemble(slots).serialized));
    }
  }

  // The state in which a complete transfer is reassembled.
  function CompletedTransfer(s: State, id: string, held: Chunks, index: nat): State
    requires index < |held.slots|
  {
    if Advances(held, index) then Extend(ClearChunks(s, id), id) else ClearChunks(s, id)
  }

  // ----- Sending -----------------------------------------------------------------------

  lemma BeginSendKeepsInv(s: State, id: string, attempt: Attempt, claimStep: bool)
    requires Inv(s) && (attempt.Reauth? ==> (id, attempt) in s.jobs)
    ensures Inv(BeginSend(s, id, attempt, claimStep))
  {
  }

  lemma EndJobKeepsInv(s: State, id: string, attempt: Attempt)
    requires Inv(s)
    ensures Inv(s.(jobs := s.jobs - {(id, attempt)}))
  {
  }

  lemma SentKeepsInv(s: State, id: string, attempt: Attempt, op: Option<Op>)
    requires Inv(s) && (id, attempt) in s.jobs
    ensures Inv(s.(jobs := s.jobs - {(id, attempt)}, effects := s.effects + [Sent(id, attempt, op)]))
  {
  }

  lemma NoteOpKeepsInv(s: State, id: string, op: Op)
    requires Inv(s) && id in s.pendings
    ensures Inv(s.(pendings := s.pendings[id := s.pendings[id].(op := Some(op))]))
  {
  }

  lemma CompleteSendKeepsInv(s: State, id: string, attempt: Attempt, minted: Op)
    requires Inv(s) && (id, attempt) in s.jobs && !s.jobs[(id, attempt)].Claiming?
    ensures Inv(CompleteSend(s, id, attempt, minted))
  {
    var done := s.jobs - {(id, attempt)};
    match s.jobs[(id, attempt)]
    case SigningClaimStep => SentKeepsInv(s, id, attempt, None);
    case Signing(held) =>
      var op := if held.Some? then held.value else minted;
      SentKeepsInv(s, id, attempt, Some(op));
      var sent := s.(jobs := done, effects := s.effects + [Sent(id, attempt, Some(op))]);
      var noted :=
        if id in s.pendings && s.pendings[id].op.None? then
          sent.(pendings := s.pendings[id := s.pendings[id].(op := Some(op))])
        else sent;
      if id in s.pendings { NoteOpKeepsInv(sent, id, op); }
      ExtendKeepsInv(noted, id);
  }

  lemma FailSendKeepsInv(s: State, id: string, attempt: Attempt)
    requires Inv(s) && (id, attempt) in s.jobs
    ensures Inv(FailSend(s, id, attempt))
  {
  }

  lemma ReauthorizeKeepsInv(s: State, id: string)
    requires Inv(s)
    ensures Inv(Reauthorize(s, id))
  {
  }

  lemma {:induction false} RejectAllKeepsInv(s: State, ids: seq<string>)
    requires Inv(s)
    ensures Inv(RejectAll(s, ids))
  {
    if ids != [] {
      RejectAllKeepsInv(s, ids[..|ids| - 1]);
      RejectKeepsInv(RejectAll(s, ids[..|ids| - 1]), ids[|ids| - 1]);
    }
  }

  // ----- Whole runs --------------------------------------------------------------------

  lemma DispatchKeepsInv(s: State, id: string, claimStep: bool, parse: string -> Parsed)
    requires Inv(s)
    ensures Inv(Step(s, Dispatch(id, claimStep), parse))
  {
    if id !in s.used {
      var r := s.(used := s.used[id := claimStep], pendings := s.pendings[id := Pending(claimStep, None, 0, true)]);
      RegisterKeepsInv(s, id, claimStep);
      BeginSendKeepsInv(r, id, First, claimStep);
    }
  }

  lemma RegisterKeepsInv(s: State, id: string, claimStep: bool)
    requires Inv(s) && id !in s.used
    ensures Inv(s.(used := s.used[id := claimStep], pendings := s.pendings[id := Pending(claimStep, None, 0, true)]))
  {
  }

  lemma StepKeepsInv(s: State, e: Event, parse: string -> Parsed)
    requires Inv(s)
    ensures Inv(Step(s, e, parse))
  {
    match e
    case Dispatch(id, claimStep) => DispatchKeepsInv(s, id, claimStep, parse);
    case Signed(id, attempt, minted) =>
      if (id, attempt) in s.jobs && !s.jobs[(id, attempt)].Claiming? { CompleteSendKeepsInv(s, id, attempt, minted); }
    case SendFails(id, attempt) => if (id, attempt) in s.jobs { FailSendKeepsInv(s, id, attempt); }
    case Result(id, serialized) => HandleResultKeepsInv(s, id, serialized, parse(serialized));
    case Chunk(id, frame) => HandleChunkKeepsInv(s, id, frame, parse);
    case Mismatch(id) => RejectKeepsInv(s, id);
    case PendingNotice(id) => ExtendKeepsInv(s, id);
    case ReauthorizeNotice(id) => ReauthorizeKeepsInv(s, id);
    case Claimed(id, k) =>
      if (id, Reauth(k)) in s.jobs {
        EndJobKeepsInv(s, id, Reauth(k));
        BeginSendKeepsInv(s, id, Reauth(k), false);
      }
    case ResendTurn(id, expired) =>
      RejectKeepsInv(s, id);
      BeginSendKeepsInv(s, id, Resend(s.resends), false);
    case Timeout(id) => RejectKeepsInv(s, id);
    case Suspend =>
    case RejectEach(ids) => RejectAllKeepsInv(s, ids);
  }

  ghost function Run(s: State, events: seq<Event>, parse: string -> Parsed): (t: State)
    requires Inv(s)
    ensures Inv(t)
  {
    if events == [] then s
    else
      var before := Run(s, events[..|events| - 1], parse);
      StepKeepsInv(before, events[|events| - 1], parse);
      Step(before, events[|events| - 1], parse)
  }

  ghost function Reached(events: seq<Event>, parse: string -> Parsed): (s: State)
    ensures Inv(s)
  {
    Run(INITIAL, events, parse)
  }

  // In every reachable state chunks belong to pending actions and are counted exactly, and no
  // promise has been settled twice or is pending after it was.
  lemma BookkeepingHolds(events: seq<Event>, parse: string -> Parsed)
    ensures var s := Reached(events, parse);
      && s.chunks.Keys <= s.pendings.Keys
      && (forall id :: id in s.chunks ==> s.chunks[id].receivedCount == Filled(s.chunks[id].slots) < s.chunks[id].chunkCount)
      && (forall i, j :: 0 <= i < j < |s.effects| && (s.effects[i].Resolved? || s.effects[i].Rejected?) ==>
        !SettlesPromise(s.effects[j], s.effects[i].id))
      && (forall i :: 0 <= i < |s.effects| && (s.effects[i].Resolved? || s.effects[i].Rejected?) ==>
        s.effects[i].id !in s.pendings)
  {
  }

  predicate ReauthFrame(e: Effect, id: string) {
    e.Sent? && e.id == id && e.attempt.Reauth?
  }

  // No action is sent three re-authorization frames.
  lemma AtMostTwoReauthFrames(events: seq<Event>, parse: string -> Parsed, id: string, i: nat, j: nat, k: nat)
    requires i < j < k < |Reached(events, parse).effects|
    ensures var effects := Reached(events, parse).effects;
      !(ReauthFrame(effects[i], id) && ReauthFrame(effects[j], id) && ReauthFrame(effects[k], id))
  {
  }

  // rejectPendingActions: with every pending action rejected, no chunk is left to clear.
  lemma {:induction false} RejectingAllLeavesNothing(s: State, ids: seq<string>)
    requires Inv(s) && forall id :: id in s.pendings ==> id in ids
    ensures RejectAll(s, ids).pendings == map[] && RejectAll(s, ids).chunks == map[]
  {
    RejectAllKeepsInv(s, ids);
    RejectAllForgets(s, ids);
  }

  lemma {:induction false} RejectAllForgets(s: State, ids: seq<string>)
    ensures RejectAll(s, ids).pendings == map id | id in s.pendings && id !in ids :: s.pendings[id]
  {
    if ids != [] {
      RejectAllForgets(s, ids[..|ids| - 1]);
    }
  }

  // ----- One operation, one identity ----------------------------------------------------

  // A frame of this action whose signing had begun in s.
  predicate Overlaps(s: State, id: string, attempt: Attempt) {
    (id, attempt) in s.jobs && !s.jobs[(id, attempt)].Claiming?
  }

  // Since s the pending action keeps operation o, and every frame begun since carries it.
  ghost predicate KeepsOp(s: State, t: State, id: string, o: Op) {
    && s.effects <= t.effects
    && id in t.used && id in t.pendings && t.pendings[id].op == Some(o)
    && (forall a :: (id, a) in t.jobs && !Overlaps(s, id, a) ==>
      t.jobs[(id, a)] == Claiming || t.jobs[(id, a)] == Signing(Some(o)))
    && (forall i :: |s.effects| <= i < |t.effects| ==> CarriesOp(s, t.effects[i], id, o))
  }

  predicate CarriesOp(s: State, e: Effect, id: string, o: Op) {
    e.Sent? && e.id == id && !Overlaps(s, id, e.attempt) ==> e.op == Some(o)
  }

  // An event that sends nothing and leaves the operation alone.
  ghost predicate SendsNothing(t: State, u: State, id: string) {
    && t.effects <= u.effects && u.jobs == t.jobs && u.used == t.used
    && (forall i :: |t.effects| <= i < |u.effects| ==> !u.effects[i].Sent?)
    && (id in u.pendings ==> id in t.pendings && u.pendings[id].op == t.pendings[id].op)
  }

  lemma SendsNothingKeepsOp(s: State, t: State, u: State, id: string, o: Op)
    requires KeepsOp(s, t, id, o) && SendsNothing(t, u, id) && id in u.pendings
    ensures KeepsOp(s, u, id, o)
  {
  }

  predicate Sends(e: Event) {
    e.Dispatch? || e.Signed? || e.SendFails? || e.ReauthorizeNotice? || e.Claimed? || e.ResendTurn?
  }

  lemma OtherEventsSendNothing(t: State, e: Event, parse: string -> Parsed, id: string)
    requires Inv(t) && !Sends(e)
    ensures SendsNothing(t, Step(t, e, parse), id)
  {
    if e.RejectEach? {
      RejectAllForgets(t, e.ids);
      RejectAllUses(t, e.ids);
    } else if e.Chunk? {
      ChunkSendsNothing(t, e.id, e.frame, parse, id);
    }
  }

  lemma ChunkSendsNothing(t: State, at: string, f: ChunkFrame, parse: string -> Parsed, id: string)
    requires Inv(t)
    ensures SendsNothing(t, HandleChunk(t, at, f, parse), id)
  {
    if at in t.pendings && !Malformed(f) {
      var held := HeldChunks(t, at, f.count.value);
      if held.chunkCount == f.count.value {
        var stored := StoreChunk(t, at, held, f.index.value, f.data.value);
        StoreSendsNothing(t, at, held, f.index.value, f.data.value, id);
        FinishSendsNothing(stored, at, Filling(held, f.index.value, f.data.value).slots, parse, id);
      }
    }
  }

  lemma StoreSendsNothing(t: State, at: string, held: Chunks, index: nat, data: string, id: string)
    requires index < |held.slots|
    ensures SendsNothing(t, StoreChunk(t, at, held, index, data), id)
  {
  }

  lemma FinishSendsNothing(t: State, at: string, slots: seq<Option<string>>, parse: string -> Parsed, id: string)
    ensures SendsNothing(t, FinishChunks(t, at, slots, parse), id)
  {
  }

  lemma SignedKeepsOp(s: State, t: State, at: string, attempt: Attempt, minted: Op, id: string, o: Op)
    requires KeepsOp(s, t, id, o) && (at, attempt) in t.jobs && !t.jobs[(at, attempt)].Claiming?
    requires id in CompleteSend(t, at, attempt, minted).pendings
    ensures KeepsOp(s, CompleteSend(t, at, attempt, minted), id, o)
  {
  }

  lemma BeginKeepsOp(s: State, t: State, at: string, attempt: Attempt, claimStep: bool, id: string, o: Op)
    requires KeepsOp(s, t, id, o) && (claimStep ==> at != id)
    ensures KeepsOp(s, BeginSend(t, at, attempt, claimStep), id, o)
  {
  }

  lemma ReauthorizeKeepsOp(s: State, t: State, at: string, id: string, o: Op)
    requires KeepsOp(s, t, id, o) && id in Reauthorize(t, at).pendings
    ensures KeepsOp(s, Reauthorize(t, at), id, o)
  {
  }

  lemma SettledStaysSettled(s: State, e: Event, parse: string -> Parsed, id: string)
    requires Inv(s) && id in s.used && id !in s.pendings
    ensures id in Step(s, e, parse).used && id !in Step(s, e, parse).pendings
  {
    match e
    case RejectEach(ids) => RejectAllForgets(s, ids); RejectAllUses(s, ids);
    case _ =>
  }

  lemma {:induction false} RejectAllUses(s: State, ids: seq<string>)
    ensures RejectAll(s, ids).used == s.used && RejectAll(s, ids).jobs == s.jobs && s.effects <= RejectAll(s, ids).effects
    ensures forall i :: |s.effects| <= i < |RejectAll(s, ids).effects| ==> RejectAll(s, ids).effects[i].Rejected?
  {
    if ids != [] {
      RejectAllUses(s, ids[..|ids| - 1]);
    }
  }

  lemma FailSendKeepsOp(s: State, t: State, at: string, attempt: Attempt, id: string, o: Op)
    requires KeepsOp(s, t, id, o) && (at, attempt) in t.jobs && id in FailSend(t, at, attempt).pendings
    ensures KeepsOp(s, FailSend(t, at, attempt), id, o)
  {
  }

  lemma StepKeepsOp(s: State, t: State, e: Event, parse: string -> Parsed, id: string, o: Op)
    requires Inv(t) && KeepsOp(s, t, id, o) && id in Step(t, e, parse).pendings
    ensures KeepsOp(s, Step(t, e, parse), id, o)
  {
    if !Sends(e) {
      OtherEventsSendNothing(t, e, parse, id);
      SendsNothingKeepsOp(s, t, Step(t, e, parse), id, o);
    } else {
      SendingKeepsOp(s, t, e, parse, id, o);
    }
  }

  lemma SendingKeepsOp(s: State, t: State, e: Event, parse: string -> Parsed, id: string, o: Op)
    requires Inv(t) && KeepsOp(s, t, id, o) && Sends(e) && id in Step(t, e, parse).pendings
    ensures KeepsOp(s, Step(t, e, parse), id, o)
  {
    match e
    case Dispatch(at, claimStep) =>
      if at !in t.used {
        var r := t.(used := t.used[at := claimStep], pendings := t.pendings[at := Pending(claimStep, None, 0, true)]);
        BeginKeepsOp(s, r, at, First, claimStep, id, o);
      }
    case Signed(at, attempt, minted) =>
      if (at, attempt) in t.jobs && !t.jobs[(at, attempt)].Claiming? { SignedKeepsOp(s, t, at, attempt, minted, id, o); }
    case SendFails(at, attempt) =>
      if (at, attempt) in t.jobs { FailSendKeepsOp(s, t, at, attempt, id, o); }
    case ReauthorizeNotice(at) => ReauthorizeKeepsOp(s, t, at, id, o);
    case Claimed(at, k) =>
      if (at, Reauth(k)) in t.jobs { BeginKeepsOp(s, t, at, Reauth(k), false, id, o); }
    case ResendTurn(at, expired) =>
      BeginKeepsOp(s, t, at, Resend(t.resends), false, id, o);
  }

  // Once an operation's identity is fixed it does not change while the action is pending, and
  // every frame whose signing begins afterwards carries it.
  lemma {:induction false} OperationKeepsItsIdentity(
    s: State, events: seq<Event>, parse: string -> Parsed, id: string, o: Op)
    requires Inv(s) && id in s.pendings && s.pendings[id].op == Some(o)
    requires id in Run(s, events, parse).pendings
    ensures KeepsOp(s, Run(s, events, parse), id, o)
  {
    if events != [] {
      var before := events[..|events| - 1];
      var t := Run(s, before, parse);
      RunUses(s, before, parse, id);
      if id !in t.pendings {
        SettledStaysSettled(t, events[|events| - 1], parse, id);
      }
      OperationKeepsItsIdentity(s, before, parse, id, o);
      StepKeepsOp(s, t, events[|events| - 1], parse, id, o);
    }
  }

  lemma {:induction false} RunUses(s: State, events: seq<Event>, parse: string -> Parsed, id: string)
    requires Inv(s) && id in s.used
    ensures id in Run(s, events, parse).used
  {
    if events != [] {
      RunUses(s, events[..|events| - 1], parse, id);
      StepUses(Run(s, events[..|events| - 1], parse), events[|events| - 1], parse, id);
    }
  }

  lemma StepUses(s: State, e: Event, parse: string -> Parsed, id: string)
    requires Inv(s) && id in s.used
    ensures id in Step(s, e, parse).used
  {
    match e
    case RejectEach(ids) => RejectAllUses(s, ids);
    case _ =>
  }

  // A resend whose turn comes after its action was settled is sent under a new operation, exactly
  // when its listed record has not expired.
  lemma SettledResendIsSentAnew(s: State, id: string, expired: bool, minted: Op)
    requires Inv(s) && id in s.used && !s.used[id] && id !in s.pendings
    ensures var t, job := TakeResendTurn(s, id, expired), (id, Resend(s.resends));
      if expired then t.jobs == s.jobs && t.effects == s.effects && t.pendings == s.pendings
      else
        && job in t.jobs && !t.jobs[job].Claiming?
        && CompleteSend(t, id, Resend(s.resends), minted).effects == s.effects + [Sent(id, Resend(s.resends), Some(minted))]
  {
  }

  ghost function Follow(events: seq<Event>, e: Event, parse: string -> Parsed): (longer: seq<Event>)
    ensures longer == events + [e] && Reached(longer, parse) == Step(Reached(events, parse), e, parse)
  {
    assert (events + [e])[..|events|] == events;
    events + [e]
  }

  // "a" and "b" are sent, and after a reconnect both are to be sent again: "b" first. While that
  // frame is signed "a" is answered, and then comes its turn.
  function AnsweredBeforeItsTurn(first: Op, other: Op, text: string): seq<Event> {
    [Dispatch("a", false), Signed("a", First, first), Dispatch("b", false), Signed("b", First, other),
     ResendTurn("b", false), Result("a", text), Signed("b", Resend(0), other), ResendTurn("a", false)]
  }

  // The settled action is sent once more, under an operation of its own: to the relay another
  // write, not the one it has answered.
  lemma LateResendMintsAnotherOperation(first: Op, other: Op, minted: Op, text: string, ok: bool, parse: string -> Parsed)
    requires parse(text) == Value(ok)
    ensures Reached(AnsweredBeforeItsTurn(first, other, text) + [Signed("a", Resend(1), minted)], parse).effects
      == [Sent("a", First, Some(first)), Sent("b", First, Some(other)),
          Handled("a", text), if ok then Resolved("a") else Rejected("a"),
          Sent("b", Resend(0), Some(other)), Extended("b"),
          Sent("a", Resend(1), Some(minted))]
  {
    var resent := ReachTurn(first, other, text, ok, parse);
    var last := Follow(resent, Signed("a", Resend(1), minted), parse);
    SentAnew(Reached(resent, parse), minted, parse);
  }

  lemma ReachTurn(first: Op, other: Op, text: string, ok: bool, parse: string -> Parsed) returns (resent: seq<Event>)
    requires parse(text) == Value(ok)
    ensures resent == AnsweredBeforeItsTurn(first, other, text)
    ensures var s := Reached(resent, parse);
      && s.jobs == map[("a", Resend(1)) := Signing(None)] && "a" !in s.pendings && s.chunks == map[]
      && s.effects == [Sent("a", First, Some(first)), Sent("b", First, Some(other)),
        Handled("a", text), if ok then Resolved("a") else Rejected("a"),
        Sent("b", Resend(0), Some(other)), Extended("b")]
  {
    var answered := ReachAnswered(first, other, text, ok, parse);
    resent := Follow(Follow(answered, Signed("b", Resend(0), other), parse), ResendTurn("a", false), parse);
    TurnComes(Reached(answered, parse), other, parse);
  }

  lemma ReachAnswered(first: Op, other: Op, text: string, ok: bool, parse: string -> Parsed) returns (answered: seq<Event>)
    requires parse(text) == Value(ok)
    ensures answered == AnsweredBeforeItsTurn(first, other, text)[..6]
    ensures BeingResent(Reached(answered, parse), first, other, text, ok)
  {
    var sent := ReachBothOut(first, other, parse);
    answered := Follow(Follow(sent, ResendTurn("b", false), parse), Result("a", text), parse);
    AnsweredMeanwhile(Reached(sent, parse), first, other, text, ok, parse);
  }

  lemma ReachBothOut(first: Op, other: Op, parse: string -> Parsed) returns (sent: seq<Event>)
    ensures sent == [Dispatch("a", false), Signed("a", First, first), Dispatch("b", false), Signed("b", First, other)]
    ensures BothOut(Reached(sent, parse), first, other)
  {
    var one := Follow([], Dispatch("a", false), parse);
    var two := Follow(one, Signed("a", First, first), parse);
    var three := Follow(two, Dispatch("b", false), parse);
    sent := Follow(three, Signed("b", First, other), parse);
    BothSent(first, other, parse);
  }

  lemma SentAnew(s: State, minted: Op, parse: string -> Parsed)
    requires ChunksFit(s) && ("a", Resend(1)) in s.jobs && s.jobs[("a", Resend(1))] == Signing(None) && "a" !in s.pendings
    ensures Step(s, Signed("a", Resend(1), minted), parse).effects == s.effects + [Sent("a", Resend(1), Some(minted))]
  {
  }

  // Both first frames are out.
  ghost predicate BothOut(s: State, first: Op, other: Op) {
    && s.used == map["a" := false, "b" := false] && s.jobs == map[] && s.chunks == map[] && s.resends == 0
    && s.pendings == map["a" := Pending(false, Some(first), 0, true), "b" := Pending(false, Some(other), 0, true)]
    && s.effects == [Sent("a", First, Some(first)), Sent("b", First, Some(other))]
  }

  lemma BothSent(first: Op, other: Op, parse: string -> Parsed)
    ensures ChunksFit(INITIAL)
    ensures var s1 := Step(INITIAL, Dispatch("a", false), parse);
      ChunksFit(s1) && var s2 := Step(s1, Signed("a", First, first), parse);
      ChunksFit(s2) && var s3 := Step(s2, Dispatch("b", false), parse);
      ChunksFit(s3) && BothOut(Step(s3, Signed("b", First, other), parse), first, other)
  {
    var s1 := Step(INITIAL, Dispatch("a", false), parse);
    assert s1.jobs == map[("a", First) := Signing(None)];
    var s2 := Step(s1, Signed("a", First, first), parse);
    assert s2.jobs == map[];
    var s3 := Step(s2, Dispatch("b", false), parse);
    assert s3.jobs == map[("b", First) := Signing(None)];
    var s4 := Step(s3, Signed("b", First, other), parse);
    assert s4.jobs == map[];
  }

  ghost predicate BeingResent(s: State, first: Op, other: Op, text: string, ok: bool) {
    && s.used == map["a" := false, "b" := false] && s.jobs == map[("b", Resend(0)) := Signing(Some(other))]
    && s.chunks == map[] && s.resends == 1
    && s.pendings == map["b" := Pending(false, Some(other), 0, true)]
    && s.effects == [Sent("a", First, Some(first)), Sent("b", First, Some(other)),
      Handled("a", text), if ok then Resolved("a") else Rejected("a")]
  }

  lemma AnsweredMeanwhile(s: State, first: Op, other: Op, text: string, ok: bool, parse: string -> Parsed)
    requires BothOut(s, first, other) && parse(text) == Value(ok)
    ensures ChunksFit(s) && ChunksFit(Step(s, ResendTurn("b", false), parse))
    ensures BeingResent(Step(Step(s, ResendTurn("b", false), parse), Result("a", text), parse), first, other, text, ok)
  {
    var t := Step(s, ResendTurn("b", false), parse);
    assert t.jobs == map[("b", Resend(0)) := Signing(Some(other))];
    assert t.pendings - {"a"} == map["b" := Pending(false, Some(other), 0, true)];
  }

  lemma TurnComes(s: State, other: Op, parse: string -> Parsed)
    requires s.used == map["a" := false, "b" := false] && s.jobs == map[("b", Resend(0)) := Signing(Some(other))]
    requires s.chunks == map[] && s.resends == 1 && s.pendings == map["b" := Pending(false, Some(other), 0, true)]
    ensures ChunksFit(s) && ChunksFit(Step(s, Signed("b", Resend(0), other), parse))
    ensures var t := Step(Step(s, Signed("b", Resend(0), other), parse), ResendTurn("a", false), parse);
      && t.jobs == map[("a", Resend(1)) := Signing(None)] && "a" !in t.pendings && t.chunks == map[]
      && t.effects == s.effects + [Sent("b", Resend(0), Some(other)), Extended("b")]
  {
    var t := Step(s, Signed("b", Resend(0), other), parse);
    assert t.jobs == map[];
    assert s.effects + [Sent("b", Resend(0), Some(other))] + [Extended("b")]
      == s.effects + [Sent("b", Resend(0), Some(other)), Extended("b")];
  }
}
