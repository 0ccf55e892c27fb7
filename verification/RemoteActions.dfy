// The phone's pending actions (frontend/remote/actions.js): one promise per action id, its
// chunked answer, its deadline, and the frames that ask for it again.
//
// Asynchronous functions are cut at their awaits: an `Attempt` is one sendRemoteActionFrame
// under way, and the events are whatever may happen next, in any order. Action ids are random
// and never repeat; registering one twice is not part of this model.

module RemoteActions {
  import opened Options

  const MAX_REAUTHORIZATIONS: nat := 2

  // An operation's identity: the relay boot and clock of its first signed attempt.
  datatype Op = Op(boot: string, t0: int)

  datatype Pending = Pending(claimStep: bool, op: Option<Op>, reauthorizations: nat, armed: bool)

  // state.pendingActionChunks: slots not yet filled are None.
  datatype Chunks = Chunks(chunkCount: nat, slots: seq<Option<string>>, receivedCount: nat)

  // Which of an action's frames is being built: its first, a resend, or the k-th re-authorization.
  datatype Attempt = First | Resend(number: nat) | Reauth(k: nat)

  // Waiting for a claim, or signing with the op read from the pending action (None: a new one).
  datatype Stage = Claiming | Signing(op: Option<Op>) | SigningClaimStep

  // JSON.parse of a reassembled answer, as far as settling looks at it.
  datatype Parsed = BadJson | NullJson | Value(ok: bool)

  datatype Effect =
    | Handled(id: string, serialized: string)
    | Resolved(id: string)
    | Rejected(id: string)
    | Extended(id: string)
    | Sent(id: string, attempt: Attempt, op: Option<Op>)

  datatype State = State(
    used: map<string, bool>,
    pendings: map<string, Pending>,
    chunks: map<string, Chunks>,
    jobs: map<(string, Attempt), Stage>,
    resends: nat,
    effects: seq<Effect>)

  const INITIAL := State(map[], map[], map[], map[], 0, [])

  // A chunk frame as it arrives; None is a field of the wrong type.
  datatype ChunkFrame = ChunkFrame(index: Option<int>, count: Option<int>, data: Option<string>)

  datatype Event =
    | Dispatch(id: string, claimStep: bool)
    | Signed(id: string, attempt: Attempt, minted: Op)
    | SendFails(id: string, attempt: Attempt)
    | Result(id: string, serialized: string)
    | Chunk(id: string, frame: ChunkFrame)
    | Mismatch(id: string)
    | PendingNotice(id: string)
    | ReauthorizeNotice(id: string)
    | Claimed(id: string, k: nat)
    | ResendTurn(id: string, expired: bool)
    | Timeout(id: string)
    | Suspend
    | RejectEach(ids: seq<string>)

  // ----- Settling ----------------------------------------------------------------------

  function ClearChunks(s: State, id: string): State {
    s.(chunks := s.chunks - {id})
  }

  // rejectPendingAction
  function Reject(s: State, id: string): State {
    var c := ClearChunks(s, id);
    if id !in s.pendings then c else c.(pendings := s.pendings - {id}, effects := s.effects + [Rejected(id)])
  }

  // The promise's fate under settlePendingAction. A null result throws on `result.ok` after
  // the pending action is gone, so its promise is left unsettled.
  function Verdict(id: string, parsed: Parsed): seq<Effect> {
    match parsed
    case Value(ok) => [if ok then Resolved(id) else Rejected(id)]
    case _ => []
  }

  // settlePendingAction
  function Settle(s: State, id: string, parsed: Parsed): State {
    if id !in s.pendings then s
    else ClearChunks(s, id).(pendings := s.pendings - {id}, effects := s.effects + Verdict(id, parsed))
  }

  // handleRemoteActionResult
  function HandleResult(s: State, id: string, serialized: string, parsed: Parsed): State {
    Settle(ClearChunks(s, id).(effects := s.effects + [Handled(id, serialized)]), id, parsed)
  }

  function Extend(s: State, id: string): State {
    if id !in s.pendings then s
    else s.(pendings := s.pendings[id := s.pendings[id].(armed := true)], effects := s.effects + [Extended(id)])
  }

  // ----- Chunks ------------------------------------------------------------------------

  predicate Malformed(f: ChunkFrame) {
    f.index.None? || f.count.None? || f.index.value < 0 || f.count.value <= 0
    || f.index.value >= f.count.value || f.data.None?
  }

  function NoChunks(count: nat): Chunks {
    Chunks(count, seq(count, _ => None), 0)
  }

  datatype Reassembled = Whole(serialized: string) | Missing(position: nat)

  // reassembleRemoteActionResultChunks, up to JSON.parse.
  function Reassemble(slots: seq<Option<string>>): Reassembled {
    if slots == [] then Whole("")
    else match Reassemble(slots[..|slots| - 1])
      case Missing(k) => Missing(k)
      case Whole(front) => match slots[|slots| - 1]
        case None => Missing(|slots|)
        case Some(text) => Whole(front + text)
  }

  // The slots a chunk frame lands in: those held for the id, or new ones.
  function HeldChunks(s: State, id: string, count: nat): Chunks {
    if id in s.chunks then s.chunks[id] else NoChunks(count)
  }

  predicate Advances(held: Chunks, index: nat)
    requires index < |held.slots|
  {
    held.slots[index].None?
  }

  function Filling(held: Chunks, index: nat, data: string): Chunks
    requires index < |held.slots|
  {
    Chunks(
      held.chunkCount,
      held.slots[index := Some(data)],
      held.receivedCount + if Advances(held, index) then 1 else 0)
  }

  // The chunk is kept; one that advances the transfer restarts the deadline.
  function StoreChunk(s: State, id: string, held: Chunks, index: nat, data: string): State
    requires index < |held.slots|
  {
    var stored := s.(chunks := s.chunks[id := Filling(held, index, data)]);
    if Advances(held, index) then Extend(stored, id) else stored
  }

  // Every slot is counted: reassemble, parse and handle, or reject.
  function FinishChunks(s: State, id: string, slots: seq<Option<string>>, parse: string -> Parsed): State {
    var cleared := ClearChunks(s, id);
    match Reassemble(slots)
    case Missing(_) => Reject(cleared, id)
    case Whole(serialized) =>
      if parse(serialized).BadJson? then Reject(cleared, id)
      else HandleResult(cleared, id, serialized, parse(serialized))
  }

  // handleRemoteActionResultChunk
  function HandleChunk(s: State, id: string, f: ChunkFrame, parse: string -> Parsed): State
    requires ChunksFit(s)
  {
    if id !in s.pendings then ClearChunks(s, id)
    else if Malformed(f) then Reject(s, id)
    else
      var held := HeldChunks(s, id, f.count.value);
      if held.chunkCount != f.count.value then Reject(s.(chunks := s.chunks[id := held]), id)
      else
        var filled := Filling(held, f.index.value, f.data.value);
        var extended := StoreChunk(s, id, held, f.index.value, f.data.value);
        if filled.receivedCount != f.count.value then extended else FinishChunks(extended, id, filled.slots, parse)
  }

  predicate ChunksFit(s: State) {
    forall id :: id in s.chunks ==> |s.chunks[id].slots| == s.chunks[id].chunkCount
  }

  // ----- Sending -----------------------------------------------------------------------

  // sendRemoteActionFrame up to its first await.
  function BeginSend(s: State, id: string, attempt: Attempt, claimStep: bool): State {
    s.(jobs := s.jobs[(id, attempt) :=
      if claimStep then SigningClaimStep else Signing(if id in s.pendings then s.pendings[id].op else None)])
  }

  // The frame is signed and sent; the pending action learns its operation.
  function CompleteSend(s: State, id: string, attempt: Attempt, minted: Op): State
    requires (id, attempt) in s.jobs && !s.jobs[(id, attempt)].Claiming?
  {
    var stage := s.jobs[(id, attempt)];
    var done := s.(jobs := s.jobs - {(id, attempt)});
    match stage
    case SigningClaimStep => done.(effects := s.effects + [Sent(id, attempt, None)])
    case Signing(held) =>
      var op := if held.Some? then held.value else minted;
      var sent := done.(effects := s.effects + [Sent(id, attempt, Some(op))]);
      var noted :=
        if id in s.pendings && s.pendings[id].op.None? then
          sent.(pendings := s.pendings[id := s.pendings[id].(op := Some(op))])
        else sent;
      if attempt.First? then noted else Extend(noted, id)
  }

  function FailSend(s: State, id: string, attempt: Attempt): State
    requires (id, attempt) in s.jobs
  {
    var done := s.(jobs := s.jobs - {(id, attempt)});
    if attempt.First? then ClearChunks(done, id).(pendings := s.pendings - {id}) else Reject(done, id)
  }

  // reauthorizePendingAction up to ensureRemoteClaim.
  function Reauthorize(s: State, id: string): State {
    if id !in s.pendings || s.pendings[id].claimStep then s
    else if s.pendings[id].reauthorizations >= MAX_REAUTHORIZATIONS then Reject(s, id)
    else
      var k := s.pendings[id].reauthorizations + 1;
      s.(
        pendings := s.pendings[id := s.pendings[id].(reauthorizations := k)],
        jobs := s.jobs[(id, Reauth(k)) := Claiming])
  }

  // ...and after it.
  function ClaimArrived(s: State, id: string, k: nat): State
    requires (id, Reauth(k)) in s.jobs
  {
    if id !in s.pendings then s.(jobs := s.jobs - {(id, Reauth(k))})
    else BeginSend(s, id, Reauth(k), false)
  }

  // One action's turn in resendPendingActions. The list was taken before the first await, so
  // the action may have been settled since; `expired` is what its listed record says, which
  // can be true only of one that was sent.
  function TakeResendTurn(s: State, id: string, expired: bool): State {
    if id !in s.used || s.used[id] then s
    else if expired && (id in s.pendings ==> s.pendings[id].op.Some?) then Reject(s, id)
    else BeginSend(s, id, Resend(s.resends), false).(resends := s.resends + 1)
  }

  // suspendPendingActionDeadlines
  function Disarm(s: State): State {
    s.(pendings := map id | id in s.pendings :: s.pendings[id].(armed := false))
  }

  function RejectAll(s: State, ids: seq<string>): State {
    if ids == [] then s else Reject(RejectAll(s, ids[..|ids| - 1]), ids[|ids| - 1])
  }

  function Step(s: State, e: Event, parse: string -> Parsed): State
    requires ChunksFit(s)
  {
    match e
    case Dispatch(id, claimStep) =>
      if id in s.used then s
      else
        BeginSend(
          s.(used := s.used[id := claimStep], pendings := s.pendings[id := Pending(claimStep, None, 0, true)]),
          id, First, claimStep)
    case Signed(id, attempt, minted) =>
      if (id, attempt) in s.jobs && !s.jobs[(id, attempt)].Claiming? then CompleteSend(s, id, attempt, minted) else s
    case SendFails(id, attempt) => if (id, attempt) in s.jobs then FailSend(s, id, attempt) else s
    case Result(id, serialized) =>
      if parse(serialized).BadJson? then s else HandleResult(s, id, serialized, parse(serialized))
    case Chunk(id, frame) => HandleChunk(s, id, frame, parse)
    case Mismatch(id) => Reject(s, id)
    case PendingNotice(id) => Extend(s, id)
    case ReauthorizeNotice(id) => Reauthorize(s, id)
    case Claimed(id, k) =>
      if (id, Reauth(k)) in s.jobs && s.jobs[(id, Reauth(k))].Claiming? then ClaimArrived(s, id, k) else s
    case ResendTurn(id, expired) => TakeResendTurn(s, id, expired)
    case Timeout(id) => if id in s.pendings && s.pendings[id].armed then Reject(s, id) else s
    case Suspend => Disarm(s)
    case RejectEach(ids) => RejectAll(s, ids)
  }

  // ----- What every event keeps --------------------------------------------------------

  function Filled(slots: seq<Option<string>>): (n: nat)
    ensures n <= |slots|
  {
    if slots == [] then 0
    else Filled(slots[..|slots| - 1]) + if slots[|slots| - 1].Some? then 1 else 0
  }

  // receivedCount is the number of filled slots, and some slot is still empty.
  predicate Counted(c: Chunks) {
    |c.slots| == c.chunkCount && c.receivedCount == Filled(c.slots) < c.chunkCount
  }

  predicate ChunkInv(s: State) {
    s.chunks.Keys <= s.pendings.Keys && forall id :: id in s.chunks ==> Counted(s.chunks[id])
  }

  predicate SettlesPromise(e: Effect, id: string) {
    (e.Resolved? || e.Rejected?) && e.id == id
  }

  // Only actions that were dispatched are pending; a settled one is not; none settles twice.
  predicate PromiseInv(s: State) {
    && s.pendings.Keys <= s.used.Keys
    && (forall i :: 0 <= i < |s.effects| && (s.effects[i].Resolved? || s.effects[i].Rejected?) ==>
      s.effects[i].id in s.used && s.effects[i].id !in s.pendings)
    && (forall i, j :: 0 <= i < j < |s.effects| && (s.effects[i].Resolved? || s.effects[i].Rejected?) ==>
      !SettlesPromise(s.effects[j], s.effects[i].id))
  }

  // The k-th re-authorization of an action has been asked for.
  predicate Begun(s: State, id: string, k: nat) {
    && id in s.used && 1 <= k <= MAX_REAUTHORIZATIONS
    && (id in s.pendings ==> k <= s.pendings[id].reauthorizations)
  }

  // The k-th re-authorization is one job, then at most one frame.
  ghost predicate ReauthInv(s: State) {
    && (forall id :: id in s.pendings ==> s.pendings[id].reauthorizations <= MAX_REAUTHORIZATIONS)
    && (forall id, k :: (id, Reauth(k)) in s.jobs ==> Begun(s, id, k))
    && (forall i :: 0 <= i < |s.effects| && s.effects[i].Sent? && s.effects[i].attempt.Reauth? ==>
      var id, k := s.effects[i].id, s.effects[i].attempt.k;
      Begun(s, id, k) && (id, Reauth(k)) !in s.jobs)
    && (forall i, j :: 0 <= i < j < |s.effects| && s.effects[i].Sent? && s.effects[i].attempt.Reauth? ==>
      !(s.effects[j].Sent? && s.effects[j].id == s.effects[i].id && s.effects[j].attempt == s.effects[i].attempt))
  }

  lemma {:induction false} FilledUpdate(slots: seq<Option<string>>, index: nat, data: string)
    requires index < |slots|
    ensures Filled(slots[index := Some(data)]) == Filled(slots) + if slots[index].None? then 1 else 0
  {
    var updated := slots[index := Some(data)];
    if index == |slots| - 1 {
      assert updated[..|slots| - 1] == slots[..|slots| - 1];
    } else {
      FilledUpdate(slots[..|slots| - 1], index, data);
      assert updated[..|slots| - 1] == slots[..|slots| - 1][index := Some(data)];
    }
  }

  lemma {:induction false} NothingFilled(count: nat)
    ensures Filled(NoChunks(count).slots) == 0
  {
    if count > 0 {
      NothingFilled(count - 1);
      assert NoChunks(count).slots[..count - 1] == NoChunks(count - 1).slots;
    }
  }

  // Every slot filled: reassembly finds none missing.
  lemma {:induction false} FullReassembles(slots: seq<Option<string>>)
    ensures Filled(slots) == |slots| <==> forall i :: 0 <= i < |slots| ==> slots[i].Some?
    ensures Reassemble(slots).Whole? <==> Filled(slots) == |slots|
  {
    if slots != [] {
      FullReassembles(slots[..|slots| - 1]);
    }
  }

  lemma HeldIsCounted(s: State, id: string, count: nat)
    requires ChunkInv(s) && count > 0
    ensures Counted(HeldChunks(s, id, count))
  {
    NothingFilled(count);
  }

  // In every state the invariant allows, the "chunk is missing" error cannot be reached.
  lemma MissingIsUnreachable(s: State, id: string, f: ChunkFrame)
    requires ChunkInv(s) && !Malformed(f)
    ensures var held := HeldChunks(s, id, f.count.value);
      held.chunkCount == f.count.value ==>
        var filled := Filling(held, f.index.value, f.data.value);
        && filled.receivedCount == Filled(filled.slots) <= f.count.value
        && (filled.receivedCount == f.count.value ==> Reassemble(filled.slots).Whole?)
  {
    var held := HeldChunks(s, id, f.count.value);
    HeldIsCounted(s, id, f.count.value);
    if held.chunkCount == f.count.value {
      FilledUpdate(held.slots, f.index.value, f.data.value);
      FullReassembles(held.slots[f.index.value := Some(f.data.value)]);
    }
  }
}
