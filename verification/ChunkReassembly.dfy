// A chunked answer is put back together: whatever the order of its pieces, however often
// each is repeated, and whatever happens to other actions in between, it is handled once,
// as the text that was split, when the last missing piece arrives.

module ChunkReassembly {
  import opened Options
  import opened RemoteActions
  import opened RemoteActionRuns

  function Concat(pieces: seq<string>): string {
    if pieces == [] then "" else Concat(pieces[..|pieces| - 1]) + pieces[|pieces| - 1]
  }

  function PieceFrame(pieces: seq<string>, k: nat): ChunkFrame
    requires k < |pieces|
  {
    ChunkFrame(Some(k), Some(|pieces|), Some(pieces[k]))
  }

  // An event about this action: its frames, its answers, its deadline, its sends.
  predicate Touches(e: Event, id: string) {
    match e
    case Suspend => false
    case RejectEach(ids) => id in ids
    case _ => e.id == id
  }

  predicate IsPiece(e: Event, id: string, pieces: seq<string>) {
    e.Chunk? && e.id == id && exists k :: 0 <= k < |pieces| && e.frame == PieceFrame(pieces, k)
  }

  // A run that brings this action nothing but pieces of its answer.
  predicate BringsPieces(events: seq<Event>, id: string, pieces: seq<string>) {
    forall i :: 0 <= i < |events| ==> IsPiece(events[i], id, pieces) || !Touches(events[i], id)
  }

  function Received(events: seq<Event>, id: string, n: nat): set<nat> {
    set k: nat | k < n && Brings(events, id, k)
  }

  function BroughtBy(e: Event, id: string, n: nat): set<nat> {
    set k: nat | k < n && e.Chunk? && e.id == id && e.frame.index == Some(k)
  }

  predicate Brings(events: seq<Event>, id: string, k: nat) {
    exists i :: 0 <= i < |events| && events[i].Chunk? && events[i].id == id && events[i].frame.index == Some(k)
  }

  function Below(n: nat): (r: set<nat>)
    ensures forall k: nat :: k in r <==> k < n
  {
    if n == 0 then {} else Below(n - 1) + {n - 1}
  }

  function EffectsOf(effects: seq<Effect>, id: string): seq<Effect> {
    if effects == [] then []
    else
      var last := effects[|effects| - 1];
      EffectsOf(effects[..|effects| - 1], id) + if last.id == id then [last] else []
  }

  lemma {:induction false} EffectsOfAppend(effects: seq<Effect>, more: seq<Effect>, id: string)
    ensures EffectsOf(effects + more, id) == EffectsOf(effects, id) + EffectsOf(more, id)
  {
    if more == [] {
      assert effects + more == effects;
    } else {
      EffectsOfAppend(effects, more[..|more| - 1], id);
      assert (effects + more)[..|effects + more| - 1] == effects + more[..|more| - 1];
    }
  }

  function Extensions(id: string, n: nat): seq<Effect> {
    seq(n, _ => Extended(id))
  }

  // What the action's promise and caller see of a complete answer.
  function Answered(id: string, serialized: string, parse: string -> Parsed): seq<Effect> {
    if parse(serialized).BadJson? then [Rejected(id)]
    else [Handled(id, serialized)] + Verdict(id, parse(serialized))
  }

  // The pieces in got have arrived and no others.
  ghost predicate Partial(s: State, t: State, id: string, pieces: seq<string>, got: set<nat>) {
    && id in t.pendings
    && (id in t.chunks <==> got != {})
    && (got != {} ==> Holds(t.chunks[id], pieces, got))
    && EffectsOf(t.effects, id) == EffectsOf(s.effects, id) + Extensions(id, |got|)
  }

  ghost predicate Holds(c: Chunks, pieces: seq<string>, got: set<nat>) {
    && c.chunkCount == |c.slots| == |pieces| && c.receivedCount == |got|
    && forall k: nat :: k < |pieces| ==> c.slots[k] == if k in got then Some(pieces[k]) else None
  }

  ghost predicate Complete(s: State, t: State, id: string, pieces: seq<string>, parse: string -> Parsed) {
    && id !in t.pendings && id !in t.chunks
    && EffectsOf(t.effects, id)
      == EffectsOf(s.effects, id) + Extensions(id, |pieces|) + Answered(id, Concat(pieces), parse)
  }

  // ----- Other actions' events ---------------------------------------------------------

  // The same to this action, up to whether its deadline is armed.
  ghost predicate SameTo(t: State, u: State, id: string) {
    && (id in u.pendings <==> id in t.pendings)
    && (id in u.chunks <==> id in t.chunks) && (id in t.chunks ==> u.chunks[id] == t.chunks[id])
    && EffectsOf(u.effects, id) == EffectsOf(t.effects, id)
  }

  lemma OtherEffect(effects: seq<Effect>, e: Effect, id: string)
    requires e.id != id
    ensures EffectsOf(effects + [e], id) == EffectsOf(effects, id)
  {
  }

  lemma OtherReject(t: State, at: string, id: string)
    requires at != id
    ensures SameTo(t, Reject(t, at), id)
  {
  }

  lemma OtherExtend(t: State, at: string, id: string)
    requires at != id
    ensures SameTo(t, Extend(t, at), id)
  {
  }

  lemma OtherResult(t: State, at: string, serialized: string, parsed: Parsed, id: string)
    requires at != id
    ensures SameTo(t, HandleResult(t, at, serialized, parsed), id)
  {
    var handled := t.effects + [Handled(at, serialized)];
    OtherEffect(t.effects, Handled(at, serialized), id);
    EffectsOfAppend(handled, Verdict(at, parsed), id);
  }

  lemma {:induction false} OtherRejects(t: State, ids: seq<string>, id: string)
    requires id !in ids
    ensures SameTo(t, RejectAll(t, ids), id)
  {
    if ids != [] {
      OtherRejects(t, ids[..|ids| - 1], id);
      OtherReject(RejectAll(t, ids[..|ids| - 1]), ids[|ids| - 1], id);
    }
  }

  lemma OtherChunk(t: State, at: string, f: ChunkFrame, parse: string -> Parsed, id: string)
    requires ChunksFit(t) && at != id
    ensures SameTo(t, HandleChunk(t, at, f, parse), id)
  {
    OtherReject(t, at, id);
    if at in t.pendings && !Malformed(f) {
      var held := HeldChunks(t, at, f.count.value);
      if held.chunkCount != f.count.value {
        OtherReject(t.(chunks := t.chunks[at := held]), at, id);
      } else {
        OtherStore(t, at, held, f.index.value, f.data.value, id);
        OtherFinish(StoreChunk(t, at, held, f.index.value, f.data.value), at,
          Filling(held, f.index.value, f.data.value).slots, parse, id);
      }
    }
  }

  lemma OtherStore(t: State, at: string, held: Chunks, index: nat, data: string, id: string)
    requires at != id && index < |held.slots|
    ensures SameTo(t, StoreChunk(t, at, held, index, data), id)
  {
  }

  lemma OtherFinish(t: State, at: string, slots: seq<Option<string>>, parse: string -> Parsed, id: string)
    requires at != id
    ensures SameTo(t, FinishChunks(t, at, slots, parse), id)
  {
    OtherReject(ClearChunks(t, at), at, id);
    if Reassemble(slots).Whole? {
      OtherResult(ClearChunks(t, at), at, Reassemble(slots).serialized, parse(Reassemble(slots).serialized), id);
    }
  }

  lemma OtherSend(t: State, at: string, attempt: Attempt, minted: Op, id: string)
    requires at != id && (at, attempt) in t.jobs && !t.jobs[(at, attempt)].Claiming?
    ensures SameTo(t, CompleteSend(t, at, attempt, minted), id)
  {
    match t.jobs[(at, attempt)]
    case SigningClaimStep => OtherEffect(t.effects, Sent(at, attempt, None), id);
    case Signing(held) => OtherSigned(t, at, attempt, minted, id);
  }

  lemma OtherSigned(t: State, at: string, attempt: Attempt, minted: Op, id: string)
    requires at != id && (at, attempt) in t.jobs && t.jobs[(at, attempt)].Signing?
    ensures SameTo(t, CompleteSend(t, at, attempt, minted), id)
  {
  }

  // Nothing that happens to other actions reaches this one.
  lemma OtherEventsStayAway(t: State, e: Event, parse: string -> Parsed, id: string)
    requires Inv(t) && !Touches(e, id)
    ensures SameTo(t, Step(t, e, parse), id)
  {
    if e.Signed? || e.SendFails? || e.ReauthorizeNotice? || e.ResendTurn? || e.Claimed? || e.Dispatch? {
      OtherSendsStayAway(t, e, parse, id);
    } else {
      OtherAnswersStayAway(t, e, parse, id);
    }
  }

  lemma OtherSendsStayAway(t: State, e: Event, parse: string -> Parsed, id: string)
    requires Inv(t) && !Touches(e, id)
    requires e.Signed? || e.SendFails? || e.ReauthorizeNotice? || e.ResendTurn? || e.Claimed? || e.Dispatch?
    ensures SameTo(t, Step(t, e, parse), id)
  {
    match e
    case Signed(at, attempt, minted) =>
      if (at, attempt) in t.jobs && !t.jobs[(at, attempt)].Claiming? { OtherSend(t, at, attempt, minted, id); }
    case SendFails(at, attempt) =>
      if (at, attempt) in t.jobs { OtherReject(t.(jobs := t.jobs - {(at, attempt)}), at, id); }
    case ReauthorizeNotice(at) => OtherReauthorize(t, at, id);
    case ResendTurn(at, _) => OtherReject(t, at, id);
    case Dispatch(at, claimStep) => OtherDispatch(t, at, claimStep, parse, id);
    case Claimed(at, k) =>
  }

  lemma OtherReauthorize(t: State, at: string, id: string)
    requires at != id
    ensures SameTo(t, Reauthorize(t, at), id)
  {
  }

  lemma OtherDispatch(t: State, at: string, claimStep: bool, parse: string -> Parsed, id: string)
    requires ChunksFit(t) && at != id
    ensures SameTo(t, Step(t, Dispatch(at, claimStep), parse), id)
  {
  }

  lemma OtherAnswersStayAway(t: State, e: Event, parse: string -> Parsed, id: string)
    requires Inv(t) && !Touches(e, id)
    requires e.Result? || e.Chunk? || e.Mismatch? || e.PendingNotice? || e.Timeout? || e.Suspend? || e.RejectEach?
    ensures SameTo(t, Step(t, e, parse), id)
  {
    match e
    case Result(at, serialized) => OtherResult(t, at, serialized, parse(serialized), id);
    case Chunk(at, frame) => OtherChunk(t, at, frame, parse, id);
    case Mismatch(at) => OtherReject(t, at, id);
    case PendingNotice(at) => OtherExtend(t, at, id);
    case Timeout(at) => OtherReject(t, at, id);
    case RejectEach(ids) => OtherRejects(t, ids, id);
    case _ =>
  }

  // ----- One piece ---------------------------------------------------------------------

  lemma {:induction false} BelowSize(n: nat)
    ensures |Below(n)| == n
  {
    if n > 0 {
      BelowSize(n - 1);
      assert Below(n) == Below(n - 1) + {n - 1};
    }
  }

  lemma AllOrFewer(got: set<nat>, n: nat)
    requires got <= Below(n)
    ensures |got| <= n && (|got| == n <==> got == Below(n))
  {
    BelowSize(n);
    var rest := Below(n) - got;
    assert Below(n) == got + rest && got !! rest;
    assert |Below(n)| == |got| + |rest|;
    if rest == {} { assert got == Below(n); }
  }

  lemma {:induction false} ReassemblesPieces(slots: seq<Option<string>>, pieces: seq<string>)
    requires |slots| == |pieces| && forall k :: 0 <= k < |pieces| ==> slots[k] == Some(pieces[k])
    ensures Reassemble(slots) == Whole(Concat(pieces))
  {
    if slots != [] {
      ReassemblesPieces(slots[..|slots| - 1], pieces[..|pieces| - 1]);
    }
  }

  lemma PieceFills(held: Chunks, pieces: seq<string>, got: set<nat>, k: nat)
    requires k < |pieces| && got <= Below(|pieces|) && Holds(held, pieces, got)
    ensures Advances(held, k) <==> k !in got
    ensures Holds(Filling(held, k, pieces[k]), pieces, got + {k})
  {
    var now := got + {k};
    assert |now| == |got| + if k in got then 0 else 1 by {
      if k in got { assert now == got; }
    }
    forall m: nat | m < |pieces|
      ensures Filling(held, k, pieces[k]).slots[m] == if m in now then Some(pieces[m]) else None
    {
    }
  }

  // The action's slots before the piece: fresh ones hold no piece.
  lemma HeldHolds(s: State, t: State, id: string, pieces: seq<string>, got: set<nat>)
    requires pieces != [] && Partial(s, t, id, pieces, got)
    ensures Holds(HeldChunks(t, id, |pieces|), pieces, got)
  {
  }

  lemma HandlePieceIs(t: State, id: string, pieces: seq<string>, k: nat, held: Chunks, parse: string -> Parsed)
    requires ChunksFit(t) && k < |pieces| && id in t.pendings
    requires held == HeldChunks(t, id, |pieces|) && held.chunkCount == |pieces|
    ensures HandleChunk(t, id, PieceFrame(pieces, k), parse) ==
      var stored := StoreChunk(t, id, held, k, pieces[k]);
      if Filling(held, k, pieces[k]).receivedCount != |pieces| then stored
      else FinishChunks(stored, id, Filling(held, k, pieces[k]).slots, parse)
  {
  }

  lemma OneMorePiece(s: State, t: State, id: string, pieces: seq<string>, got: set<nat>, k: nat, parse: string -> Parsed)
    requires Inv(t) && k < |pieces| && got < Below(|pieces|) && Partial(s, t, id, pieces, got)
    ensures var u := HandleChunk(t, id, PieceFrame(pieces, k), parse);
      if got + {k} == Below(|pieces|) then Complete(s, u, id, pieces, parse) else Partial(s, u, id, pieces, got + {k})
  {
    var held := HeldChunks(t, id, |pieces|);
    HeldHolds(s, t, id, pieces, got);
    PieceFills(held, pieces, got, k);
    AllOrFewer(got + {k}, |pieces|);
    ExtensionCounted(s, t, id, got, k);
    HandlePieceIs(t, id, pieces, k, held, parse);
    StoredPiece(s, t, id, pieces, got, k, held);
    if got + {k} == Below(|pieces|) {
      FullTransfer(s, StoreChunk(t, id, held, k, pieces[k]), id, Filling(held, k, pieces[k]), pieces, parse);
    }
  }

  lemma FullTransfer(s: State, t: State, id: string, filled: Chunks, pieces: seq<string>, parse: string -> Parsed)
    requires Partial(s, t, id, pieces, Below(|pieces|)) && Holds(filled, pieces, Below(|pieces|))
    ensures Complete(s, FinishChunks(t, id, filled.slots, parse), id, pieces, parse)
  {
    BelowSize(|pieces|);
    ReassemblesPieces(filled.slots, pieces);
    LastPiece(s, t, id, filled.slots, pieces, parse);
  }

  lemma StoredPiece(s: State, t: State, id: string, pieces: seq<string>, got: set<nat>, k: nat, held: Chunks)
    requires k < |pieces| && got <= Below(|pieces|) && id in t.pendings && Holds(held, pieces, got)
    requires EffectsOf(t.effects + (if k in got then [] else [Extended(id)]), id)
      == EffectsOf(s.effects, id) + Extensions(id, |got + {k}|)
    ensures Partial(s, StoreChunk(t, id, held, k, pieces[k]), id, pieces, got + {k})
  {
    PieceFills(held, pieces, got, k);
    assert t.effects + [] == t.effects;
    assert k in got + {k};
  }

  // At most one deadline extension for each piece.
  lemma ExtensionCounted(s: State, t: State, id: string, got: set<nat>, k: nat)
    requires EffectsOf(t.effects, id) == EffectsOf(s.effects, id) + Extensions(id, |got|)
    ensures EffectsOf(t.effects + (if k in got then [] else [Extended(id)]), id)
      == EffectsOf(s.effects, id) + Extensions(id, |got + {k}|)
  {
    if k in got {
      assert got + {k} == got && t.effects + [] == t.effects;
    } else {
      EffectsOfAppend(t.effects, [Extended(id)], id);
      assert EffectsOf([Extended(id)], id) == [Extended(id)];
      assert |got + {k}| == |got| + 1;
      assert Extensions(id, |got| + 1) == Extensions(id, |got|) + [Extended(id)];
    }
  }

  lemma FinishAnswers(t: State, id: string, slots: seq<Option<string>>, whole: string, parse: string -> Parsed)
    requires id in t.pendings && Reassemble(slots) == Whole(whole)
    ensures var u := FinishChunks(t, id, slots, parse);
      id !in u.pendings && id !in u.chunks && u.effects == t.effects + Answered(id, whole, parse)
  {
  }

  lemma LastPiece(
    s: State, t: State, id: string, slots: seq<Option<string>>, pieces: seq<string>, parse: string -> Parsed)
    requires id in t.pendings && Reassemble(slots) == Whole(Concat(pieces))
    requires EffectsOf(t.effects, id) == EffectsOf(s.effects, id) + Extensions(id, |pieces|)
    ensures Complete(s, FinishChunks(t, id, slots, parse), id, pieces, parse)
  {
    FinishAnswers(t, id, slots, Concat(pieces), parse);
    AnswerIsOwn(id, Concat(pieces), parse);
    OwnEffectsAppend(t.effects, Answered(id, Concat(pieces), parse), id);
  }

  lemma AnswerIsOwn(id: string, serialized: string, parse: string -> Parsed)
    ensures forall i :: 0 <= i < |Answered(id, serialized, parse)| ==> Answered(id, serialized, parse)[i].id == id
  {
  }

  lemma OwnEffectsAppend(effects: seq<Effect>, own: seq<Effect>, id: string)
    requires forall i :: 0 <= i < |own| ==> own[i].id == id
    ensures EffectsOf(effects + own, id) == EffectsOf(effects, id) + own
  {
    EffectsOfAppend(effects, own, id);
    OwnEffects(own, id);
  }

  lemma {:induction false} OwnEffects(effects: seq<Effect>, id: string)
    requires forall i :: 0 <= i < |effects| ==> effects[i].id == id
    ensures EffectsOf(effects, id) == effects
  {
    if effects != [] {
      OwnEffects(effects[..|effects| - 1], id);
    }
  }

  // ----- The whole answer --------------------------------------------------------------

  lemma ReceivedGrows(events: seq<Event>, id: string, n: nat)
    requires events != []
    ensures Received(events, id, n)
      == Received(events[..|events| - 1], id, n) + BroughtBy(events[|events| - 1], id, n)
  {
  }

  // For every split, every order and every repetition: until all pieces are in, the count is
  // the number of distinct pieces received and nothing is handled; once they are, the answer
  // has been handled exactly once, whole, and later repeats change nothing. The deadline was
  // extended once per distinct piece.
  lemma {:induction false} ReassemblyIsExact(
    s: State, events: seq<Event>, id: string, pieces: seq<string>, parse: string -> Parsed)
    requires Inv(s) && id in s.pendings && id !in s.chunks
    requires pieces != [] && BringsPieces(events, id, pieces)
    ensures var t, got := Run(s, events, parse), Received(events, id, |pieces|);
      if got == Below(|pieces|) then Complete(s, t, id, pieces, parse) else Partial(s, t, id, pieces, got)
  {
    if events == [] {
      assert Received(events, id, |pieces|) == {};
      assert 0 in Below(|pieces|);
      assert EffectsOf(s.effects, id) + Extensions(id, 0) == EffectsOf(s.effects, id);
    } else {
      var before, e := events[..|events| - 1], events[|events| - 1];
      ReassemblyIsExact(s, before, id, pieces, parse);
      ReceivedGrows(events, id, |pieces|);
      assert IsPiece(e, id, pieces) || !Touches(e, id);
      NextEvent(s, Run(s, before, parse), e, id, pieces, Received(before, id, |pieces|), parse);
    }
  }

  // Where the pieces in got leave the action.
  ghost predicate Progress(s: State, t: State, id: string, pieces: seq<string>, got: set<nat>, parse: string -> Parsed) {
    if got == Below(|pieces|) then Complete(s, t, id, pieces, parse) else Partial(s, t, id, pieces, got)
  }

  lemma NextEvent(
    s: State, t: State, e: Event, id: string, pieces: seq<string>, got: set<nat>, parse: string -> Parsed)
    requires Inv(t) && pieces != [] && got <= Below(|pieces|) && Progress(s, t, id, pieces, got, parse)
    requires IsPiece(e, id, pieces) || !Touches(e, id)
    ensures Progress(s, Step(t, e, parse), id, pieces, got + BroughtBy(e, id, |pieces|), parse)
  {
    if !Touches(e, id) {
      BringsNothing(e, id, |pieces|);
      assert got + {} == got;
      OtherEvent(s, t, e, id, pieces, got, parse);
    } else {
      var k :| 0 <= k < |pieces| && e.frame == PieceFrame(pieces, k);
      BringsOne(e, id, pieces, k);
      OwnPiece(s, t, id, pieces, got, k, parse);
    }
  }

  lemma BringsNothing(e: Event, id: string, n: nat)
    requires !Touches(e, id)
    ensures BroughtBy(e, id, n) == {}
  {
  }

  lemma BringsOne(e: Event, id: string, pieces: seq<string>, k: nat)
    requires k < |pieces| && e == Chunk(id, PieceFrame(pieces, k))
    ensures BroughtBy(e, id, |pieces|) == {k}
  {
  }

  lemma OwnPiece(s: State, t: State, id: string, pieces: seq<string>, got: set<nat>, k: nat, parse: string -> Parsed)
    requires Inv(t) && k < |pieces| && got <= Below(|pieces|) && Progress(s, t, id, pieces, got, parse)
    ensures Progress(s, HandleChunk(t, id, PieceFrame(pieces, k), parse), id, pieces, got + {k}, parse)
  {
    if got == Below(|pieces|) {
      assert got + {k} == got;
      LateRepeat(s, t, id, pieces, k, parse);
    } else {
      OneMorePiece(s, t, id, pieces, got, k, parse);
    }
  }

  lemma OtherEvent(
    s: State, t: State, e: Event, id: string, pieces: seq<string>, got: set<nat>, parse: string -> Parsed)
    requires Inv(t) && Progress(s, t, id, pieces, got, parse) && !Touches(e, id)
    ensures Progress(s, Step(t, e, parse), id, pieces, got, parse)
  {
    OtherEventsStayAway(t, e, parse, id);
  }

  lemma LateRepeat(s: State, t: State, id: string, pieces: seq<string>, k: nat, parse: string -> Parsed)
    requires Inv(t) && k < |pieces| && Complete(s, t, id, pieces, parse)
    ensures Complete(s, HandleChunk(t, id, PieceFrame(pieces, k), parse), id, pieces, parse)
  {
  }

  // Once all pieces are in, whatever the order and whatever happens to other actions, the answer
  // has settled the promise exactly when its text is not the JSON null: that one is handled, the
  // action forgotten, and its caller left waiting for good.
  lemma AnswerSettlesExactlyWhen(
    s: State, events: seq<Event>, id: string, pieces: seq<string>, parse: string -> Parsed)
    requires Inv(s) && id in s.pendings && id !in s.chunks
    requires pieces != [] && BringsPieces(events, id, pieces) && Received(events, id, |pieces|) == Below(|pieces|)
    ensures id !in Run(s, events, parse).pendings
    ensures Settled(Run(s, events, parse).effects, id) <==> !parse(Concat(pieces)).NullJson?
  {
    ReassemblyIsExact(s, events, id, pieces, parse);
    SettledIsOwn(s.effects, id);
    SettledIsOwn(Run(s, events, parse).effects, id);
    var answered := Answered(id, Concat(pieces), parse);
    var own := EffectsOf(s.effects, id) + Extensions(id, |pieces|);
    SettledAppend(EffectsOf(s.effects, id), Extensions(id, |pieces|), id);
    SettledAppend(own, answered, id);
    if !parse(Concat(pieces)).NullJson? {
      assert SettlesPromise(answered[|answered| - 1], id);
    }
  }

  predicate Settled(effects: seq<Effect>, id: string) {
    exists i :: 0 <= i < |effects| && SettlesPromise(effects[i], id)
  }

  lemma SettledAppend(effects: seq<Effect>, more: seq<Effect>, id: string)
    ensures Settled(effects + more, id) <==> Settled(effects, id) || Settled(more, id)
  {
    var both := effects + more;
    if Settled(effects, id) {
      var i :| 0 <= i < |effects| && SettlesPromise(effects[i], id);
      assert SettlesPromise(both[i], id);
    }
    if Settled(more, id) {
      var i :| 0 <= i < |more| && SettlesPromise(more[i], id);
      assert SettlesPromise(both[|effects| + i], id);
    }
  }

  lemma {:induction false} SettledIsOwn(effects: seq<Effect>, id: string)
    ensures Settled(effects, id) <==> Settled(EffectsOf(effects, id), id)
  {
    if effects != [] {
      var front, last := effects[..|effects| - 1], effects[|effects| - 1];
      SettledIsOwn(front, id);
      assert effects == front + [last];
      SettledAppend(front, [last], id);
      SettledAppend(EffectsOf(front, id), if last.id == id then [last] else [], id);
      assert Settled([last], id) <==> SettlesPromise([last][0], id);
    }
  }
}
