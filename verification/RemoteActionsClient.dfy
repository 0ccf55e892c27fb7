// The maps frontend/remote/actions.js keeps, changed in place by the functions it keeps them
// for. Each method is the step RemoteActions specifies.

module RemoteActionsClient {
  import opened Options
  import opened RemoteActions

  class PendingActions {
    const parse: string -> Parsed
    var used: map<string, bool>
    var pendingActions: map<string, Pending>
    var pendingActionChunks: map<string, Chunks>
    var jobs: map<(string, Attempt), Stage>
    var resends: nat
    var effects: seq<Effect>

    function View(): State
      reads this
    {
      State(used, pendingActions, pendingActionChunks, jobs, resends, effects)
    }

    constructor (parse: string -> Parsed)
      ensures this.parse == parse && View() == INITIAL
    {
      this.parse := parse;
      used, pendingActions, pendingActionChunks, jobs, resends, effects := map[], map[], map[], map[], 0, [];
    }

    method ClearPendingActionChunks(id: string)
      modifies this`pendingActionChunks
      ensures View() == ClearChunks(old(View()), id)
    {
      pendingActionChunks := pendingActionChunks - {id};
    }

    method RejectPendingAction(id: string)
      modifies this
      ensures View() == Reject(old(View()), id)
    {
      ClearPendingActionChunks(id);
      if id !in pendingActions { return; }
      pendingActions := pendingActions - {id};
      effects := effects + [Rejected(id)];
    }

    method SettlePendingAction(id: string, parsed: Parsed)
      modifies this
      ensures View() == Settle(old(View()), id, parsed)
    {
      if id !in pendingActions { return; }
      ClearPendingActionChunks(id);
      pendingActions := pendingActions - {id};
      effects := effects + Verdict(id, parsed);
    }

    method HandleRemoteActionResult(id: string, serialized: string, parsed: Parsed)
      modifies this
      ensures View() == HandleResult(old(View()), id, serialized, parsed)
    {
      ClearPendingActionChunks(id);
      effects := effects + [Handled(id, serialized)];
      SettlePendingAction(id, parsed);
    }

    method ExtendPendingActionDeadline(id: string)
      modifies this
      ensures View() == Extend(old(View()), id)
    {
      if id !in pendingActions { return; }
      pendingActions := pendingActions[id := pendingActions[id].(armed := true)];
      effects := effects + [Extended(id)];
    }

    method ReassembleRemoteActionResultChunks(slots: seq<Option<string>>) returns (result: Reassembled)
      ensures result == Reassemble(slots)
    {
      var serialized := "";
      for index := 0 to |slots|
        invariant Reassemble(slots[..index]) == Whole(serialized)
      {
        assert slots[..index + 1][..index] == slots[..index];
        if slots[index].None? {
          MissingStaysMissing(slots, index + 1);
          return Missing(index + 1);
        }
        serialized := serialized + slots[index].value;
      }
      assert slots[..|slots|] == slots;
      result := Whole(serialized);
    }

    static lemma {:induction false} MissingStaysMissing(slots: seq<Option<string>>, n: nat)
      requires n <= |slots| && Reassemble(slots[..n]).Missing?
      ensures Reassemble(slots) == Reassemble(slots[..n])
    {
      if n == |slots| {
        assert slots[..n] == slots;
      } else {
        assert slots[..|slots| - 1][..n] == slots[..n];
        MissingStaysMissing(slots[..|slots| - 1], n);
      }
    }

    method HandleRemoteActionResultChunk(id: string, f: ChunkFrame)
      requires ChunksFit(View())
      modifies this
      ensures View() == HandleChunk(old(View()), id, f, parse)
    {
      if id !in pendingActions {
        ClearPendingActionChunks(id);
        return;
      }
      if Malformed(f) {
        RejectPendingAction(id);
        return;
      }
      var chunkIndex, chunkCount := f.index.value, f.count.value;
      if id !in pendingActionChunks {
        pendingActionChunks := pendingActionChunks[id := NoChunks(chunkCount)];
      }
      var pendingChunks := pendingActionChunks[id];
      assert pendingChunks == HeldChunks(old(View()), id, chunkCount);
      if pendingChunks.chunkCount != chunkCount {
        RejectPendingAction(id);
        return;
      }
      var advancedTransfer := pendingChunks.slots[chunkIndex].None?;
      var receivedCount := pendingChunks.receivedCount;
      if advancedTransfer {
        receivedCount := receivedCount + 1;
      }
      pendingChunks := Chunks(chunkCount, pendingChunks.slots[chunkIndex := Some(f.data.value)], receivedCount);
      pendingActionChunks := pendingActionChunks[id := pendingChunks];
      if advancedTransfer {
        ExtendPendingActionDeadline(id);
      }
      assert View() == StoreChunk(old(View()), id, HeldChunks(old(View()), id, chunkCount), chunkIndex, f.data.value);
      if pendingChunks.receivedCount != chunkCount { return; }
      CompleteChunks(id, pendingChunks.slots);
    }

    method CompleteChunks(id: string, slots: seq<Option<string>>)
      modifies this
      ensures View() == FinishChunks(old(View()), id, slots, parse)
    {
      ClearPendingActionChunks(id);
      var result := ReassembleRemoteActionResultChunks(slots);
      match result
      case Missing(_) => RejectPendingAction(id);
      case Whole(serialized) =>
        var parsed := parse(serialized);
        if parsed.BadJson? { RejectPendingAction(id); } else { HandleRemoteActionResult(id, serialized, parsed); }
    }

    method SendRemoteActionFrame(id: string, attempt: Attempt, claimStep: bool)
      modifies this`jobs
      ensures View() == BeginSend(old(View()), id, attempt, claimStep)
    {
      var op := if id in pendingActions then pendingActions[id].op else None;
      jobs := jobs[(id, attempt) := if claimStep then SigningClaimStep else Signing(op)];
    }

    // ...once the frame is signed.
    method FrameSigned(id: string, attempt: Attempt, minted: Op)
      requires (id, attempt) in jobs && !jobs[(id, attempt)].Claiming?
      modifies this
      ensures View() == CompleteSend(old(View()), id, attempt, minted)
    {
      var stage := jobs[(id, attempt)];
      jobs := jobs - {(id, attempt)};
      match stage
      case SigningClaimStep =>
        effects := effects + [Sent(id, attempt, None)];
      case Signing(held) =>
        var op := if held.Some? then held.value else minted;
        effects := effects + [Sent(id, attempt, Some(op))];
        if id in pendingActions && pendingActions[id].op.None? {
          pendingActions := pendingActions[id := pendingActions[id].(op := Some(op))];
        }
        if !attempt.First? {
          ExtendPendingActionDeadline(id);
        }
    }

    method ReauthorizePendingAction(id: string)
      modifies this
      ensures View() == Reauthorize(old(View()), id)
    {
      if id !in pendingActions || pendingActions[id].claimStep { return; }
      if pendingActions[id].reauthorizations >= MAX_REAUTHORIZATIONS {
        RejectPendingAction(id);
        return;
      }
      var k := pendingActions[id].reauthorizations + 1;
      pendingActions := pendingActions[id := pendingActions[id].(reauthorizations := k)];
      jobs := jobs[(id, Reauth(k)) := Claiming];
    }

    method SuspendPendingActionDeadlines()
      modifies this`pendingActions
      ensures View() == Disarm(old(View()))
    {
      var ids := pendingActions.Keys;
      while ids != {}
        invariant pendingActions.Keys == old(pendingActions).Keys && ids <= pendingActions.Keys
        invariant forall id :: id in pendingActions ==>
          pendingActions[id] ==
            if id in ids then old(pendingActions)[id] else old(pendingActions)[id].(armed := false)
      {
        var id :| id in ids;
        ids := ids - {id};
        pendingActions := pendingActions[id := pendingActions[id].(armed := false)];
      }
    }

    method RejectPendingActions(ids: seq<string>)
      modifies this
      ensures View() == RejectAll(old(View()), ids)
    {
      for i := 0 to |ids|
        invariant View() == RejectAll(old(View()), ids[..i])
      {
        assert ids[..i + 1][..i] == ids[..i];
        RejectPendingAction(ids[i]);
      }
      assert ids[..|ids|] == ids;
    }
  }
}

// nextRequestSeq: a counter for the newest session only.
module RequestSequence {
  function Next(counters: map<string, nat>, sid: string): nat {
    (if sid in counters then counters[sid] else 0) + 1
  }

  function Counters(calls: seq<string>): map<string, nat> {
    if calls == [] then map[]
    else
      var before, sid := Counters(calls[..|calls| - 1]), calls[|calls| - 1];
      map[sid := Next(before, sid)]
  }

  // The number the i-th call is given.
  function NumberAt(calls: seq<string>, i: nat): nat
    requires i < |calls|
  {
    Next(Counters(calls[..i]), calls[i])
  }

  // A session that was replaced is never used again.
  predicate NeverReturns(calls: seq<string>) {
    forall i, j, k :: 0 <= i < j < k < |calls| && calls[i] == calls[k] ==> calls[j] == calls[i]
  }

  function Uses(calls: seq<string>, sid: string): nat {
    if calls == [] then 0 else Uses(calls[..|calls| - 1], sid) + if calls[|calls| - 1] == sid then 1 else 0
  }

  lemma {:induction false} UnusedHasNoUses(calls: seq<string>, sid: string)
    ensures Uses(calls, sid) == 0 <==> sid !in calls
  {
    if calls != [] {
      UnusedHasNoUses(calls[..|calls| - 1], sid);
      assert calls == calls[..|calls| - 1] + [calls[|calls| - 1]];
    }
  }

  // The counter holds the newest session's count, and any other session it has forgotten.
  lemma {:induction false} CountersAre(calls: seq<string>)
    requires NeverReturns(calls) && calls != []
    ensures var sid := calls[|calls| - 1]; Counters(calls) == map[sid := Uses(calls, sid)]
  {
    var before, sid := calls[..|calls| - 1], calls[|calls| - 1];
    if before != [] {
      CountersAre(before);
      assert before[|before| - 1] == sid || sid !in before;
    }
    UnusedHasNoUses(before, sid);
  }

  // Each session's calls are numbered 1, 2, 3, ...
  lemma NumbersAreConsecutive(calls: seq<string>, i: nat)
    requires NeverReturns(calls) && i < |calls|
    ensures NumberAt(calls, i) == Uses(calls[..i + 1], calls[i])
  {
    var upto := calls[..i + 1];
    assert upto[..i] == calls[..i];
    CountersAre(upto);
    assert Counters(upto) == map[calls[i] := Next(Counters(upto[..i]), calls[i])];
    assert Counters(upto)[calls[i]] == NumberAt(calls, i);
  }

  lemma {:induction false} UsesGrow(calls: seq<string>, i: nat, j: nat, sid: string)
    requires i < j <= |calls| && calls[j - 1] == sid
    ensures Uses(calls[..i], sid) < Uses(calls[..j], sid)
  {
    UsesNeverShrink(calls, i, j - 1, sid);
    assert calls[..j][..j - 1] == calls[..j - 1];
  }

  lemma {:induction false} UsesNeverShrink(calls: seq<string>, i: nat, j: nat, sid: string)
    requires i <= j <= |calls|
    ensures Uses(calls[..i], sid) <= Uses(calls[..j], sid)
  {
    if i < j {
      UsesNeverShrink(calls, i, j - 1, sid);
      assert calls[..j][..j - 1] == calls[..j - 1];
    }
  }

  predicate PairsAreDistinct(calls: seq<string>) {
    forall i, j :: 0 <= i < j < |calls| ==> calls[i] != calls[j] || NumberAt(calls, i) != NumberAt(calls, j)
  }

  // No (session, number) pair repeats exactly when no replaced session comes back.
  lemma PairsDistinctExactlyWhen(calls: seq<string>)
    ensures PairsAreDistinct(calls) <==> NeverReturns(calls)
  {
    if NeverReturns(calls) {
      forall i, j | 0 <= i < j < |calls| && calls[i] == calls[j] ensures NumberAt(calls, i) != NumberAt(calls, j) {
        NumbersAreConsecutive(calls, i);
        NumbersAreConsecutive(calls, j);
        UsesGrow(calls, i + 1, j + 1, calls[i]);
      }
    } else {
      var i, j, k :| 0 <= i < j < k < |calls| && calls[i] == calls[k] && calls[j] != calls[i];
      var p := FirstUseOfRun(calls, i);
      var q := ReturnAfter(calls, j, k);
      assert calls[p] == calls[q] && NumberAt(calls, p) == 1 && NumberAt(calls, q) == 1;
    }
  }

  // The call that starts the stretch of equal sessions i lies in is numbered 1.
  lemma {:induction false} FirstUseOfRun(calls: seq<string>, i: nat) returns (p: nat)
    requires i < |calls|
    ensures p <= i && calls[p] == calls[i] && NumberAt(calls, p) == 1
  {
    if i == 0 || calls[i - 1] != calls[i] {
      p := i;
      if i > 0 { assert Counters(calls[..i]) == map[calls[i - 1] := Next(Counters(calls[..i][..i - 1]), calls[i - 1])]; }
    } else {
      p := FirstUseOfRun(calls, i - 1);
    }
  }

  lemma {:induction false} ReturnAfter(calls: seq<string>, j: nat, k: nat) returns (q: nat)
    requires j < k < |calls| && calls[j] != calls[k]
    ensures j < q <= k && calls[q] == calls[k] && NumberAt(calls, q) == 1
  {
    if calls[k - 1] != calls[k] {
      q := k;
      assert Counters(calls[..k]) == map[calls[k - 1] := Next(Counters(calls[..k][..k - 1]), calls[k - 1])];
    } else {
      q := ReturnAfter(calls, j, k - 1);
    }
  }

  class RequestCounter {
    var requestSeqBySession: map<string, nat>
    ghost var calls: seq<string>

    ghost predicate Valid()
      reads this
    {
      requestSeqBySession == Counters(calls)
    }

    constructor ()
      ensures Valid() && calls == []
    {
      requestSeqBySession, calls := map[], [];
    }

    method NextRequestSeq(sid: string) returns (next: nat)
      requires Valid()
      modifies this
      ensures Valid() && calls == old(calls) + [sid]
      ensures next == NumberAt(calls, |old(calls)|)
    {
      next := (if sid in requestSeqBySession then requestSeqBySession[sid] else 0) + 1;
      requestSeqBySession := map[sid := next];
      calls := calls + [sid];
      assert calls[..|calls| - 1] == old(calls);
    }
  }
}
