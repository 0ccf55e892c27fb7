// What the workspace-diff store keeps over every interleaving of its answers.

module WorkspaceDiffRuns {
  import opened Options
  import opened WorkspaceDiff

  // ----- The diff ----------------------------------------------------------------------

  // Shown data belongs to the last refresh's view, and "loaded" to the newest refresh.
  ghost predicate DiffInv(s: State) {
    && (s.data.Some? ==> s.lastKey == Some(s.data.value.key) && s.data.value.request <= s.requestSeq)
    && (s.status == Loaded ==> s.data.Some? && s.data.value.request == s.requestSeq)
    && (forall j :: j in s.jobs && s.jobs[j].FetchDiff? ==>
      && s.jobs[j].request <= s.requestSeq
      && (s.jobs[j].request == s.requestSeq ==> s.lastKey == Some(s.jobs[j].key)))
  }

  // ----- The root list -----------------------------------------------------------------

  predicate IsCurrent(job: Job, requestSeq: nat) {
    job.Resolve? && job.request == requestSeq
  }

  // A resolve or a measurement: both take a turn in the one queue.
  predicate Queued(job: Job) {
    job.Resolve? || job.MeasureRoots?
  }

  // Turns are taken in the order of issue, and one resolve at most is current.
  ghost predicate QueueInv(s: State) {
    && s.workspaceAnsweredSeq <= s.workspaceSeq && s.lastShown <= s.nextJob
    && (s.workspace.Some? ==> s.workspace.value.issued == s.lastShown)
    && (forall j :: j in s.jobs ==> j < s.nextJob)
    && (forall j :: j in s.jobs && s.jobs[j].Resolve? ==> s.jobs[j].request <= s.requestSeq)
    && (forall j :: j in s.jobs && Queued(s.jobs[j]) ==> s.jobs[j].workspaceAtIssue <= s.workspaceSeq)
    && (forall j, k :: j in s.jobs && k in s.jobs && j < k && Queued(s.jobs[j]) && Queued(s.jobs[k]) ==>
      s.jobs[j].workspaceAtIssue < s.jobs[k].workspaceAtIssue)
    && (forall j, k :: j in s.jobs && k in s.jobs && j != k && IsCurrent(s.jobs[j], s.requestSeq) ==>
      !IsCurrent(s.jobs[k], s.requestSeq))
  }

  // Whoever holds the newest turn was issued no earlier than the list shown last; a current
  // resolve too, or the panel is not blank and something newer has answered.
  ghost predicate WaitInv(s: State) {
    && (forall j :: j in s.jobs && Queued(s.jobs[j]) && s.jobs[j].workspaceAtIssue == s.workspaceSeq ==>
      s.lastShown <= j)
    && (forall j :: j in s.jobs && IsCurrent(s.jobs[j], s.requestSeq) ==>
      s.lastShown <= j || (s.workspace.Some? && s.jobs[j].workspaceAtIssue < s.workspaceAnsweredSeq))
  }

  // ----- The counts --------------------------------------------------------------------

  // A count on screen or remembered is from a request issued since the last clear.
  predicate Fresh(c: Option<Count>, clears: nat, raw: bool) {
    c.Some? ==> c.value.source == Issued(clears) || (raw && c.value.source == RawPin)
  }

  ghost predicate CountsInv(s: State) {
    && (forall path :: path in s.rootCounts ==> s.rootCounts[path].source == Issued(s.clears))
    && (s.workspace.Some? ==> AllFresh(s.workspace.value.roots, s.clears))
    && (forall j :: j in s.jobs && s.jobs[j].Resolve? && s.jobs[j].countsAtIssue.Some? ==>
      && s.jobs[j].countsAtIssue.value <= s.countsSeq
      && (s.jobs[j].countsAtIssue.value == s.countsSeq ==> s.jobs[j].clears == s.clears))
    && (forall j :: j in s.jobs && s.jobs[j].MeasureRoots? ==>
      && s.jobs[j].countsClaimed <= s.countsSeq
      && (s.jobs[j].countsClaimed == s.countsSeq ==> s.jobs[j].clears == s.clears))
  }

  predicate AllFresh(roots: seq<Root>, clears: nat) {
    forall i :: 0 <= i < |roots| ==> Fresh(roots[i].count, clears, true)
  }

  predicate AllRemembered(counts: map<string, Count>, clears: nat) {
    forall path :: path in counts ==> counts[path].source == Issued(clears)
  }

  lemma {:induction false} RememberIsFresh(counts: map<string, Count>, roots: seq<RawRoot>, clears: nat)
    requires AllRemembered(counts, clears)
    ensures AllRemembered(Remember(counts, roots, clears), clears)
  {
    if roots != [] { RememberIsFresh(counts, roots[..|roots| - 1], clears); }
  }

  lemma {:induction false} ForgetIsFresh(counts: map<string, Count>, previous: seq<Root>, measured: seq<RawRoot>, clears: nat)
    requires AllRemembered(counts, clears)
    ensures AllRemembered(Forget(counts, previous, measured), clears)
  {
    if previous != [] { ForgetIsFresh(counts, previous[..|previous| - 1], measured, clears); }
  }

  lemma {:induction false} PaintIs(counts: map<string, Count>, roots: seq<RawRoot>)
    ensures |Paint(counts, roots)| == |roots|
    ensures forall i :: 0 <= i < |roots| ==> Paint(counts, roots)[i] == Painted(counts, roots[i].path)
  {
    if roots != [] { PaintIs(counts, roots[..|roots| - 1]); }
  }

  lemma PaintIsFresh(counts: map<string, Count>, roots: seq<RawRoot>, clears: nat)
    requires AllRemembered(counts, clears)
    ensures AllFresh(Paint(counts, roots), clears)
  {
  }

  lemma {:induction false} RepaintIsBare(roots: seq<Root>)
    ensures |Repaint(map[], roots)| == |roots|
    ensures forall i :: 0 <= i < |roots| ==> Repaint(map[], roots)[i] == Root(roots[i].path, None)
  {
    if roots != [] { RepaintIsBare(roots[..|roots| - 1]); }
  }

  lemma {:induction false} RawIsRaw(roots: seq<RawRoot>, clears: nat)
    ensures AllFresh(Raw(roots), clears)
  {
    if roots != [] { RawIsRaw(roots[..|roots| - 1], clears); }
  }

  // ----- The caption -------------------------------------------------------------------

  // A read failure on screen is of a request no older than the answer it stands beside.
  ghost predicate CaptionInv(s: State) {
    s.workspaceError.Some? && s.workspaceError.value.Read? && s.workspace.Some? ==>
      s.workspace.value.issued <= s.workspaceError.value.issued
  }

  ghost predicate PanelInv(s: State) {
    QueueInv(s) && WaitInv(s) && CountsInv(s) && CaptionInv(s)
  }

  ghost predicate Inv(s: State) {
    DiffInv(s) && PanelInv(s)
  }

  // ----- Issuing keeps it --------------------------------------------------------------

  // A panel all of whose resolves are superseded by the refresh under way.
  ghost predicate Superseding(s: State) {
    && QueueInv(s) && CountsInv(s) && CaptionInv(s)
    && forall j :: j in s.jobs && s.jobs[j].Resolve? ==> s.jobs[j].request < s.requestSeq
  }

  lemma SettledKeeps(s: State, status: Status)
    requires Superseding(s)
    ensures Superseding(Settled(s, status))
    ensures Settled(s, status).lastShown == if ClearsPanel(s) then 0 else s.lastShown
  {
  }

  lemma ClaimedKeeps(s: State)
    requires QueueInv(s) && CountsInv(s) && CaptionInv(s)
    requires forall j :: j in s.jobs && IsCurrent(s.jobs[j], s.requestSeq) ==>
      s.lastShown <= j || (s.workspace.Some? && s.jobs[j].workspaceAtIssue < s.workspaceAnsweredSeq)
    ensures PanelInv(Claimed(s))
    ensures forall j :: j in s.jobs && Queued(s.jobs[j]) ==> s.jobs[j].workspaceAtIssue < Claimed(s).workspaceSeq
  {
  }

  lemma LaunchResolveKeeps(s: State, countsAtIssue: Option<nat>)
    requires PanelInv(s) && (countsAtIssue.Some? ==> countsAtIssue.value == s.countsSeq)
    requires forall j :: j in s.jobs && s.jobs[j].Resolve? ==> s.jobs[j].request < s.requestSeq
    requires forall j :: j in s.jobs && Queued(s.jobs[j]) ==> s.jobs[j].workspaceAtIssue < s.workspaceSeq
    ensures PanelInv(Launch(s, Resolve(s.requestSeq, countsAtIssue, s.workspaceSeq, s.clears)))
  {
  }

  lemma BeginResolveKeeps(s: State)
    requires Superseding(s)
    ensures PanelInv(BeginResolve(s))
    ensures BeginResolve(s).lastShown == if ClearsPanel(s) then 0 else s.lastShown
  {
    if s.thread == "" || !s.canResolve {
      SettledKeeps(s, Idle);
    } else {
      SettledKeeps(s, Loading);
      ClaimedKeeps(Settled(s, Loading));
      var claimed := Claimed(Settled(s, Loading));
      LaunchResolveKeeps(claimed, if s.measuring != {} then Some(claimed.countsSeq) else None);
    }
  }

  // A refresh that finds another thread, or none, clears the panel first.
  predicate ClearsPanel(s: State) {
    s.thread == "" || !s.canResolve || s.lastWorkspaceThread != Some(s.thread)
  }

  lemma BeginRefreshKeepsDiff(s: State)
    requires DiffInv(s)
    ensures DiffInv(BeginRefresh(s))
  {
    var begun := BeginResolve(Requested(s));
    ResolveLeavesDiff(Requested(s));
    forall j | j in begun.jobs && begun.jobs[j].FetchDiff? ensures begun.jobs[j].request <= s.requestSeq {
      assert j in s.jobs && s.jobs[j] == begun.jobs[j];
    }
  }

  lemma ResolveLeavesDiff(s: State)
    ensures var t := BeginResolve(s);
      && t.data == s.data && t.requestSeq == s.requestSeq && t.lastKey == s.lastKey
      && forall j :: j in t.jobs && t.jobs[j].FetchDiff? ==> j in s.jobs && s.jobs[j] == t.jobs[j]
  {
    SettledLeavesDiff(s, Idle);
    SettledLeavesDiff(s, Loading);
  }

  lemma SettledLeavesDiff(s: State, status: Status)
    ensures var t := Settled(s, status);
      && t.data == s.data && t.requestSeq == s.requestSeq && t.lastKey == s.lastKey && t.jobs == s.jobs
  {
  }

  lemma LaunchKeeps(s: State, job: Job)
    requires PanelInv(s) && !job.Resolve? && !job.MeasureRoots?
    ensures PanelInv(Launch(s, job))
  {
  }

  lemma BeginRefreshKeepsInv(s: State)
    requires Inv(s)
    ensures Inv(BeginRefresh(s)) && BeginRefresh(s).lastShown == if ClearsPanel(s) then 0 else s.lastShown
  {
    RefreshFromInterim(s);
  }

  // What a refresh may start from: the pin that precedes it has shown its own answer.
  ghost predicate Interim(s: State) {
    DiffInv(s) && QueueInv(s) && CountsInv(s) && CaptionInv(s)
  }

  lemma RefreshFromInterim(s: State)
    requires Interim(s)
    ensures Inv(BeginRefresh(s)) && BeginRefresh(s).lastShown == if ClearsPanel(s) then 0 else s.lastShown
  {
    BeginRefreshKeepsDiff(s);
    RequestKeeps(s);
    BeginResolveKeeps(Requested(s));
    var begun := BeginResolve(Requested(s));
    var shown := begun.(status := Loading, data := if s.lastKey != Requested(s).lastKey then None else s.data);
    StatusKeeps(begun, shown);
    LaunchKeeps(shown, FetchDiff(begun.requestSeq, Requested(s).lastKey.value));
  }

  lemma RequestKeeps(s: State)
    requires Interim(s)
    ensures Superseding(Requested(s))
  {
  }

  lemma StatusKeeps(s: State, t: State)
    requires PanelInv(s) && t == s.(status := t.status, data := t.data)
    ensures PanelInv(t)
  {
  }

  lemma BeginMeasureKeepsInv(s: State, owner: string)
    requires Inv(s)
    ensures Inv(BeginMeasure(s, owner)) && BeginMeasure(s, owner).lastShown == s.lastShown
  {
    var owned := s.(measuring := s.measuring + {owner});
    OwnerKeepsInv(s, owner);
    if s.thread != "" && s.canResolve {
      ClaimedKeeps(owned);
      LaunchMeasureKeeps(Claimed(owned), s.thread);
      LaunchKeepsDiff(Claimed(owned),
        MeasureRoots(s.thread, Claimed(owned).countsSeq, Claimed(owned).workspaceSeq, s.clears));
    }
  }

  lemma OwnerKeepsInv(s: State, owner: string)
    requires Inv(s)
    ensures Inv(s.(measuring := s.measuring + {owner}))
  {
  }

  lemma LaunchMeasureKeeps(s: State, threadId: string)
    requires PanelInv(s)
    requires forall j :: j in s.jobs && Queued(s.jobs[j]) ==> s.jobs[j].workspaceAtIssue < s.workspaceSeq
    ensures PanelInv(Launch(s, MeasureRoots(threadId, s.countsSeq, s.workspaceSeq, s.clears)))
  {
  }

  lemma DoneKeepsInv(s: State, job: nat)
    requires Inv(s)
    ensures Inv(Done(s, job))
  {
  }

  // ----- Landing keeps it --------------------------------------------------------------

  // What an answer may change: the panel and the cache, by an answer no older than any shown.
  lemma LandedKeepsInv(s: State, turn: nat)
    requires Inv(s) && turn <= s.workspaceSeq
    ensures Inv(Landed(s, turn))
  {
  }

  // A list may be shown by a call that comes after the one shown last and before whoever holds
  // the newest turn, once nothing current is left behind it.
  lemma ShowKeepsInv(s: State, roots: seq<Root>, issued: nat)
    requires Inv(s) && issued < s.nextJob && AllFresh(roots, s.clears)
    requires !(s.workspaceError.Some? && s.workspaceError.value.Read?)
    requires forall j :: j in s.jobs && Queued(s.jobs[j]) && s.jobs[j].workspaceAtIssue == s.workspaceSeq ==> issued <= j
    requires forall j :: j in s.jobs && IsCurrent(s.jobs[j], s.requestSeq) ==>
      s.jobs[j].workspaceAtIssue < s.workspaceAnsweredSeq
    ensures Inv(Show(s, roots, issued))
  {
  }

  lemma ResolveLandsKeepsInv(s: State, job: nat, resolved: Option<seq<RawRoot>>)
    requires Inv(s) && job in s.jobs && s.jobs[job].Resolve?
    ensures Inv(ResolveLands(Done(s, job), job, s.jobs[job], resolved))
    ensures s.lastShown <= ResolveLands(Done(s, job), job, s.jobs[job], resolved).lastShown
  {
    var done, j := Done(s, job), s.jobs[job];
    DoneKeepsInv(s, job);
    if j.request == s.requestSeq {
      assert IsCurrent(s.jobs[job], s.requestSeq);
      assert forall k :: k in done.jobs ==> !IsCurrent(done.jobs[k], s.requestSeq);
      if j.workspaceAtIssue != s.workspaceSeq {
        LandedKeepsInv(done, j.workspaceAtIssue);
        if resolved.Some? && s.workspace.None? {
          PaintIsFresh(s.rootCounts, resolved.value, s.clears);
          ShowKeepsInv(Landed(done, j.workspaceAtIssue), Paint(s.rootCounts, resolved.value), job);
        }
      } else {
        NewestResolveKeepsInv(done, job, j, resolved);
      }
    }
  }

  // No other call holds the newest turn.
  ghost predicate Alone(s: State, id: nat) {
    && id < s.nextJob && s.lastShown <= id
    && forall k :: k in s.jobs && Queued(s.jobs[k]) ==> s.jobs[k].workspaceAtIssue < s.workspaceSeq
  }

  lemma NewestResolveKeepsInv(s: State, id: nat, j: Job, resolved: Option<seq<RawRoot>>)
    requires Inv(s) && j.Resolve? && j.request == s.requestSeq && j.workspaceAtIssue == s.workspaceSeq && Alone(s, id)
    requires j.countsAtIssue == Some(s.countsSeq) ==> j.clears == s.clears
    requires forall k :: k in s.jobs ==> !IsCurrent(s.jobs[k], s.requestSeq)
    ensures Inv(ResolveLands(s, id, j, resolved)) && s.lastShown <= ResolveLands(s, id, j, resolved).lastShown
  {
    if resolved.Some? {
      RememberIsFresh(s.rootCounts, resolved.value, s.clears);
      MeasuredKeepsInv(s,
        if j.countsAtIssue == Some(s.countsSeq) then Remember(s.rootCounts, resolved.value, j.clears) else s.rootCounts,
        resolved.value, id);
    } else {
      LandedKeepsInv(s, j.workspaceAtIssue);
    }
  }

  lemma MeasureLandsKeepsInv(s: State, job: nat, roots: Option<seq<RawRoot>>)
    requires Inv(s) && job in s.jobs && s.jobs[job].MeasureRoots?
    ensures Inv(MeasureLands(Done(s, job), job, s.jobs[job], roots))
    ensures s.lastShown <= MeasureLands(Done(s, job), job, s.jobs[job], roots).lastShown
  {
    DoneKeepsInv(s, job);
    if roots.Some? && s.jobs[job].workspaceAtIssue == s.workspaceSeq && s.jobs[job].countsClaimed == s.countsSeq {
      NewestMeasureKeepsInv(Done(s, job), job, s.jobs[job], roots.value);
    }
  }

  lemma NewestMeasureKeepsInv(s: State, id: nat, j: Job, roots: seq<RawRoot>)
    requires Inv(s) && j.MeasureRoots? && j.workspaceAtIssue == s.workspaceSeq && Alone(s, id)
    requires j.countsClaimed == s.countsSeq && j.clears == s.clears
    ensures Inv(MeasureLands(s, id, j, Some(roots))) && s.lastShown <= MeasureLands(s, id, j, Some(roots)).lastShown
  {
    var remembered := Remember(s.rootCounts, roots, j.clears);
    RememberIsFresh(s.rootCounts, roots, s.clears);
    var previous := if s.workspace.Some? then s.workspace.value.roots else [];
    ForgetIsFresh(remembered, previous, roots, s.clears);
    var counts := Forget(remembered, previous, roots);
    MeasuredKeepsInv(s, counts, roots, id);
  }

  lemma MeasuredKeepsInv(s: State, counts: map<string, Count>, roots: seq<RawRoot>, id: nat)
    requires Inv(s) && AllRemembered(counts, s.clears) && Alone(s, id)
    ensures Inv(Show(Landed(s.(rootCounts := counts), s.workspaceSeq), Paint(counts, roots), id))
  {
    var counted := s.(rootCounts := counts);
    CountedKeepsInv(s, counts);
    LandedKeepsInv(counted, s.workspaceSeq);
    PaintIsFresh(counts, roots, s.clears);
    ShowKeepsInv(Landed(counted, s.workspaceSeq), Paint(counts, roots), id);
  }

  lemma CountedKeepsInv(s: State, counts: map<string, Count>)
    requires Inv(s) && AllRemembered(counts, s.clears)
    ensures Inv(s.(rootCounts := counts))
  {
  }

  lemma PinLandsKeepsInv(s: State, job: nat, resolved: Option<seq<RawRoot>>)
    requires Inv(s) && job in s.jobs && s.jobs[job].Pin?
    ensures var t := PinLands(Done(s, job), job, s.jobs[job], resolved);
      && Inv(t)
      && t.lastShown ==
        if s.thread != s.jobs[job].threadId then s.lastShown
        else if ClearsPanel(s) then 0
        else if resolved.Some? then job
        else s.lastShown
  {
    DoneKeepsInv(s, job);
    if s.thread == s.jobs[job].threadId {
      PinShownKeeps(Done(s, job), job, resolved);
      RefreshFromInterim(PinShown(Done(s, job), job, resolved));
    }
  }

  lemma PinShownKeeps(s: State, id: nat, resolved: Option<seq<RawRoot>>)
    requires Inv(s) && id < s.nextJob
    ensures Interim(PinShown(s, id, resolved))
  {
    var followed := s.(viewRoots := s.viewRoots - {s.thread}, workspaceStatus := Loaded, workspaceError := None);
    FollowedKeeps(s, followed);
    if resolved.Some? {
      RawIsRaw(resolved.value, s.clears);
      PinnedKeeps(followed, id, Raw(resolved.value));
    } else {
      BlankKeeps(followed);
    }
  }

  lemma FollowedKeeps(s: State, t: State)
    requires Inv(s) && t == s.(viewRoots := t.viewRoots, workspaceStatus := t.workspaceStatus, workspaceError := None)
    ensures Inv(t)
  {
  }

  lemma PinnedKeeps(s: State, id: nat, roots: seq<Root>)
    requires Inv(s) && s.workspaceError.None? && AllFresh(roots, s.clears) && id < s.nextJob
    ensures Interim(Show(s, roots, id))
  {
  }

  lemma BlankKeeps(s: State)
    requires Inv(s) && s.workspaceError.None?
    ensures Interim(s.(workspace := None))
  {
  }

  lemma ResolveThrowsKeepsInv(s: State, job: nat)
    requires Inv(s) && job in s.jobs && s.jobs[job].Resolve?
    ensures Inv(ResolveThrows(Done(s, job), job, s.jobs[job]))
  {
    DoneKeepsInv(s, job);
  }

  // ----- Whole runs --------------------------------------------------------------------

  predicate Refreshes(s: State, e: Event) {
    match e
    case Refresh => true
    case SetViewRoot(_) => s.thread != ""
    case TrustArrives(job) => job in s.jobs && s.jobs[job].Trust?
    case PinArrives(job, _) => job in s.jobs && s.jobs[job].Pin? && s.thread == s.jobs[job].threadId
    case _ => false
  }

  // The panel is cleared by refreshing for another thread, or for none.
  predicate Clears(s: State, e: Event) {
    Refreshes(s, e) && ClearsPanel(s)
  }

  // A pin that brings the answer to a question older than the list shown last.
  predicate PinGoesBack(s: State, e: Event) {
    e.PinArrives? && Refreshes(s, e) && e.resolved.Some? && e.job < s.lastShown
  }

  // What a step leaves behind, and whether it may show an older list.
  ghost predicate Keeps(s: State, e: Event) {
    && Inv(Step(s, e))
    && (!Clears(s, e) ==> (Step(s, e).lastShown < s.lastShown <==> PinGoesBack(s, e)))
  }

  lemma StepKeepsInv(s: State, e: Event)
    requires Inv(s)
    ensures Keeps(s, e)
  {
    match e
    case Refresh => BeginRefreshKeepsInv(s);
    case SetViewRoot(path) => SetViewRootKeepsInv(s, path);
    case StartMeasuring(owner) => BeginMeasureKeepsInv(s, owner);
    case ClearRootCounts => ClearKeepsInv(s);
    case ResolveArrives(_, _) => ReadKeepsInv(s, e);
    case ResolveFails(_) => ReadKeepsInv(s, e);
    case MeasureArrives(_, _) => ReadKeepsInv(s, e);
    case PinArrives(job, resolved) => PinKeepsInv(s, job, resolved);
    case TrustArrives(job) => TrustKeepsInv(s, job);
    case _ => OtherKeepsInv(s, e);
  }

  lemma ReadKeepsInv(s: State, e: Event)
    requires Inv(s) && (e.ResolveArrives? || e.ResolveFails? || e.MeasureArrives?)
    ensures Inv(Step(s, e)) && s.lastShown <= Step(s, e).lastShown
  {
    match e
    case ResolveArrives(job, resolved) =>
      if job in s.jobs && s.jobs[job].Resolve? { ResolveLandsKeepsInv(s, job, resolved); }
    case ResolveFails(job) =>
      if job in s.jobs && s.jobs[job].Resolve? { ResolveThrowsKeepsInv(s, job); }
    case MeasureArrives(job, roots) =>
      if job in s.jobs && s.jobs[job].MeasureRoots? { MeasureLandsKeepsInv(s, job, roots); }
  }

  lemma PinKeepsInv(s: State, job: nat, resolved: Option<seq<RawRoot>>)
    requires Inv(s)
    ensures Keeps(s, PinArrives(job, resolved))
  {
    if job in s.jobs && s.jobs[job].Pin? { PinLandsKeepsInv(s, job, resolved); }
  }

  lemma TrustKeepsInv(s: State, job: nat)
    requires Inv(s)
    ensures Keeps(s, TrustArrives(job))
  {
    if job in s.jobs && s.jobs[job].Trust? {
      DoneKeepsInv(s, job);
      BeginRefreshKeepsInv(Done(s, job));
    }
  }

  lemma SetViewRootKeepsInv(s: State, path: Option<string>)
    requires Inv(s)
    ensures Inv(Step(s, SetViewRoot(path)))
    ensures !Clears(s, SetViewRoot(path)) ==> Step(s, SetViewRoot(path)).lastShown == s.lastShown
  {
    if s.thread != "" {
      PreviewKeeps(s, path);
      BeginRefreshKeepsInv(Previewed(s, path));
    }
  }

  lemma PreviewKeeps(s: State, path: Option<string>)
    requires Inv(s)
    ensures Inv(Previewed(s, path))
  {
  }

  lemma ClearKeepsInv(s: State)
    requires Inv(s)
    ensures Inv(Step(s, ClearRootCounts)) && s.lastShown == Step(s, ClearRootCounts).lastShown
  {
    if s.workspace.Some? { RepaintIsBare(s.workspace.value.roots); }
  }

  lemma OtherKeepsInv(s: State, e: Event)
    requires Inv(s)
    requires e.View? || e.PinWorkspace? || e.TrustWorkspace? || e.StopMeasuring? || e.DiffArrives? || e.DiffFails?
      || e.MeasureFails? || e.PinFails? || e.TrustFails?
    ensures Inv(Step(s, e)) && s.lastShown == Step(s, e).lastShown
  {
    if e.PinWorkspace? {
      MutationBegins(s, Pin(s.thread));
    } else if e.TrustWorkspace? {
      MutationBegins(s, Trust);
    } else if e.DiffArrives? {
      DiffKeepsInv(s, e.job, e.body);
    } else if e.View? || e.StopMeasuring? {
      ViewKeepsInv(s, e);
    } else {
      FailureKeepsInv(s, e);
    }
  }

  lemma FailureKeepsInv(s: State, e: Event)
    requires Inv(s) && (e.DiffFails? || e.MeasureFails? || e.PinFails? || e.TrustFails?)
    ensures Inv(Step(s, e)) && s.lastShown == Step(s, e).lastShown
  {
    DoneKeepsInv(s, e.job);
    if e.DiffFails? {
      FailedKeepsInv(Done(s, e.job));
    } else {
      ErrorKeepsInv(Done(s, e.job), Some(Mutation));
      RefusedStep(s, e);
    }
  }

  lemma RefusedStep(s: State, e: Event)
    requires e.MeasureFails? || e.PinFails? || e.TrustFails?
    ensures Step(s, e) == s || Step(s, e) == Done(s, e.job) || Step(s, e) == Done(s, e.job).(workspaceError := Some(Mutation))
  {
  }

  lemma MutationBegins(s: State, job: Job)
    requires Inv(s) && (job.Pin? || job.Trust?)
    ensures Inv(Launch(s.(workspaceError := None), job))
  {
    ErrorKeepsInv(s, None);
    LaunchKeeps(s.(workspaceError := None), job);
    LaunchKeepsDiff(s.(workspaceError := None), job);
  }

  lemma LaunchKeepsDiff(s: State, job: Job)
    requires DiffInv(s) && !job.FetchDiff?
    ensures DiffInv(Launch(s, job))
  {
  }

  lemma ViewKeepsInv(s: State, e: Event)
    requires Inv(s) && (e.View? || e.StopMeasuring?)
    ensures Inv(Step(s, e)) && s.lastShown == Step(s, e).lastShown
  {
  }

  lemma ErrorKeepsInv(s: State, error: Option<WorkspaceError>)
    requires Inv(s) && (error.Some? ==> error.value.Mutation?)
    ensures Inv(s.(workspaceError := error))
  {
  }

  lemma FailedKeepsInv(s: State)
    requires Inv(s)
    ensures Inv(s.(status := Failed))
  {
  }

  lemma DiffKeepsInv(s: State, job: nat, body: string)
    requires Inv(s)
    ensures Inv(Step(s, DiffArrives(job, body)))
  {
    DoneKeepsInv(s, job);
    if job in s.jobs && s.jobs[job].FetchDiff? && s.jobs[job].request == s.requestSeq {
      StatusKeeps(Done(s, job), Step(s, DiffArrives(job, body)));
    }
  }

  lemma {:induction false} RunKeepsInv(canResolve: bool, events: seq<Event>)
    ensures Inv(Run(canResolve, events))
  {
    if events != [] {
      RunKeepsInv(canResolve, events[..|events| - 1]);
      StepKeepsInv(Run(canResolve, events[..|events| - 1]), events[|events| - 1]);
    }
  }

  // ----- Theorems ----------------------------------------------------------------------

  // The view of the latest refresh, read off the run itself.
  function LatestKey(canResolve: bool, events: seq<Event>): Option<Key> {
    if events == [] then None
    else
      var before, e := Run(canResolve, events[..|events| - 1]), events[|events| - 1];
      if Refreshes(before, e) then Some(Key(before.viewKey, CurrentViewRoot(Step(before, e))))
      else LatestKey(canResolve, events[..|events| - 1])
  }

  lemma ResolveLeavesView(s: State)
    ensures var t := BeginResolve(s);
      && t.lastKey == s.lastKey && t.thread == s.thread && t.viewKey == s.viewKey && t.viewRoots == s.viewRoots
      && t.clears == s.clears
  {
    SettledLeavesView(s, Idle);
    SettledLeavesView(s, Loading);
  }

  lemma SettledLeavesView(s: State, status: Status)
    ensures var t := Settled(s, status);
      && t.lastKey == s.lastKey && t.thread == s.thread && t.viewKey == s.viewKey && t.viewRoots == s.viewRoots
      && t.clears == s.clears
  {
  }

  lemma RefreshKeyIs(s: State)
    ensures var t := BeginRefresh(s);
      && t.lastKey == Some(Key(s.viewKey, CurrentViewRoot(s))) && CurrentViewRoot(t) == CurrentViewRoot(s)
      && t.clears == s.clears
  {
    ResolveLeavesView(Requested(s));
  }

  lemma StepKeyIs(s: State, e: Event)
    ensures Step(s, e).lastKey ==
      if Refreshes(s, e) then Some(Key(s.viewKey, CurrentViewRoot(Step(s, e)))) else s.lastKey
  {
    match e
    case Refresh => RefreshKeyIs(s);
    case SetViewRoot(path) =>
      RefreshKeyIs(Previewed(s, path));
    case TrustArrives(job) => RefreshKeyIs(Done(s, job));
    case PinArrives(job, resolved) => PinKeyIs(s, job, resolved);
    case _ =>
  }

  lemma PinKeyIs(s: State, job: nat, resolved: Option<seq<RawRoot>>)
    ensures Step(s, PinArrives(job, resolved)).lastKey ==
      if Refreshes(s, PinArrives(job, resolved)) then
        Some(Key(s.viewKey, CurrentViewRoot(Step(s, PinArrives(job, resolved)))))
      else s.lastKey
  {
  }

  lemma {:induction false} LastKeyIsLatest(canResolve: bool, events: seq<Event>)
    ensures Run(canResolve, events).lastKey == LatestKey(canResolve, events)
  {
    if events != [] {
      LastKeyIsLatest(canResolve, events[..|events| - 1]);
      StepKeyIs(Run(canResolve, events[..|events| - 1]), events[|events| - 1]);
    }
  }

  // Whatever order answers come back in, the diff on screen is of the latest refresh's view,
  // and is called loaded only when it answers that very refresh.
  lemma ShownDiffIsTheLatestView(canResolve: bool, events: seq<Event>)
    ensures var s := Run(canResolve, events);
      && (s.data.Some? ==> Some(s.data.value.key) == LatestKey(canResolve, events))
      && (s.status == Loaded ==> s.data.Some? && s.data.value.request == s.requestSeq)
  {
    RunKeepsInv(canResolve, events);
    LastKeyIsLatest(canResolve, events);
  }

  // While the panel is not cleared for another thread, an event puts an older call's list on
  // screen, or lets one follow a blank, exactly when it is a pin landing whose call was issued
  // before the call that brought the list shown last.
  lemma RootListGoesBackExactlyWhen(canResolve: bool, events: seq<Event>, e: Event)
    requires !Clears(Run(canResolve, events), e)
    ensures var s, t := Run(canResolve, events), Step(Run(canResolve, events), e);
      && (t.lastShown < s.lastShown <==> PinGoesBack(s, e))
      && (s.workspace.Some? ==> s.workspace.value.issued == s.lastShown)
      && (t.workspace.Some? ==> t.workspace.value.issued == t.lastShown)
  {
    RunKeepsInv(canResolve, events);
    StepKeepsInv(Run(canResolve, events), e);
  }

  // It does happen: a pin takes no turn, so a measurement issued after it may answer first.
  lemma OlderPinReplacesNewerList(newer: seq<RawRoot>, older: seq<RawRoot>)
    ensures var events := [View("t", "k"), Refresh, PinWorkspace, StartMeasuring("picker"), MeasureArrives(3, Some(newer))];
      var s, t := Run(true, events), Step(Run(true, events), PinArrives(2, Some(older)));
      && s.workspace.Some? && s.workspace.value.issued == 3
      && t.workspace == Some(Workspace(Raw(older), 2))
  {
    var seen := Follow(true, Follow(true, [], View("t", "k")), Refresh);
    FirstRefreshIs(View("t", "k"));
    var asked := Follow(true, Follow(true, seen, PinWorkspace), StartMeasuring("picker"));
    MeasuringBehindAPin(Run(true, seen));
    var measured := Follow(true, asked, MeasureArrives(3, Some(newer)));
    MeasureOverAPin(Run(true, asked), newer, older);
    assert measured
      == [View("t", "k"), Refresh, PinWorkspace, StartMeasuring("picker"), MeasureArrives(3, Some(newer))];
  }

  lemma FirstRefreshIs(e: Event)
    requires e == View("t", "k")
    ensures var s := BeginRefresh(Step(Start(true), e));
      && s.thread == "t" && s.canResolve && s.nextJob == 2 && s.lastWorkspaceThread == Some("t")
  {
  }

  lemma MeasuringBehindAPin(s: State)
    requires s.thread == "t" && s.canResolve && s.nextJob == 2 && s.lastWorkspaceThread == Some("t")
    ensures var t := Step(Step(s, PinWorkspace), StartMeasuring("picker"));
      && t.thread == "t" && !ClearsPanel(t)
      && 3 in t.jobs && t.jobs[3] == MeasureRoots("t", t.countsSeq, t.workspaceSeq, t.clears)
      && 2 in t.jobs && t.jobs[2] == Pin("t")
  {
  }

  lemma MeasureOverAPin(s: State, newer: seq<RawRoot>, older: seq<RawRoot>)
    requires s.thread == "t" && !ClearsPanel(s)
    requires 3 in s.jobs && s.jobs[3] == MeasureRoots("t", s.countsSeq, s.workspaceSeq, s.clears)
    requires 2 in s.jobs && s.jobs[2] == Pin("t")
    ensures var t := Step(s, MeasureArrives(3, Some(newer)));
      && t.workspace.Some? && t.workspace.value.issued == 3
      && Step(t, PinArrives(2, Some(older))).workspace == Some(Workspace(Raw(older), 2))
  {
    NewerListLands(s, newer);
    PinKeepsList(Done(Step(s, MeasureArrives(3, Some(newer))), 2), 2, older);
  }

  lemma NewerListLands(s: State, newer: seq<RawRoot>)
    requires s.thread == "t" && !ClearsPanel(s)
    requires 3 in s.jobs && s.jobs[3] == MeasureRoots("t", s.countsSeq, s.workspaceSeq, s.clears)
    requires 2 in s.jobs && s.jobs[2] == Pin("t")
    ensures var t := Step(s, MeasureArrives(3, Some(newer)));
      && t.workspace.Some? && t.workspace.value.issued == 3 && t.thread == "t" && !ClearsPanel(t)
      && 2 in t.jobs && t.jobs[2] == Pin("t")
  {
  }

  ghost function Follow(canResolve: bool, events: seq<Event>, e: Event): (longer: seq<Event>)
    ensures longer == events + [e] && Run(canResolve, longer) == Step(Run(canResolve, events), e)
  {
    assert (events + [e])[..|events|] == events;
    events + [e]
  }

  lemma PinKeepsList(s: State, id: nat, resolved: seq<RawRoot>)
    requires !ClearsPanel(s)
    ensures BeginRefresh(PinShown(s, id, Some(resolved))).workspace == Some(Workspace(Raw(resolved), id))
  {
  }

  // Until the panel is cleared for another thread or such a pin lands, the root list on screen
  // never goes back to the answer of an older call.
  lemma RootListNeverGoesBack(canResolve: bool, events: seq<Event>, i: nat)
    requires i <= |events|
    requires forall k :: i <= k < |events| ==> Forward(canResolve, events, k)
    ensures Run(canResolve, events[..i]).lastShown <= Run(canResolve, events).lastShown
    ensures var was, now := Run(canResolve, events[..i]).workspace, Run(canResolve, events).workspace;
      was.Some? && now.Some? ==> was.value.issued <= now.value.issued
  {
    RunKeepsInv(canResolve, events[..i]);
    RunKeepsInv(canResolve, events);
    LastShownNeverShrinks(canResolve, events, i);
  }

  predicate Forward(canResolve: bool, events: seq<Event>, k: nat)
    requires k < |events|
  {
    var s := Run(canResolve, events[..k]);
    !Clears(s, events[k]) && !PinGoesBack(s, events[k])
  }

  lemma {:induction false} LastShownNeverShrinks(canResolve: bool, events: seq<Event>, i: nat)
    requires i <= |events|
    requires forall k :: i <= k < |events| ==> Forward(canResolve, events, k)
    ensures Run(canResolve, events[..i]).lastShown <= Run(canResolve, events).lastShown
  {
    if i == |events| {
      assert events[..i] == events;
    } else {
      var before := events[..|events| - 1];
      assert before[..i] == events[..i];
      forall k | i <= k < |before| ensures Forward(canResolve, before, k) {
        assert before[..k] == events[..k];
        assert Forward(canResolve, events, k);
      }
      LastShownNeverShrinks(canResolve, before, i);
      assert Forward(canResolve, events, |before|);
      RootListGoesBackExactlyWhen(canResolve, before, events[|before|]);
    }
  }

  function ClearsIn(events: seq<Event>): nat {
    if events == [] then 0
    else ClearsIn(events[..|events| - 1]) + if events[|events| - 1].ClearRootCounts? then 1 else 0
  }

  lemma StepClears(s: State, e: Event)
    ensures Step(s, e).clears == s.clears + if e.ClearRootCounts? then 1 else 0
  {
    match e
    case Refresh => RefreshKeyIs(s);
    case SetViewRoot(path) =>
      RefreshKeyIs(Previewed(s, path));
    case TrustArrives(job) => RefreshKeyIs(Done(s, job));
    case PinArrives(job, resolved) => PinLeavesClears(s, job, resolved);
    case ResolveArrives(_, _) => AnswerLeavesClears(s, e);
    case MeasureArrives(_, _) => AnswerLeavesClears(s, e);
    case _ =>
  }

  lemma PinLeavesClears(s: State, job: nat, resolved: Option<seq<RawRoot>>)
    ensures Step(s, PinArrives(job, resolved)).clears == s.clears
  {
    RefreshKeyIs(PinShown(Done(s, job), job, resolved));
  }

  lemma AnswerLeavesClears(s: State, e: Event)
    requires e.ResolveArrives? || e.MeasureArrives?
    ensures Step(s, e).clears == s.clears
  {
  }

  lemma {:induction false} ClearsAreCounted(canResolve: bool, events: seq<Event>)
    ensures Run(canResolve, events).clears == ClearsIn(events)
  {
    if events != [] {
      ClearsAreCounted(canResolve, events[..|events| - 1]);
      StepClears(Run(canResolve, events[..|events| - 1]), events[|events| - 1]);
    }
  }

  // Counts never cross a clear: every count remembered or shown, but for a pin's raw answer,
  // is of a request issued since the last one, whatever older replies have come in.
  lemma CountsNeverCrossAClear(canResolve: bool, events: seq<Event>)
    ensures var s := Run(canResolve, events);
      && (forall path :: path in s.rootCounts ==> s.rootCounts[path].source == Issued(ClearsIn(events)))
      && (s.workspace.Some? ==> forall i :: 0 <= i < |s.workspace.value.roots| ==>
        Fresh(s.workspace.value.roots[i].count, ClearsIn(events), true))
  {
    RunKeepsInv(canResolve, events);
    ClearsAreCounted(canResolve, events);
  }

  // ...and the clear itself leaves nothing to see, raw answers included.
  lemma ClearBlanksTheScreen(s: State)
    ensures var t := Step(s, ClearRootCounts);
      t.rootCounts == map[] && (t.workspace.Some? ==>
        forall i :: 0 <= i < |t.workspace.value.roots| ==> t.workspace.value.roots[i].count.None?)
  {
    if s.workspace.Some? { RepaintIsBare(s.workspace.value.roots); }
  }

  // A read failure is never shown beside the answer of a newer request.
  lemma ReadFailureNeverCaptionsANewerAnswer(canResolve: bool, events: seq<Event>)
    ensures var s := Run(canResolve, events);
      s.workspaceError.Some? && s.workspaceError.value.Read? && s.workspace.Some? ==>
        s.workspace.value.issued <= s.workspaceError.value.issued
  {
    RunKeepsInv(canResolve, events);
  }

  // What takes a refused mutation off the screen: retrying one, leaving the thread, a pin that
  // succeeds, or a read that fails in its turn. A read that succeeds never does.
  predicate Retires(s: State, e: Event) {
    match e
    case SetViewRoot(_) => s.thread != ""
    case PinWorkspace => s.thread != ""
    case TrustWorkspace => true
    case PinArrives(job, _) => Refreshes(s, e)
    case ResolveFails(job) =>
      job in s.jobs && s.jobs[job].Resolve? && s.jobs[job].request == s.requestSeq
      && s.workspaceAnsweredSeq <= s.jobs[job].workspaceAtIssue
    case _ => Clears(s, e)
  }

  lemma RefreshKeepsError(s: State)
    ensures BeginRefresh(s).workspaceError == if ClearsPanel(s) then None else s.workspaceError
  {
  }

  lemma RefusalRetiredExactlyWhen(s: State, e: Event)
    requires s.workspaceError == Some(Mutation)
    ensures Step(s, e).workspaceError == Some(Mutation) <==> !Retires(s, e)
  {
    match e
    case Refresh => RefreshKeepsError(s);
    case SetViewRoot(path) =>
      RefreshKeepsError(Previewed(s, path));
    case TrustArrives(job) => RefreshKeepsError(Done(s, job));
    case PinArrives(job, resolved) =>
      if job in s.jobs && s.jobs[job].Pin? {
        RefreshKeepsError(PinShown(Done(s, job), job, resolved));
      }
    case _ =>
  }
}
