// The workspace-diff store (frontend/local/workspace-diff.js, createWorkspaceDiffStore): one
// displayed state, written by refreshes, resolves, measurements and pins whose answers come
// back in any order, and four counters that decide which of them may write.
//
// Asynchronous functions are cut at their awaits; `jobs` holds the locals of the calls that
// are waiting. Answers carry a stamp of the request they answer, which the code does not
// need and the properties do.

module WorkspaceDiff {
  import opened Options

  datatype Measure = Measure(changedFiles: int, capped: bool)

  // A root as an answer brings it, and as the panel shows it.
  datatype RawRoot = RawRoot(path: string, measured: Option<Measure>)

  // Which request a count came from: one issued under that many clears, or a pin's raw answer.
  datatype Source = Issued(clears: nat) | RawPin

  datatype Count = Count(measure: Measure, source: Source)

  datatype Root = Root(path: string, count: Option<Count>)

  // `issued` is the number of the call it answers: jobs are numbered as they are issued.
  datatype Workspace = Workspace(roots: seq<Root>, issued: nat)

  // The view a refresh was for: the surface's workspace key and the preview root.
  datatype Key = Key(view: string, viewRoot: Option<string>)

  datatype Diff = Diff(key: Key, request: nat, body: string)

  datatype Status = Idle | Loading | Loaded | Failed

  datatype WorkspaceError = Read(issued: nat) | Mutation

  datatype Job =
    | FetchDiff(request: nat, key: Key)
    | Resolve(request: nat, countsAtIssue: Option<nat>, workspaceAtIssue: nat, clears: nat)
    | MeasureRoots(threadId: string, countsClaimed: nat, workspaceAtIssue: nat, clears: nat)
    | Pin(threadId: string)
    | Trust

  datatype State = State(
    // What getThreadId and getWorkspaceKey answer now; "" is no thread.
    thread: string,
    viewKey: string,
    // Whether this surface can resolve a workspace at all.
    canResolve: bool,
    requestSeq: nat,
    lastKey: Option<Key>,
    lastWorkspaceThread: Option<string>,
    workspaceSeq: nat,
    workspaceAnsweredSeq: nat,
    countsSeq: nat,
    measuring: set<string>,
    rootCounts: map<string, Count>,
    viewRoots: map<string, string>,
    status: Status,
    data: Option<Diff>,
    workspace: Option<Workspace>,
    workspaceStatus: Status,
    workspaceError: Option<WorkspaceError>,
    jobs: map<nat, Job>,
    nextJob: nat,
    // How often clearRootCounts has run.
    clears: nat,
    // Which call brought the root list shown last since the panel was cleared for a thread.
    lastShown: nat)

  function Start(canResolve: bool): State {
    State("", "", canResolve, 0, None, None, 0, 0, 0, {}, map[], map[],
      Idle, None, None, Idle, None, map[], 0, 0, 0)
  }

  datatype Event =
    | View(thread: string, viewKey: string)
    | Refresh
    | SetViewRoot(path: Option<string>)
    | PinWorkspace
    | TrustWorkspace
    | StartMeasuring(owner: string)
    | StopMeasuring(owner: string)
    | ClearRootCounts
    | DiffArrives(job: nat, body: string)
    | DiffFails(job: nat)
    | ResolveArrives(job: nat, resolved: Option<seq<RawRoot>>)
    | ResolveFails(job: nat)
    | MeasureArrives(job: nat, roots: Option<seq<RawRoot>>)
    | MeasureFails(job: nat)
    | PinArrives(job: nat, resolved: Option<seq<RawRoot>>)
    | PinFails(job: nat)
    | TrustArrives(job: nat)
    | TrustFails(job: nat)

  // ----- Root counts -------------------------------------------------------------------

  // rememberRootCounts, once the request is known to be the newest.
  function Remember(counts: map<string, Count>, roots: seq<RawRoot>, clears: nat): map<string, Count> {
    if roots == [] then counts
    else
      var before, root := Remember(counts, roots[..|roots| - 1], clears), roots[|roots| - 1];
      if root.path == "" then before
      else match root.measured
        case Some(measure) => before[root.path := Count(measure, Issued(clears))]
        case None => before - {root.path}
  }

  predicate Present(roots: seq<RawRoot>, path: string) {
    exists i :: 0 <= i < |roots| && roots[i].path == path
  }

  // forgetRootsMissingFrom
  function Forget(counts: map<string, Count>, previous: seq<Root>, measured: seq<RawRoot>): map<string, Count> {
    if previous == [] then counts
    else
      var before, root := Forget(counts, previous[..|previous| - 1], measured), previous[|previous| - 1];
      if root.path != "" && !Present(measured, root.path) then before - {root.path} else before
  }

  // withRememberedCounts
  function Painted(counts: map<string, Count>, path: string): Root {
    Root(path, if path in counts then Some(counts[path]) else None)
  }

  function Paint(counts: map<string, Count>, roots: seq<RawRoot>): seq<Root> {
    if roots == [] then [] else Paint(counts, roots[..|roots| - 1]) + [Painted(counts, roots[|roots| - 1].path)]
  }

  function Repaint(counts: map<string, Count>, roots: seq<Root>): seq<Root> {
    if roots == [] then [] else Repaint(counts, roots[..|roots| - 1]) + [Painted(counts, roots[|roots| - 1].path)]
  }

  // A pin's answer is shown as it came.
  function Raw(roots: seq<RawRoot>): seq<Root> {
    if roots == [] then []
    else
      var root := roots[|roots| - 1];
      Raw(roots[..|roots| - 1]) + [Root(root.path,
        match root.measured
        case Some(measure) => Some(Count(measure, RawPin))
        case None => None)]
  }

  // ----- Issuing -----------------------------------------------------------------------

  function CurrentViewRoot(s: State): Option<string> {
    if s.thread != "" && s.thread in s.viewRoots then Some(s.viewRoots[s.thread]) else None
  }

  function Launch(s: State, job: Job): State {
    s.(jobs := s.jobs[s.nextJob := job], nextJob := s.nextJob + 1)
  }

  function Cleared(s: State): State {
    s.(workspace := None, workspaceError := None, lastShown := 0)
  }

  // refreshWorkspace finds another thread than last time, or none.
  function Settled(s: State, status: Status): State {
    var switched := s.thread == "" || !s.canResolve || s.lastWorkspaceThread != Some(s.thread);
    (if switched then Cleared(s) else s).(lastWorkspaceThread := Some(s.thread), workspaceStatus := status)
  }

  // The request claims its turns when it is issued, not when it is answered.
  function Claimed(s: State): State {
    s.(
      countsSeq := if s.measuring != {} then s.countsSeq + 1 else s.countsSeq,
      workspaceSeq := s.workspaceSeq + 1)
  }

  // refreshWorkspace up to its await.
  function BeginResolve(s: State): State {
    if s.thread == "" || !s.canResolve then Settled(s, Idle)
    else
      var claimed := Claimed(Settled(s, Loading));
      Launch(claimed, Resolve(
        s.requestSeq,
        if s.measuring != {} then Some(claimed.countsSeq) else None,
        claimed.workspaceSeq,
        s.clears))
  }

  function Requested(s: State): State {
    s.(requestSeq := s.requestSeq + 1, lastKey := Some(Key(s.viewKey, CurrentViewRoot(s))))
  }

  // refresh up to its first await.
  function BeginRefresh(s: State): State {
    var requested := Requested(s);
    var begun := BeginResolve(requested);
    Launch(
      begun.(status := Loading, data := if s.lastKey != requested.lastKey then None else s.data),
      FetchDiff(begun.requestSeq, requested.lastKey.value))
  }

  function BeginMeasure(s: State, owner: string): State {
    // Owning a measurement is what makes this turn claim a count.
    var owned := s.(measuring := s.measuring + {owner});
    if s.thread == "" || !s.canResolve then owned
    else Launch(Claimed(owned), MeasureRoots(s.thread, Claimed(owned).countsSeq, Claimed(owned).workspaceSeq, s.clears))
  }

  // ----- Landing -----------------------------------------------------------------------

  function Done(s: State, job: nat): State {
    s.(jobs := s.jobs - {job})
  }

  function Show(s: State, roots: seq<Root>, issued: nat): State {
    s.(workspace := Some(Workspace(roots, issued)), lastShown := issued)
  }

  function MarkAnswered(s: State, turn: nat): State {
    s.(workspaceAnsweredSeq := if turn > s.workspaceAnsweredSeq then turn else s.workspaceAnsweredSeq)
  }

  // A read that succeeded retracts a read failure, never a refused mutation.
  function KeepingRefusal(error: Option<WorkspaceError>): Option<WorkspaceError> {
    if error == Some(Mutation) then error else None
  }

  function Landed(s: State, turn: nat): State {
    MarkAnswered(s, turn).(workspaceStatus := Loaded, workspaceError := KeepingRefusal(s.workspaceError))
  }

  function ResolveLands(s: State, id: nat, job: Job, resolved: Option<seq<RawRoot>>): State
    requires job.Resolve?
  {
    if job.request != s.requestSeq then s
    else if job.workspaceAtIssue != s.workspaceSeq then
      // Overtaken: only a blank panel may still take it.
      var landed := Landed(s, job.workspaceAtIssue);
      if s.workspace.Some? || resolved.None? then landed
      else Show(landed, Paint(s.rootCounts, resolved.value), id)
    else
      var counted :=
        if job.countsAtIssue == Some(s.countsSeq) && resolved.Some? then
          s.(rootCounts := Remember(s.rootCounts, resolved.value, job.clears))
        else s;
      var landed := Landed(counted, job.workspaceAtIssue);
      if resolved.None? then landed.(workspace := None)
      else Show(landed, Paint(landed.rootCounts, resolved.value), id)
  }

  function ResolveThrows(s: State, id: nat, job: Job): State
    requires job.Resolve?
  {
    if job.request != s.requestSeq || s.workspaceAnsweredSeq > job.workspaceAtIssue then s
    else s.(workspaceStatus := Failed, workspaceError := Some(Read(id)))
  }

  function MeasureLands(s: State, id: nat, job: Job, roots: Option<seq<RawRoot>>): State
    requires job.MeasureRoots?
  {
    if s.thread != job.threadId || roots.None? || job.workspaceAtIssue != s.workspaceSeq
      || job.countsClaimed != s.countsSeq then s
    else
      var remembered := Remember(s.rootCounts, roots.value, job.clears);
      var counts :=
        if s.workspace.Some? then Forget(remembered, s.workspace.value.roots, roots.value) else remembered;
      Show(Landed(s.(rootCounts := counts), job.workspaceAtIssue), Paint(counts, roots.value), id)
  }

  // The pin's own answer: session truth, so the preview goes. A pin takes no turn in the queue.
  function PinShown(s: State, id: nat, resolved: Option<seq<RawRoot>>): State {
    var followed := s.(viewRoots := s.viewRoots - {s.thread}, workspaceStatus := Loaded, workspaceError := None);
    if resolved.Some? then Show(followed, Raw(resolved.value), id) else followed.(workspace := None)
  }

  // setViewRoot, before its refresh.
  function Previewed(s: State, path: Option<string>): State {
    s.(
      viewRoots :=
        if path.Some? && path.value != "" then s.viewRoots[s.thread := path.value] else s.viewRoots - {s.thread},
      workspaceError := None)
  }

  // The pin's own answer, then the refresh that follows it at once.
  function PinLands(s: State, id: nat, job: Job, resolved: Option<seq<RawRoot>>): State
    requires job.Pin?
  {
    if s.thread != job.threadId then s else BeginRefresh(PinShown(s, id, resolved))
  }

  function Step(s: State, e: Event): State {
    match e
    case View(thread, viewKey) => s.(thread := thread, viewKey := viewKey)
    case Refresh => BeginRefresh(s)
    case SetViewRoot(path) =>
      if s.thread == "" then s else BeginRefresh(Previewed(s, path))
    case PinWorkspace => if s.thread == "" then s else Launch(s.(workspaceError := None), Pin(s.thread))
    case TrustWorkspace => Launch(s.(workspaceError := None), Trust)
    case StartMeasuring(owner) => BeginMeasure(s, owner)
    case StopMeasuring(owner) => s.(measuring := s.measuring - {owner})
    case ClearRootCounts =>
      var cleared := s.(rootCounts := map[], countsSeq := s.countsSeq + 1, clears := s.clears + 1);
      if s.workspace.None? then cleared
      else cleared.(workspace := Some(s.workspace.value.(roots := Repaint(map[], s.workspace.value.roots))))
    case DiffArrives(job, body) =>
      if job !in s.jobs || !s.jobs[job].FetchDiff? then s
      else if s.jobs[job].request != s.requestSeq then Done(s, job)
      else Done(s, job).(status := Loaded, data := Some(Diff(s.jobs[job].key, s.jobs[job].request, body)))
    case DiffFails(job) =>
      if job !in s.jobs || !s.jobs[job].FetchDiff? then s
      else if s.jobs[job].request != s.requestSeq then Done(s, job)
      else Done(s, job).(status := Failed)
    case ResolveArrives(job, resolved) =>
      if job !in s.jobs || !s.jobs[job].Resolve? then s else ResolveLands(Done(s, job), job, s.jobs[job], resolved)
    case ResolveFails(job) =>
      if job !in s.jobs || !s.jobs[job].Resolve? then s else ResolveThrows(Done(s, job), job, s.jobs[job])
    case MeasureArrives(job, roots) =>
      if job !in s.jobs || !s.jobs[job].MeasureRoots? then s else MeasureLands(Done(s, job), job, s.jobs[job], roots)
    case MeasureFails(job) =>
      if job !in s.jobs || !s.jobs[job].MeasureRoots? then s else Done(s, job)
    case PinArrives(job, resolved) =>
      if job !in s.jobs || !s.jobs[job].Pin? then s else PinLands(Done(s, job), job, s.jobs[job], resolved)
    case PinFails(job) =>
      if job !in s.jobs || !s.jobs[job].Pin? then s
      else if s.thread != s.jobs[job].threadId then Done(s, job)
      else Done(s, job).(workspaceError := Some(Mutation))
    case TrustArrives(job) =>
      if job !in s.jobs || !s.jobs[job].Trust? then s else BeginRefresh(Done(s, job))
    case TrustFails(job) =>
      if job !in s.jobs || !s.jobs[job].Trust? then s else Done(s, job).(workspaceError := Some(Mutation))
  }

  function Run(canResolve: bool, events: seq<Event>): State {
    if events == [] then Start(canResolve) else Step(Run(canResolve, events[..|events| - 1]), events[|events| - 1])
  }
}
