// The store object createWorkspaceDiffStore returns, its counters and caches changed in
// place. Each method is the step WorkspaceDiff specifies.

module WorkspaceDiffStore {
  import opened Options
  import opened WorkspaceDiff

  class Store {
    const canResolve: bool
    var thread: string
    var viewKey: string
    var requestSeq: nat
    var lastKey: Option<Key>
    var lastWorkspaceThread: Option<string>
    var workspaceSeq: nat
    var workspaceAnsweredSeq: nat
    var countsSeq: nat
    var measuringOwners: set<string>
    var rootCounts: map<string, Count>
    var viewRootByThread: map<string, string>
    var status: Status
    var data: Option<Diff>
    var workspace: Option<Workspace>
    var workspaceStatus: Status
    var workspaceError: Option<WorkspaceError>
    var jobs: map<nat, Job>
    var nextJob: nat
    var clears: nat
    var lastShown: nat

    function Contents(): State
      reads this
    {
      State(thread, viewKey, canResolve, requestSeq, lastKey, lastWorkspaceThread, workspaceSeq, workspaceAnsweredSeq,
        countsSeq, measuringOwners, rootCounts, viewRootByThread, status, data, workspace, workspaceStatus,
        workspaceError, jobs, nextJob, clears, lastShown)
    }

    constructor (canResolve: bool)
      ensures this.canResolve == canResolve && Contents() == Start(canResolve)
    {
      this.canResolve := canResolve;
      thread, viewKey, requestSeq, lastKey, lastWorkspaceThread := "", "", 0, None, None;
      workspaceSeq, workspaceAnsweredSeq, countsSeq := 0, 0, 0;
      measuringOwners, rootCounts, viewRootByThread := {}, map[], map[];
      status, data, workspace, workspaceStatus, workspaceError := Idle, None, None, Idle, None;
      jobs, nextJob, clears, lastShown := map[], 0, 0, 0;
    }

    // False means a newer request overtook this one.
    method RememberRootCounts(roots: seq<RawRoot>, turn: nat, issuedAfter: nat) returns (remembered: bool)
      modifies this`rootCounts
      ensures remembered <==> turn == countsSeq
      ensures rootCounts == if remembered then Remember(old(rootCounts), roots, issuedAfter) else old(rootCounts)
    {
      if turn != countsSeq { return false; }
      for i := 0 to |roots|
        invariant rootCounts == Remember(old(rootCounts), roots[..i], issuedAfter)
      {
        assert roots[..i + 1][..i] == roots[..i];
        var root := roots[i];
        if root.path == "" { continue; }
        if root.measured.Some? {
          rootCounts := rootCounts[root.path := Count(root.measured.value, Issued(issuedAfter))];
        } else {
          rootCounts := rootCounts - {root.path};
        }
      }
      assert roots[..|roots|] == roots;
      remembered := true;
    }

    method ForgetRootsMissingFrom(previous: seq<Root>, measured: seq<RawRoot>)
      modifies this`rootCounts
      ensures rootCounts == Forget(old(rootCounts), previous, measured)
    {
      for i := 0 to |previous|
        invariant rootCounts == Forget(old(rootCounts), previous[..i], measured)
      {
        assert previous[..i + 1][..i] == previous[..i];
        if previous[i].path != "" && !Present(measured, previous[i].path) {
          rootCounts := rootCounts - {previous[i].path};
        }
      }
      assert previous[..|previous|] == previous;
    }

    method WithRememberedCounts(roots: seq<RawRoot>) returns (painted: seq<Root>)
      ensures painted == Paint(rootCounts, roots)
    {
      painted := [];
      for i := 0 to |roots|
        invariant painted == Paint(rootCounts, roots[..i])
      {
        assert roots[..i + 1][..i] == roots[..i];
        var path := roots[i].path;
        painted := painted + [Root(path, if path in rootCounts then Some(rootCounts[path]) else None)];
      }
      assert roots[..|roots|] == roots;
    }

    method Enqueue(job: Job) returns (id: nat)
      modifies this`jobs, this`nextJob
      ensures Contents() == Launch(old(Contents()), job) && id == old(nextJob)
    {
      id := nextJob;
      jobs := jobs[id := job];
      nextJob := nextJob + 1;
    }

    method SettleThread(next: Status)
      modifies this`lastWorkspaceThread, this`workspace, this`workspaceStatus, this`workspaceError, this`lastShown
      ensures Contents() == Settled(old(Contents()), next)
    {
      var switched := thread == "" || !canResolve || lastWorkspaceThread != Some(thread);
      lastWorkspaceThread := Some(thread);
      if switched {
        ClearPanel();
      }
      workspaceStatus := next;
    }

    method ClearPanel()
      modifies this`workspace, this`workspaceError, this`lastShown
      ensures Contents() == Cleared(old(Contents()))
    {
      workspace, workspaceError, lastShown := None, None, 0;
    }

    method ClaimTurns() returns (countsAtIssue: Option<nat>)
      modifies this`countsSeq, this`workspaceSeq
      ensures Contents() == Claimed(old(Contents()))
      ensures countsAtIssue == if measuringOwners != {} then Some(countsSeq) else None
    {
      countsAtIssue := None;
      if measuringOwners != {} {
        countsSeq := countsSeq + 1;
        countsAtIssue := Some(countsSeq);
      }
      workspaceSeq := workspaceSeq + 1;
    }

    // refreshWorkspace up to its await.
    method RefreshWorkspace()
      modifies this
      ensures Contents() == BeginResolve(old(Contents()))
    {
      if thread == "" || !canResolve {
        SettleThread(Idle);
        return;
      }
      SettleThread(Loading);
      var countsAtIssue := ClaimTurns();
      var id := Enqueue(Resolve(requestSeq, countsAtIssue, workspaceSeq, clears));
    }

    method TakeRequest() returns (key: Key, viewChanged: bool)
      modifies this`requestSeq, this`lastKey
      ensures Contents() == Requested(old(Contents())) && lastKey == Some(key)
      ensures viewChanged <==> old(lastKey) != lastKey
    {
      requestSeq := requestSeq + 1;
      key := Key(viewKey, if thread != "" && thread in viewRootByThread then Some(viewRootByThread[thread]) else None);
      viewChanged := lastKey != Some(key);
      lastKey := Some(key);
    }

    method ShowLoading(viewChanged: bool)
      modifies this`status, this`data
      ensures status == Loading && data == if viewChanged then None else old(data)
    {
      status := Loading;
      if viewChanged {
        data := None;
      }
    }

    // refresh up to its first await.
    method RefreshDiff()
      modifies this
      ensures Contents() == BeginRefresh(old(Contents()))
    {
      ghost var was := Contents();
      var key, viewChanged := TakeRequest();
      RefreshWorkspace();
      assert Contents() == BeginResolve(Requested(was));
      ShowLoading(viewChanged);
      var id := Enqueue(FetchDiff(requestSeq, key));
    }

    method MeasureRootsFor(owner: string)
      modifies this
      ensures Contents() == BeginMeasure(old(Contents()), owner)
    {
      measuringOwners := measuringOwners + {owner};
      if thread == "" || !canResolve { return; }
      var countsAtIssue := ClaimTurns();
      var id := Enqueue(MeasureRoots(thread, countsSeq, workspaceSeq, clears));
    }

    method Answer(roots: seq<Root>, issued: nat)
      modifies this`workspace, this`lastShown
      ensures Contents() == Show(old(Contents()), roots, issued)
    {
      workspace, lastShown := Some(Workspace(roots, issued)), issued;
    }

    method MarkLanded(turn: nat)
      modifies this`workspaceAnsweredSeq, this`workspaceStatus, this`workspaceError
      ensures Contents() == Landed(old(Contents()), turn)
    {
      if turn > workspaceAnsweredSeq { workspaceAnsweredSeq := turn; }
      workspaceStatus := Loaded;
      if workspaceError != Some(Mutation) { workspaceError := None; }
    }

    method ResolveAnswered(id: nat, resolved: Option<seq<RawRoot>>)
      requires id in jobs && jobs[id].Resolve?
      modifies this
      ensures Contents() == Step(old(Contents()), ResolveArrives(id, resolved))
    {
      var job := jobs[id];
      jobs := jobs - {id};
      if job.request != requestSeq { return; }
      if job.workspaceAtIssue != workspaceSeq {
        FillBlank(id, job, resolved);
      } else {
        TakeResolve(id, job, resolved);
      }
    }

    method FillBlank(id: nat, job: Job, resolved: Option<seq<RawRoot>>)
      requires job.Resolve? && job.request == requestSeq && job.workspaceAtIssue != workspaceSeq
      modifies this
      ensures Contents() == ResolveLands(old(Contents()), id, job, resolved)
    {
      var blank := workspace.None?;
      MarkLanded(job.workspaceAtIssue);
      if blank && resolved.Some? {
        var painted := WithRememberedCounts(resolved.value);
        Answer(painted, id);
      }
    }

    method TakeResolve(id: nat, job: Job, resolved: Option<seq<RawRoot>>)
      requires job.Resolve? && job.request == requestSeq && job.workspaceAtIssue == workspaceSeq
      modifies this
      ensures Contents() == ResolveLands(old(Contents()), id, job, resolved)
    {
      if resolved.None? {
        MarkLanded(job.workspaceAtIssue);
        workspace := None;
        return;
      }
      if job.countsAtIssue.Some? {
        var remembered := RememberRootCounts(resolved.value, job.countsAtIssue.value, job.clears);
      }
      ShowMeasured(resolved.value, job.workspaceAtIssue, id);
    }

    method ShowMeasured(roots: seq<RawRoot>, turn: nat, id: nat)
      modifies this
      ensures Contents() == Show(Landed(old(Contents()), turn), Paint(old(rootCounts), roots), id)
    {
      MarkLanded(turn);
      var painted := WithRememberedCounts(roots);
      Answer(painted, id);
    }

    method ResolveRefused(id: nat)
      requires id in jobs && jobs[id].Resolve?
      modifies this
      ensures Contents() == Step(old(Contents()), ResolveFails(id))
    {
      var job := jobs[id];
      jobs := jobs - {id};
      if job.request != requestSeq || workspaceAnsweredSeq > job.workspaceAtIssue { return; }
      workspaceStatus, workspaceError := Failed, Some(Read(id));
    }

    method MeasureAnswered(id: nat, roots: Option<seq<RawRoot>>)
      requires id in jobs && jobs[id].MeasureRoots?
      modifies this
      ensures Contents() == Step(old(Contents()), MeasureArrives(id, roots))
    {
      var job := jobs[id];
      jobs := jobs - {id};
      if thread != job.threadId || roots.None? || job.workspaceAtIssue != workspaceSeq { return; }
      TakeMeasure(id, job, roots.value);
    }

    method TakeMeasure(id: nat, job: Job, roots: seq<RawRoot>)
      requires job.MeasureRoots? && thread == job.threadId && job.workspaceAtIssue == workspaceSeq
      modifies this
      ensures Contents() == MeasureLands(old(Contents()), id, job, Some(roots))
    {
      var remembered := RememberRootCounts(roots, job.countsClaimed, job.clears);
      if !remembered { return; }
      if workspace.Some? {
        ForgetRootsMissingFrom(workspace.value.roots, roots);
      }
      ShowMeasured(roots, job.workspaceAtIssue, id);
    }

    method PinAnswered(id: nat, resolved: Option<seq<RawRoot>>)
      requires id in jobs && jobs[id].Pin?
      modifies this
      ensures Contents() == Step(old(Contents()), PinArrives(id, resolved))
    {
      var job := jobs[id];
      jobs := jobs - {id};
      if thread != job.threadId { return; }
      ShowPin(id, resolved);
      RefreshDiff();
    }

    method ShowPin(id: nat, resolved: Option<seq<RawRoot>>)
      modifies this`viewRootByThread, this`workspaceStatus, this`workspaceError, this`workspace, this`lastShown
      ensures Contents() == PinShown(old(Contents()), id, resolved)
    {
      viewRootByThread := viewRootByThread - {thread};
      workspaceStatus, workspaceError := Loaded, None;
      if resolved.Some? {
        Answer(Raw(resolved.value), id);
      } else {
        workspace := None;
      }
    }

    method DiffAnswered(id: nat, body: string)
      requires id in jobs && jobs[id].FetchDiff?
      modifies this`jobs, this`status, this`data
      ensures Contents() == Step(old(Contents()), DiffArrives(id, body))
    {
      var job := jobs[id];
      jobs := jobs - {id};
      if job.request != requestSeq { return; }
      status, data := Loaded, Some(Diff(job.key, job.request, body));
    }

    method ForgetRootCounts()
      modifies this
      ensures Contents() == Step(old(Contents()), ClearRootCounts)
    {
      rootCounts := map[];
      countsSeq := countsSeq + 1;
      clears := clears + 1;
      if workspace.Some? {
        workspace := Some(workspace.value.(roots := Repaint(rootCounts, workspace.value.roots)));
      }
    }
  }
}
