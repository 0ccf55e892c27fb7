// One box, many drafts (frontend/local/composer-workspace-binding.js): the desktop composer
// is a single text box and attachment strip that stands for the draft of whichever thread is
// bound. And the remote composer's send (frontend/remote/composer-send.js), whose completion
// may land anywhere.

module Composer {
  import opened Options
  import opened Filters
  import opened Strings
  import opened ComposerWorkspaces

  datatype State = State(bound: string, text: string, images: seq<Image>, store: Store)

  const UNBOUND := State("", "", [], NO_DRAFTS)

  // The draft a thread has: the box if the thread is bound, else what is stored for it.
  function View(s: State, key: string): Workspace {
    if key != "" && key == s.bound then Normalize(Read(s.store, key).(text := s.text, images := s.images))
    else Read(s.store, key)
  }

  function Capture(s: State, key: string): State {
    s.(store := Write(s.store, key, Read(s.store, key).(text := s.text, images := s.images)))
  }

  function Restore(s: State, key: string): State {
    s.(text := Read(s.store, key).text, images := Read(s.store, key).images)
  }

  predicate Adopts(s: State, next: string) {
    s.bound == "" && (s.text != "" || s.images != []) && Inert(Read(s.store, next))
  }

  // sync, given the scope the composer is on now.
  function Sync(s: State, next: string): State {
    if next == s.bound then s
    else
      var moved := Capture(s, s.bound).(bound := next);
      if Adopts(s, next) then Capture(moved, next) else Restore(moved, next)
  }

  function ClearSubmitted(s: State, token: nat, sent: Submitted): State {
    match OperationScope(s.store, token)
    case None => s
    case Some(key) =>
      var unquoted :=
        if sent.quote != "" && Read(s.store, key).quote == sent.quote then
          Write(s.store, key, Read(s.store, key).(quote := ""))
        else s.store;
      var unstaged := Write(unquoted, key,
        Read(unquoted, key).(pills := WithoutSentSkill(Read(unquoted, key).pills, sent.skill)));
      if key == s.bound then
        var emptied := s.(
          text := if s.text == sent.text then "" else s.text,
          images := WithoutSent(s.images, sent.attachmentIds),
          store := unstaged);
        Capture(emptied, key)
      else
        var w := Read(unstaged, key);
        s.(store := Write(unstaged, key, w.(
          text := if w.text == sent.text then "" else w.text,
          images := WithoutSent(w.images, sent.attachmentIds))))
  }

  function Discard(s: State, key: string): State {
    if key == "" then s
    else
      var forgotten := s.(store := Forget(s.store, key));
      if s.bound == key then forgotten.(text := "", images := []) else forgotten
  }

  // ----- The box refines the drafts ----------------------------------------------------

  lemma CaptureKeepsViews(s: State, k: string)
    requires StoreInv(s.store) && s.bound != ""
    ensures StoreInv(Capture(s, s.bound).store)
    ensures Read(Capture(s, s.bound).store, k) == View(s, k)
  {
  }

  // Moving the composer between threads changes no thread's draft.
  lemma SyncKeepsEveryDraft(s: State, next: string, k: string)
    requires StoreInv(s.store) && s.bound != "" && k != ""
    ensures StoreInv(Sync(s, next).store) && View(Sync(s, next), k) == View(s, k)
  {
    if next != s.bound {
      CaptureKeepsViews(s, k);
      CaptureKeepsViews(s, next);
      ReadIsNormal(Capture(s, s.bound).store, k);
    }
  }

  // Binding for the first time changes at most the draft of the thread bound to: what the box
  // holds becomes its draft exactly when it had none, and is lost exactly when it had one.
  lemma FirstBindAdoptsOnlyIntoAnEmptyDraft(s: State, next: string, k: string)
    requires StoreInv(s.store) && s.bound == "" && next != "" && k != ""
    ensures StoreInv(Sync(s, next).store)
    ensures View(Sync(s, next), k) ==
      if k == next && Inert(Read(s.store, next)) then Normalize(EMPTY.(text := s.text, images := s.images))
      else View(s, k)
  {
  }

  // A success consumes only what it submitted, only on the thread it was submitted from, and
  // does the same to that thread's draft whether or not it is the one on screen.
  lemma SubmitConsumesOnlyItsOwnDraft(s: State, token: nat, sent: Submitted, k: string)
    requires StoreInv(s.store) && k != ""
    ensures StoreInv(ClearSubmitted(s, token, sent).store)
    ensures View(ClearSubmitted(s, token, sent), k) ==
      if OperationScope(s.store, token) == Some(k) then Consumed(View(s, k), sent) else View(s, k)
  {
    if OperationScope(s.store, token).Some? {
      var key := s.store.live[token];
      var w := Read(s.store, key);
      var unquotedDraft := w.(quote := if sent.quote != "" && w.quote == sent.quote then "" else w.quote);
      var unquoted := if unquotedDraft != w then Write(s.store, key, unquotedDraft) else s.store;
      ReadIsNormal(s.store, key);
      UnquotedReads(s.store, key, unquotedDraft, k);
      var unstagedDraft := unquotedDraft.(pills := WithoutSentSkill(w.pills, sent.skill));
      UnstagedReads(unquoted, key, unquotedDraft, unstagedDraft, k);
      SubmitLands(s, token, key, sent, Write(unquoted, key, unstagedDraft), unstagedDraft, k);
    }
  }

  lemma UnquotedReads(s: Store, key: string, draft: Workspace, k: string)
    requires StoreInv(s) && key != "" && draft == Read(s, key).(quote := draft.quote)
    ensures var t := if draft != Read(s, key) then Write(s, key, draft) else s;
      StoreInv(t) && Read(t, key) == draft && (k != key ==> Read(t, k) == Read(s, k)) && t.live == s.live
  {
  }

  lemma UnstagedReads(s: Store, key: string, was: Workspace, draft: Workspace, k: string)
    requires StoreInv(s) && key != "" && was == Read(s, key) && draft == was.(pills := draft.pills)
    ensures var t := Write(s, key, draft);
      StoreInv(t) && Read(t, key) == draft && (k != key ==> Read(t, k) == Read(s, k)) && t.live == s.live
  {
  }

  lemma SubmitLands(s: State, token: nat, key: string, sent: Submitted, unstaged: Store, draft: Workspace, k: string)
    requires StoreInv(s.store) && StoreInv(unstaged) && key != "" && k != ""
    requires Read(unstaged, key) == draft && (k != key ==> Read(unstaged, k) == Read(s.store, k))
    requires draft == Read(s.store, key).(
      quote := if sent.quote != "" && Read(s.store, key).quote == sent.quote then "" else Read(s.store, key).quote,
      pills := WithoutSentSkill(Read(s.store, key).pills, sent.skill))
    requires OperationScope(s.store, token) == Some(key)
    requires ClearSubmitted(s, token, sent) ==
      if key == s.bound then
        Capture(s.(
          text := if s.text == sent.text then "" else s.text,
          images := WithoutSent(s.images, sent.attachmentIds),
          store := unstaged), key)
      else
        s.(store := Write(unstaged, key, draft.(
          text := if draft.text == sent.text then "" else draft.text,
          images := WithoutSent(draft.images, sent.attachmentIds))))
    ensures StoreInv(ClearSubmitted(s, token, sent).store)
    ensures View(ClearSubmitted(s, token, sent), k) == if k == key then Consumed(View(s, k), sent) else View(s, k)
  {
    if key == s.bound {
      LandsOnScreen(s, key, sent, unstaged, draft, k);
    } else {
      var landed := draft.(
        text := if draft.text == sent.text then "" else draft.text,
        images := WithoutSent(draft.images, sent.attachmentIds));
      WriteKeepsInv(unstaged, key, landed);
      ReadAfterWrite(unstaged, key, landed, k);
    }
  }

  lemma LandsOnScreen(s: State, key: string, sent: Submitted, unstaged: Store, draft: Workspace, k: string)
    requires StoreInv(unstaged) && key != "" && k != "" && key == s.bound
    requires Read(unstaged, key) == draft && (k != key ==> Read(unstaged, k) == Read(s.store, k))
    requires draft == Read(s.store, key).(
      quote := if sent.quote != "" && Read(s.store, key).quote == sent.quote then "" else Read(s.store, key).quote,
      pills := WithoutSentSkill(Read(s.store, key).pills, sent.skill))
    ensures var t := Capture(s.(
          text := if s.text == sent.text then "" else s.text,
          images := WithoutSent(s.images, sent.attachmentIds),
          store := unstaged), key);
      StoreInv(t.store) && View(t, k) == if k == key then Consumed(View(s, k), sent) else View(s, k)
  {
    var landed := draft.(
      text := if s.text == sent.text then "" else s.text,
      images := WithoutSent(s.images, sent.attachmentIds));
    WriteKeepsInv(unstaged, key, landed);
    ReadAfterWrite(unstaged, key, landed, k);
  }

  // Discarding a thread empties its draft and touches no other; the move that follows does not
  // bring it back, and operations on it resolve to nothing.
  lemma DiscardStays(s: State, key: string, next: string, k: string)
    requires StoreInv(s.store) && key != "" && next != key && k != ""
    ensures StoreInv(Discard(s, key).store)
    ensures View(Discard(s, key), k) == if k == key then EMPTY else View(s, k)
    ensures s.bound == key ==> View(Sync(Discard(s, key), next), k) == View(Discard(s, key), k)
    ensures forall token :: OperationScope(Discard(s, key).store, token) != Some(key)
  {
  }

  // ----- The remote send ---------------------------------------------------------------

  datatype Sending = Sending(draft: string, quote: string, skill: Skill)

  function QuoteToSend(text: string, quote: string): string {
    if Trim(text) != "" then quote else ""
  }

  predicate Pending(s: Store, key: string) {
    Read(s, key).pending.Some?
  }

  // createRemoteComposerSend up to the await; None when this thread's send is still out.
  function BeginSend(s: Store, scope: string, skill: Skill): (Store, Option<nat>, Sending) {
    var w := Read(s, scope);
    var sending := Sending(w.text, QuoteToSend(w.text, w.quote), skill);
    if Pending(s, scope) then (s, None, sending)
    else (BeginOperation(s, scope).0, BeginOperation(s, scope).1, sending)
  }

  // ...and after it.
  function FinishSend(s: Store, token: nat, sending: Sending, sent: bool): Store {
    var scope := OperationScope(s, token);
    var written :=
      if sent && scope.Some? then
        var now := Read(s, scope.value);
        Write(s, scope.value, now.(
          text := if now.text == sending.draft then "" else now.text,
          pills := WithoutSentSkill(now.pills, sending.skill),
          quote := if sending.quote != "" && now.quote == sending.quote then "" else now.quote))
      else s;
    EndOperation(written, token)
  }

  function Released(w: Workspace, token: nat): Workspace {
    if w.pending == Some(token) then w.(pending := None) else w
  }

  // The completion takes exactly what was sent from the thread its token names, if that thread
  // still exists, and releases the composer only if the operation still holds it. No other
  // thread's draft changes.
  lemma FinishTouchesOnlyItsThread(s: Store, token: nat, sending: Sending, sent: bool, k: string)
    requires StoreInv(s) && k != ""
    ensures StoreInv(FinishSend(s, token, sending, sent))
    ensures Read(FinishSend(s, token, sending, sent), k) ==
      if OperationScope(s, token) != Some(k) then Read(s, k)
      else Released(
        if sent then Consumed(Read(s, k), Submitted(sending.draft, {}, sending.skill, sending.quote)) else Read(s, k),
        token)
  {
    ReadIsNormal(s, k);
    if OperationScope(s, token).Some? {
      var key := s.live[token];
      var now := Read(s, key);
      FilterKeepsAll(now.images, NotIn({}));
      var after := now.(
        text := if now.text == sending.draft then "" else now.text,
        pills := WithoutSentSkill(now.pills, sending.skill),
        quote := if sending.quote != "" && now.quote == sending.quote then "" else now.quote);
      WriteKeepsInv(s, key, after);
      ReadAfterWrite(s, key, after, k);
      ReadAfterWrite(s, key, after, key);
      var written := if sent then Write(s, key, after) else s;
      EndKeepsInv(written, token);
      EndReads(written, token, key, k);
    } else {
      EndKeepsInv(s, token);
    }
  }

  lemma EndReads(s: Store, token: nat, key: string, k: string)
    requires StoreInv(s) && OperationScope(s, token) == Some(key) && k != ""
    ensures Read(EndOperation(s, token), k) == if k == key then Released(Read(s, k), token) else Read(s, k)
  {
  }

  // ----- Whole runs --------------------------------------------------------------------

  datatype Event =
    | Type(text: string, images: seq<Image>)
    | MoveTo(next: string)
    | Start(key: string)
    | Finish(token: nat)
    | Succeed(token: nat, sent: Submitted)
    | Drop(key: string)

  function Step(s: State, e: Event): State {
    match e
    case Type(text, images) => s.(text := text, images := images)
    case MoveTo(next) => Sync(s, next)
    case Start(key) => s.(store := BeginOperation(s.store, key).0)
    case Finish(token) => s.(store := EndOperation(s.store, token))
    case Succeed(token, sent) => ClearSubmitted(s, token, sent)
    case Drop(key) => Discard(s, key)
  }

  function Run(events: seq<Event>): State {
    if events == [] then UNBOUND else Step(Run(events[..|events| - 1]), events[|events| - 1])
  }

  // The events that are about k's draft: typing in it, sending it, adopting into it, dropping it.
  predicate Concerns(s: State, e: Event, k: string) {
    match e
    case Type(_, _) => s.bound == k
    case MoveTo(next) => s.bound == "" && next == k && Adopts(s, next)
    case Start(key) => key == k
    case Finish(token) => OperationScope(s.store, token) == Some(k)
    case Succeed(token, _) => OperationScope(s.store, token) == Some(k)
    case Drop(key) => key == k
  }

  lemma StepKeepsOthers(s: State, e: Event, k: string)
    requires StoreInv(s.store) && k != ""
    ensures StoreInv(Step(s, e).store)
    ensures !Concerns(s, e, k) ==> View(Step(s, e), k) == View(s, k)
  {
    match e
    case Type(_, _) =>
    case MoveTo(next) => MoveKeepsOthers(s, next, k);
    case Start(key) =>
      BeginKeepsInv(s.store, key);
      if key != "" { ReadAfterWrite(s.store, key, Read(s.store, key).(pending := Some(s.store.nextToken)), k); }
    case Finish(token) =>
      EndKeepsInv(s.store, token);
      if OperationScope(s.store, token).Some? { EndReads(s.store, token, s.store.live[token], k); }
    case Succeed(token, sent) => SubmitConsumesOnlyItsOwnDraft(s, token, sent, k);
    case Drop(key) =>
      if key != "" { DiscardStays(s, key, "", k); }
  }

  lemma MoveKeepsOthers(s: State, next: string, k: string)
    requires StoreInv(s.store) && k != ""
    ensures StoreInv(Sync(s, next).store)
    ensures !Concerns(s, MoveTo(next), k) ==> View(Sync(s, next), k) == View(s, k)
  {
    if s.bound != "" {
      SyncKeepsEveryDraft(s, next, k);
    } else if next != "" {
      FirstBindAdoptsOnlyIntoAnEmptyDraft(s, next, k);
      ReadIsNormal(s.store, next);
    }
  }

  lemma {:induction false} RunKeepsStore(events: seq<Event>)
    ensures StoreInv(Run(events).store)
  {
    if events != [] {
      RunKeepsStore(events[..|events| - 1]);
      StepKeepsOthers(Run(events[..|events| - 1]), events[|events| - 1], "any");
    }
  }

  // Over any stretch of a run in which nothing concerns k, its draft stays as it was, however
  // often the one box changes hands and whatever completes meanwhile.
  lemma {:induction false} DraftsDoNotWander(events: seq<Event>, i: nat, k: string)
    requires i <= |events| && k != ""
    requires forall j :: i <= j < |events| ==> !Concerns(Run(events[..j]), events[j], k)
    ensures View(Run(events), k) == View(Run(events[..i]), k)
  {
    if i == |events| {
      assert events[..i] == events;
    } else {
      var before := events[..|events| - 1];
      assert before[..i] == events[..i];
      forall j | i <= j < |before| ensures !Concerns(Run(before[..j]), before[j], k) {
        assert before[..j] == events[..j];
      }
      DraftsDoNotWander(before, i, k);
      RunKeepsStore(before);
      assert !Concerns(Run(events[..|before|]), events[|before|], k);
      StepKeepsOthers(Run(before), events[|before|], k);
    }
  }

  // No composer is frozen for good: a frozen thread's operation is live, is that thread's own,
  // and ending it unfreezes it.
  lemma FrozenMeansAnswerable(events: seq<Event>, key: string)
    ensures var s := Run(events).store;
      Pending(s, key) ==>
        && OperationScope(s, Read(s, key).pending.value) == Some(key)
        && !Pending(EndOperation(s, Read(s, key).pending.value), key)
  {
    RunKeepsStore(events);
    var s := Run(events).store;
    if Pending(s, key) { EndReads(s, Read(s, key).pending.value, key, key); }
  }

  class ComposerBinding {
    const workspaces: WorkspaceStore
    var bound: string
    var text: string
    var images: seq<Image>

    function Contents(): State
      reads this, workspaces
    {
      State(bound, text, images, workspaces.Drafts())
    }

    constructor (workspaces: WorkspaceStore)
      ensures this.workspaces == workspaces && Contents() == State("", "", [], workspaces.Drafts())
    {
      this.workspaces := workspaces;
      bound, text, images := "", "", [];
    }

    method CaptureBox(key: string)
      modifies workspaces
      ensures Contents() == Capture(old(Contents()), key)
    {
      if key == "" { return; }
      workspaces.WriteDraft(key, Read(workspaces.Drafts(), key).(text := text, images := images));
    }

    method RestoreBox(key: string)
      modifies this`text, this`images
      ensures Contents() == Restore(old(Contents()), key)
    {
      var workspace := Read(workspaces.Drafts(), key);
      text, images := workspace.text, workspace.images;
    }

    method SyncTo(next: string) returns (changed: bool)
      modifies this, workspaces
      ensures Contents() == Sync(old(Contents()), next) && (changed <==> next != old(bound))
    {
      if next == bound { return false; }
      var unbound := bound == "";
      CaptureBox(bound);
      bound := next;
      if unbound && (text != "" || images != []) && Inert(Read(workspaces.Drafts(), next)) {
        CaptureBox(next);
      } else {
        RestoreBox(next);
      }
      changed := true;
    }

    method ClearSent(token: nat, sent: Submitted)
      modifies this, workspaces
      ensures Contents() == ClearSubmitted(old(Contents()), token, sent)
    {
      var scope := OperationScope(workspaces.Drafts(), token);
      if scope.None? { return; }
      var key := scope.value;
      if sent.quote != "" && Read(workspaces.Drafts(), key).quote == sent.quote {
        workspaces.WriteDraft(key, Read(workspaces.Drafts(), key).(quote := ""));
      }
      var staged := Read(workspaces.Drafts(), key);
      workspaces.WriteDraft(key, staged.(pills := WithoutSentSkill(staged.pills, sent.skill)));
      if key == bound {
        if text == sent.text { text := ""; }
        images := WithoutSent(images, sent.attachmentIds);
        CaptureBox(key);
      } else {
        var workspace := Read(workspaces.Drafts(), key);
        workspaces.WriteDraft(key, workspace.(
          text := if workspace.text == sent.text then "" else workspace.text,
          images := WithoutSent(workspace.images, sent.attachmentIds)));
      }
    }

    method DiscardDraft(key: string)
      modifies this, workspaces
      ensures Contents() == Discard(old(Contents()), key)
    {
      if key == "" { return; }
      workspaces.ForgetDraft(key);
      if bound == key {
        text, images := "", [];
      }
    }
  }

  // The remote composer's send around its await.
  method BeginRemoteSend(workspaces: WorkspaceStore, scope: string, skill: Skill)
    returns (token: Option<nat>, sending: Sending)
    modifies workspaces
    ensures (workspaces.Drafts(), token, sending) == BeginSend(old(workspaces.Drafts()), scope, skill)
  {
    var w := Read(workspaces.Drafts(), scope);
    sending := Sending(w.text, QuoteToSend(w.text, w.quote), skill);
    token := None;
    if w.pending.None? {
      token := workspaces.Begin(scope);
    }
  }

  method FinishRemoteSend(workspaces: WorkspaceStore, token: nat, sending: Sending, sent: bool)
    modifies workspaces
    ensures workspaces.Drafts() == FinishSend(old(workspaces.Drafts()), token, sending, sent)
  {
    var target := OperationScope(workspaces.Drafts(), token);
    if sent && target.Some? {
      var now := Read(workspaces.Drafts(), target.value);
      workspaces.WriteDraft(target.value, now.(
        text := if now.text == sending.draft then "" else now.text,
        pills := WithoutSentSkill(now.pills, sending.skill),
        quote := if sending.quote != "" && now.quote == sending.quote then "" else now.quote));
    }
    workspaces.End(token);
  }
}
