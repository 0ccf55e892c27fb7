// Unsent composer state, one slot per thread (frontend/shared/composer-workspace.js): an
// inert slot is never stored, and what must outlive an await holds a token, not a key.

module ComposerWorkspaces {
  import opened Options
  import opened Filters

  datatype Image = Image(id: string, body: string)

  datatype Pill = Pill(kind: string, value: string, pickId: string)

  datatype Workspace = Workspace(
    text: string,
    images: seq<Image>,
    pills: seq<Pill>,
    dismissed: Option<string>,
    pending: Option<nat>,
    quote: string)

  const EMPTY := Workspace("", [], [], None, None, "")

  // A dismissed menu names the exact text it was dismissed for, and cannot outlive it.
  function Normalize(w: Workspace): Workspace {
    if w.text != "" && w.dismissed == Some(w.text) then w else w.(dismissed := None)
  }

  // Keys are "" where there is no thread; "" as a value is no dismissal.
  predicate Inert(w: Workspace) {
    w.text == "" && w.images == [] && w.pills == [] && (w.dismissed.None? || w.dismissed.value == "")
    && w.pending.None? && w.quote == ""
  }

  datatype Store = Store(entries: map<string, Workspace>, live: map<nat, string>, nextToken: nat)

  const NO_DRAFTS := Store(map[], map[], 0)

  function Read(s: Store, key: string): Workspace {
    if key != "" && key in s.entries then s.entries[key] else EMPTY
  }

  // write, given the whole patched workspace.
  function Write(s: Store, key: string, next: Workspace): Store {
    if key == "" then s
    else if Inert(Normalize(next)) then s.(entries := s.entries - {key})
    else s.(entries := s.entries[key := Normalize(next)])
  }

  function OperationScope(s: Store, token: nat): Option<string> {
    if token in s.live then Some(s.live[token]) else None
  }

  function BeginOperation(s: Store, key: string): (Store, Option<nat>) {
    if key == "" then (s, None)
    else
      var token := s.nextToken;
      var issued := s.(live := s.live[token := key], nextToken := token + 1);
      (Write(issued, key, Read(s, key).(pending := Some(token))), Some(token))
  }

  // Only the operation that still owns the slot releases it.
  function EndOperation(s: Store, token: nat): Store {
    var scope := OperationScope(s, token);
    var ended := s.(live := s.live - {token});
    if scope.None? || Read(s, scope.value).pending != Some(token) then ended
    else Write(ended, scope.value, Read(s, scope.value).(pending := None))
  }

  function Forget(s: Store, key: string): Store {
    if key == "" then s
    else s.(entries := s.entries - {key}, live := map token | token in s.live && s.live[token] != key :: s.live[token])
  }

  // Only real drafts are stored, and a frozen one names a live operation of its own.
  ghost predicate StoreInv(s: Store) {
    && (forall key :: key in s.entries ==> key != "" && !Inert(s.entries[key]) && Normalize(s.entries[key]) == s.entries[key])
    && (forall token :: token in s.live ==> token < s.nextToken && s.live[token] != "")
    && (forall key :: key in s.entries && s.entries[key].pending.Some? ==>
      s.entries[key].pending.value in s.live && s.live[s.entries[key].pending.value] == key)
  }

  lemma ReadIsNormal(s: Store, key: string)
    requires StoreInv(s)
    ensures Normalize(Read(s, key)) == Read(s, key)
  {
  }

  // A slot reads back what was written, whether or not it was worth storing.
  lemma ReadAfterWrite(s: Store, key: string, next: Workspace, other: string)
    requires key != ""
    ensures Read(Write(s, key, next), other) == if other == key then Normalize(next) else Read(s, other)
  {
  }

  lemma WriteKeepsInv(s: Store, key: string, next: Workspace)
    requires StoreInv(s) && next.pending == Read(s, key).pending
    ensures StoreInv(Write(s, key, next))
  {
  }

  lemma BeginKeepsInv(s: Store, key: string)
    requires StoreInv(s)
    ensures StoreInv(BeginOperation(s, key).0)
  {
  }

  lemma EndKeepsInv(s: Store, token: nat)
    requires StoreInv(s)
    ensures StoreInv(EndOperation(s, token))
  {
  }

  lemma ForgetKeepsInv(s: Store, key: string)
    requires StoreInv(s)
    ensures StoreInv(Forget(s, key))
  {
  }

  // ----- What a send takes with it -----------------------------------------------------

  // The skill that went with a message; key "" is none, pickId "" any pick.
  datatype Skill = Skill(key: string, pickId: string)

  predicate WasSent(pill: Pill, skill: Skill) {
    pill.kind == "skill" && pill.value == skill.key
    && (skill.pickId == "" || pill.pickId == "" || pill.pickId == skill.pickId)
  }

  function WithoutSentSkill(pills: seq<Pill>, skill: Skill): seq<Pill> {
    if skill.key == "" then pills else Filter(pills, (pill: Pill) => !WasSent(pill, skill))
  }

  datatype Submitted = Submitted(text: string, attachmentIds: set<string>, skill: Skill, quote: string)

  function NotIn(ids: set<string>): Image -> bool {
    (image: Image) => image.id !in ids
  }

  function WithoutSent(images: seq<Image>, ids: set<string>): seq<Image> {
    Filter(images, NotIn(ids))
  }

  // A draft after a send succeeded: less exactly what went, and whatever replaced it kept.
  function Consumed(w: Workspace, sent: Submitted): Workspace {
    Normalize(w.(
      text := if w.text == sent.text then "" else w.text,
      images := WithoutSent(w.images, sent.attachmentIds),
      pills := WithoutSentSkill(w.pills, sent.skill),
      quote := if sent.quote != "" && w.quote == sent.quote then "" else w.quote))
  }

  class WorkspaceStore {
    var entries: map<string, Workspace>
    var liveScopes: map<nat, string>
    var nextToken: nat

    function Drafts(): Store
      reads this
    {
      Store(entries, liveScopes, nextToken)
    }

    constructor ()
      ensures Drafts() == NO_DRAFTS
    {
      entries, liveScopes, nextToken := map[], map[], 0;
    }

    method WriteDraft(key: string, next: Workspace)
      modifies this`entries
      ensures Drafts() == Write(old(Drafts()), key, next)
    {
      if key == "" { return; }
      var normalized := Normalize(next);
      if Inert(normalized) {
        entries := entries - {key};
      } else {
        entries := entries[key := normalized];
      }
    }

    method Begin(key: string) returns (token: Option<nat>)
      modifies this
      ensures (Drafts(), token) == BeginOperation(old(Drafts()), key)
    {
      if key == "" { return None; }
      token := Some(nextToken);
      liveScopes := liveScopes[nextToken := key];
      nextToken := nextToken + 1;
      WriteDraft(key, Read(Drafts(), key).(pending := token));
    }

    method End(token: nat)
      modifies this
      ensures Drafts() == EndOperation(old(Drafts()), token)
    {
      var scope := OperationScope(Drafts(), token);
      liveScopes := liveScopes - {token};
      if scope.None? || Read(Drafts(), scope.value).pending != Some(token) { return; }
      WriteDraft(scope.value, Read(Drafts(), scope.value).(pending := None));
    }

    method ForgetDraft(key: string)
      modifies this
      ensures Drafts() == Forget(old(Drafts()), key)
    {
      if key == "" { return; }
      entries := entries - {key};
      DropTokensFor(key);
    }

    method DropTokensFor(key: string)
      modifies this`liveScopes
      ensures liveScopes == map token | token in old(liveScopes) && old(liveScopes)[token] != key :: old(liveScopes)[token]
    {
      var tokens := liveScopes.Keys;
      while tokens != {}
        invariant tokens <= old(liveScopes).Keys
        invariant forall token :: token in liveScopes <==>
          token in old(liveScopes) && (token in tokens || old(liveScopes)[token] != key)
        invariant forall token :: token in liveScopes ==> liveScopes[token] == old(liveScopes)[token]
      {
        var token :| token in tokens;
        tokens := tokens - {token};
        if liveScopes[token] == key {
          liveScopes := liveScopes - {token};
        }
      }
    }
  }
}
