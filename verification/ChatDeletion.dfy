/** Deleting a chat: its worktree, its branch, its session file and, last, its record. Each
    effect has a checkpoint in the database; a resume after a crash looks again before each. */
module ChatDeletion {
  import opened Options
  import opened Steps
  import opened ChatCreation

  datatype FileId = FileId(path: string, inode: nat)

  datatype Deletion = Deletion(branchHead: string, worktreeRemoved: bool, branchRemoved: bool,
                               session: Option<FileId>, sessionRemoved: bool)

  /** What belongs to one chat, and the branches of its repository. */
  datatype Scene = Scene(chat: Option<Chat>, deletion: Option<Deletion>, dir: Option<Directory>,
                         branches: map<string, string>, sessions: map<string, nat>)

  /** The worktree is the chat's own, clean, on its branch, at the recorded head. */
  predicate WorktreeOwned(s: Scene, chat: Chat, d: Deletion) {
    && s.dir.Some? && s.dir.value.root == chat.root && s.dir.value.worktree.Some?
    && var t := s.dir.value.worktree.value;
       t.gitDir == chat.gitDir && t.head == d.branchHead && t.branch == Some(chat.branch) && t.pristine
  }

  /** The worktree is the chat's own and clean, and on its branch. */
  predicate CleanOwn(s: Scene)
    requires s.chat.Some?
  {
    && s.dir.Some? && s.dir.value.root == s.chat.value.root && s.dir.value.worktree.Some?
    && var t := s.dir.value.worktree.value;
       t.gitDir == s.chat.value.gitDir && t.branch == Some(s.chat.value.branch) && t.pristine
  }

  /** The file at the path of the session, if there is one, is recorded and still to be removed. */
  predicate SessionRecorded(s: Scene, session: Option<string>, d: Deletion) {
    if session.Some? && session.value in s.sessions
    then d.session == Some(FileId(session.value, s.sessions[session.value])) && !d.sessionRemoved
    else d.session.None? && d.sessionRemoved
  }

  predicate SessionThere(s: Scene, d: Deletion) {
    d.session.Some? && d.session.value.path in s.sessions
  }

  /** Another file is where the recorded session was. */
  predicate SessionReplaced(s: Scene, d: Deletion) {
    !d.sessionRemoved && SessionThere(s, d) && s.sessions[d.session.value.path] != d.session.value.inode
  }

  /** The schema's rule, and what each checkpoint means while nobody else writes. */
  predicate BeingDeleted(s: Scene) {
    && s.chat.Some? && s.deletion.Some?
    && var chat, d := s.chat.value, s.deletion.value;
       && (d.session.None? ==> d.sessionRemoved)
       && (d.worktreeRemoved ==> s.dir.None?)
       && (d.branchRemoved ==> chat.branch !in s.branches)
       && (d.sessionRemoved ==> !SessionThere(s, d))
  }

  /** Whatever is still there is what was recorded. */
  predicate Untouched(s: Scene)
    requires s.chat.Some? && s.deletion.Some?
  {
    var chat, d := s.chat.value, s.deletion.value;
    && (s.dir.Some? ==> WorktreeOwned(s, chat, d))
    && (chat.branch in s.branches ==> s.branches[chat.branch] == d.branchHead)
    && !SessionReplaced(s, d)
  }

  /** The record, and with it the chat row, is gone, and nothing of the chat is left. */
  predicate Deleted(s: Scene, chat: Chat, d: Deletion) {
    s.chat.None? && s.deletion.None? && s.dir.None? && chat.branch !in s.branches && !SessionThere(s, d)
  }

  /** The chat's row is there as long as anything the chat owns is. */
  predicate RecordLast(s: Scene, chat: Chat, d: Deletion) {
    s.dir.Some? || chat.branch in s.branches || SessionThere(s, d) ==> s.chat == Some(chat) && s.deletion.Some?
  }

  /** A branch that has moved off its recorded head keeps its head, other branches and other
      sessions, and the worktree unless it is gone, are as they were, and no session but the
      recorded one is removed. */
  ghost predicate ElseKept(before: Scene, after: Scene, chat: Chat, d: Deletion) {
    && (after.dir == before.dir || after.dir.None?)
    && (forall n :: n in after.branches ==> n in before.branches && after.branches[n] == before.branches[n])
    && (forall n ::
          n in before.branches && (n != chat.branch || before.branches[n] != d.branchHead) ==> n in after.branches)
    && (forall p :: p in after.sessions ==> p in before.sessions && after.sessions[p] == before.sessions[p])
    && (forall p ::
        p in before.sessions && (d.session.None? || d.session.value != FileId(p, before.sessions[p]))
        ==> p in after.sessions)
  }

  /** The same claim on record, perhaps further along. */
  predicate SameRecord(d: Deletion, e: Deletion) {
    d.branchHead == e.branchHead && d.session == e.session
  }

  /** The record of `d` with the flags `e` has reached. */
  predicate Further(d: Deletion, e: Deletion) {
    && SameRecord(d, e)
    && (d.worktreeRemoved ==> e.worktreeRemoved) && (d.branchRemoved ==> e.branchRemoved) && (d.sessionRemoved
        ==> e.sessionRemoved)
  }

  /** Where a resume may stop: the deletion goes on or is complete, and nothing else changed. */
  ghost predicate Resumable(before: Scene, after: Scene, chat: Chat, d: Deletion) {
    && (|| (BeingDeleted(after) && after.chat == Some(chat) && Further(d, after.deletion.value))
        || Deleted(after, chat, d))
    && ElseKept(before, after, chat, d)
  }

  /** The branch goes once the worktree is on record as gone, and the session once the branch is. */
  predicate Stagewise(before: Scene, after: Scene) {
    && (after.branches != before.branches && after.deletion.Some? ==> after.deletion.value.worktreeRemoved)
    && (after.sessions != before.sessions && after.deletion.Some? ==>
          after.deletion.value.worktreeRemoved && after.deletion.value.branchRemoved)
  }

  class Deletions {
    var scene: Scene
    ghost var faults: nat
    ghost var crashes: nat

    constructor (scene: Scene)
      ensures this.scene == scene && faults == crashes == 0
    {
      this.scene := scene;
      faults, crashes := 0, 0;
    }

    method Interrupt() returns (r: Step)
      modifies `faults, `crashes
      ensures faults == old(faults) + Tick(r.Failed?) && crashes == old(crashes) + Tick(r.Crashed?)
    {
      r := AnyStep();
      faults, crashes := faults + Tick(r.Failed?), crashes + Tick(r.Crashed?);
    }

    method Change(after: Scene) returns (r: Step)
      modifies `scene, `faults, `crashes
      ensures crashes == old(crashes) + Tick(r.Crashed?)
      ensures scene == old(scene) || scene == after
      ensures r.Done? ==> scene == after
      ensures r.Failed? ==> faults > old(faults)
      ensures faults >= old(faults)
    {
      r := Interrupt();
      if !r.Done? { return; }
      scene := after;
      r := Interrupt();
    }

    /** Records the deletion of a chat whose worktree is its own and clean: the commit it is at,
        and the file there is at the path of its session, if there is one. */
    method PrepareChatDeletion(session: Option<string>) returns (r: Outcome)
      requires scene.chat.Some?
      requires scene.deletion.Some? ==> BeingDeleted(scene)
      modifies `scene, `faults, `crashes
      ensures crashes == old(crashes) + Tick(r.Died?)
      ensures faults >= old(faults)
      ensures scene == old(scene).(deletion := scene.deletion)
      ensures old(scene).deletion.Some? ==> scene == old(scene)
      ensures r.Finished? ==> scene.deletion.Some?
      ensures scene != old(scene) ==>
                && BeingDeleted(scene) && WorktreeOwned(scene, scene.chat.value, scene.deletion.value)
                && SessionRecorded(scene, session, scene.deletion.value)
      ensures r.Refused? ==> faults > old(faults) || !CleanOwn(old(scene))
    {
      if scene.deletion.Some? { return Finished; }
      var step := Interrupt();
      if !step.Done? { return if step.Crashed? then Died else Refused; }
      if !CleanOwn(scene) { return Refused; }
      var recorded := if session.Some? && session.value in scene.sessions
                      then Some(FileId(session.value, scene.sessions[session.value])) else None;
      var d := Deletion(scene.dir.value.worktree.value.head, false, false, recorded, recorded.None?);
      step := Change(scene.(deletion := Some(d)));
      r := match step case Done => Finished case Failed => Refused case Crashed => Died;
    }

    /** False when the session is gone already; `Refused` when it has been replaced. */
    method ValidateDeletionSession(d: Deletion) returns (r: Outcome, there: bool)
      requires d.session.None? ==> d.sessionRemoved
      modifies `faults, `crashes
      ensures crashes == old(crashes) + Tick(r.Died?)
      ensures faults >= old(faults)
      ensures r.Finished? ==> !SessionReplaced(scene, d) && (there <==> !d.sessionRemoved && SessionThere(scene, d))
      ensures r.Refused? ==> faults > old(faults) || SessionReplaced(scene, d)
    {
      if d.sessionRemoved { return Finished, false; }
      var step := Interrupt();
      if !step.Done? { return if step.Crashed? then Died else Refused, false; }
      if !SessionThere(scene, d) { return Finished, false; }
      if scene.sessions[d.session.value.path] != d.session.value.inode { return Refused, false; }
      return Finished, true;
    }

    method RemoveWorktreeStage(chat: Chat, d: Deletion) returns (r: Outcome)
      requires BeingDeleted(scene) && scene.chat == Some(chat) && Further(d, scene.deletion.value)
      modifies `scene, `faults, `crashes
      ensures crashes == old(crashes) + Tick(r.Died?)
      ensures faults >= old(faults)
      ensures scene == old(scene).(dir := scene.dir, deletion := scene.deletion)
      ensures scene.dir == old(scene).dir || (scene.dir.None? && WorktreeOwned(old(scene), chat, d))
      ensures BeingDeleted(scene) && Further(d, scene.deletion.value)
      ensures r.Finished? ==> scene.deletion.value.worktreeRemoved || d.worktreeRemoved
      ensures r.Refused? ==> faults > old(faults) || (old(scene).dir.Some? && !WorktreeOwned(old(scene), chat, d))
      ensures old(scene).dir.Some? && !WorktreeOwned(old(scene), chat, d) ==> scene == old(scene) && !r.Finished?
    {
      if d.worktreeRemoved { return Finished; }
      var step := Interrupt();
      if !step.Done? { return if step.Crashed? then Died else Refused; }
      if scene.dir.Some? {
        if !WorktreeOwned(scene, chat, d) { return Refused; }
        step := Change(scene.(dir := None));
        if !step.Done? { return if step.Crashed? then Died else Refused; }
      }
      step := Change(scene.(deletion := Some(scene.deletion.value.(worktreeRemoved := true))));
      r := match step case Done => Finished case Failed => Refused case Crashed => Died;
    }

    method RemoveBranchStage(chat: Chat, d: Deletion) returns (r: Outcome)
      requires BeingDeleted(scene) && scene.chat == Some(chat) && Further(d, scene.deletion.value)
      modifies `scene, `faults, `crashes
      ensures crashes == old(crashes) + Tick(r.Died?)
      ensures faults >= old(faults)
      ensures scene == old(scene).(branches := scene.branches, deletion := scene.deletion)
      ensures ElseKept(old(scene), scene, chat, d)
      ensures BeingDeleted(scene) && Further(d, scene.deletion.value)
      ensures old(scene).deletion.value.worktreeRemoved ==> scene.deletion.value.worktreeRemoved
      ensures r.Finished? ==> scene.deletion.value.branchRemoved || d.branchRemoved
      ensures r.Refused? ==>
          faults > old(faults) || (chat.branch in old(scene).branches
                && old(scene).branches[chat.branch] != d.branchHead)
    {
      if d.branchRemoved { return Finished; }
      var step := Interrupt();
      if !step.Done? { return if step.Crashed? then Died else Refused; }
      if chat.branch in scene.branches {
        if scene.branches[chat.branch] != d.branchHead { return Refused; }
        step := Change(scene.(branches := scene.branches - {chat.branch}));
        if !step.Done? { return if step.Crashed? then Died else Refused; }
      }
      step := Change(scene.(deletion := Some(scene.deletion.value.(branchRemoved := true))));
      r := match step case Done => Finished case Failed => Refused case Crashed => Died;
    }

    method RemoveSessionStage(chat: Chat, d: Deletion) returns (r: Outcome)
      requires BeingDeleted(scene) && scene.chat == Some(chat) && Further(d, scene.deletion.value)
      requires d.session.None? ==> d.sessionRemoved
      modifies `scene, `faults, `crashes
      ensures crashes == old(crashes) + Tick(r.Died?)
      ensures faults >= old(faults)
      ensures scene == old(scene).(sessions := scene.sessions, deletion := scene.deletion)
      ensures ElseKept(old(scene), scene, chat, d)
      ensures BeingDeleted(scene) && Further(d, scene.deletion.value)
      ensures old(scene).deletion.value.worktreeRemoved ==> scene.deletion.value.worktreeRemoved
      ensures old(scene).deletion.value.branchRemoved ==> scene.deletion.value.branchRemoved
      ensures r.Finished? ==> scene.deletion.value.sessionRemoved || d.sessionRemoved
      ensures r.Refused? ==> faults > old(faults) || SessionReplaced(old(scene), d)
    {
      if d.sessionRemoved { return Finished; }
      var there;
      r, there := ValidateDeletionSession(d);
      if !r.Finished? { return; }
      if there {
        var step := Change(scene.(sessions := scene.sessions - {d.session.value.path}));
        if !step.Done? { return if step.Crashed? then Died else Refused; }
      }
      var step := Change(scene.(deletion := Some(scene.deletion.value.(sessionRemoved := true))));
      r := match step case Done => Finished case Failed => Refused case Crashed => Died;
    }

    method CommitChatDeletion() returns (r: Outcome)
      requires scene.deletion.Some?
      modifies `scene, `faults, `crashes
      ensures crashes == old(crashes) + Tick(r.Died?)
      ensures faults >= old(faults)
      ensures scene == old(scene) || scene == old(scene).(chat := None, deletion := None)
      ensures var d := old(scene).deletion.value;
              !(d.worktreeRemoved && d.branchRemoved && d.sessionRemoved) ==> scene == old(scene) && !r.Finished?
      ensures r.Finished? ==> scene == old(scene).(chat := None, deletion := None)
      ensures var d := old(scene).deletion.value;
              r.Refused? && d.worktreeRemoved && d.branchRemoved && d.sessionRemoved ==> faults > old(faults)
    {
      var d := scene.deletion.value;
      if !(d.worktreeRemoved && d.branchRemoved && d.sessionRemoved) { return Refused; }
      var step := Change(scene.(chat := None, deletion := None));
      r := match step case Done => Finished case Failed => Refused case Crashed => Died;
    }

    /** One resume of a recorded deletion. It refuses only what no longer is what was recorded. */
    method ResumeChatDeletion() returns (r: Outcome)
      requires BeingDeleted(scene)
      modifies `scene, `faults, `crashes
      ensures crashes == old(crashes) + Tick(r.Died?)
      ensures faults >= old(faults)
      ensures var chat, d := old(scene).chat.value, old(scene).deletion.value;
              && Resumable(old(scene), scene, chat, d)
              && RecordLast(scene, chat, d) && Stagewise(old(scene), scene)
              && (SessionReplaced(old(scene), d) ==> scene == old(scene))
              && (r.Finished? ==> Deleted(scene, chat, d))
              && (r.Refused? && Untouched(old(scene)) ==> faults > old(faults))
              && (old(scene).dir.Some? && !WorktreeOwned(old(scene), chat, d) ==> scene == old(scene) && !r.Finished?)
    {
      hide ElseKept, SessionReplaced, SessionThere, WorktreeOwned;
      var chat, d := scene.chat.value, scene.deletion.value;
      ghost var s0 := scene;
      NothingChanged(s0, chat, d);
      var there;
      r, there := ValidateDeletionSession(d);
      if !r.Finished? { return; }
      r := RemoveWorktreeStage(chat, d);
      ghost var s1 := scene;
      WorktreeStep(s0, s1, chat, d);
      if !r.Finished? { return; }
      r := RemoveBranchStage(chat, d);
      ghost var s2 := scene;
      KeptTrans(s0, s1, s2, chat, d);
      BranchStep(s1, s2, chat, d);
      if !r.Finished? { return; }
      r := RemoveSessionStage(chat, d);
      KeptTrans(s0, s2, scene, chat, d);
      if !r.Finished? { return; }
      ghost var s3 := scene;
      r := CommitChatDeletion();
      CommitStep(s0, s3, scene, chat, d);
    }

    /** Any number of resumes, each cut off anywhere, with nobody else writing. While what is
        left is what was recorded, a resume that does not complete met an error or a crash. */
    method DeleteAcrossCrashes(resumes: nat) returns (r: Outcome)
      requires scene.chat.Some? && scene.deletion.Some? && BeingDeleted(scene)
      modifies `scene, `faults, `crashes
      ensures var chat, d := old(scene).chat.value, old(scene).deletion.value;
              Resumable(old(scene), scene, chat, d) && RecordLast(scene, chat, d)
              && (r.Finished? ==> Deleted(scene, chat, d))
              && (r.Refused? && Untouched(old(scene)) ==> faults > old(faults))
              && (Untouched(old(scene)) ==>
                    Deleted(scene, chat, d) || faults + crashes >= old(faults + crashes) + resumes)
              && (Untouched(old(scene)) && resumes > 0 ==>
                    r.Finished? || faults > old(faults) || crashes > old(crashes))
      ensures faults >= old(faults) && crashes >= old(crashes)
    {
      hide BeingDeleted, Deleted, RecordLast, ElseKept, Further, Untouched;
      ghost var chat, d := scene.chat.value, scene.deletion.value;
      ghost var s0 := scene;
      NothingChanged(s0, chat, d);
      r := Died;
      for i := 0 to resumes
        invariant BeingDeleted(scene) && scene.chat == Some(chat) && Resumable(s0, scene, chat, d)
            && RecordLast(scene, chat, d)
        invariant !r.Finished? && faults >= old(faults) && crashes >= old(crashes)
        invariant Untouched(s0) ==> faults + crashes >= old(faults + crashes) + i
        invariant r.Refused? && Untouched(s0) ==> faults > old(faults)
        invariant Untouched(s0) && i > 0 ==> faults > old(faults) || crashes > old(crashes)
      {
        ghost var s := scene;
        FurtherFrom(s0, s, chat, d);
        if Untouched(s0) { StaysUntouched(s0, s); }
        r := ResumeChatDeletion();
        ResumeTrans(s0, s, scene, chat, d, s.deletion.value);
        if r.Finished? || scene.chat.None? {
          if scene.chat.None? { NoChatLeft(s0, scene, chat, d); }
          return;
        }
        StillDeleting(s, scene, chat);
      }
    }

    /** A deletion from its request on: once it is complete nothing of the chat is left, the
        file of its session included, and nothing else is gone. Of a clean worktree with its
        branch at its commit, only errors and crashes keep it from completing. */
    method DeleteChat(session: Option<string>, resumes: nat) returns (r: Outcome)
      requires scene.chat.Some? && scene.deletion.None?
      modifies `scene, `faults, `crashes
      ensures var s, chat := old(scene), old(scene).chat.value;
              && (r.Finished? ==>
                    && scene.chat.None? && scene.deletion.None? && scene.dir.None?
                    && scene.branches == s.branches - {chat.branch}
                    && scene.sessions == s.sessions - (if session.Some? then {session.value} else {}))
              && (CleanOwn(s) && AtHead(s) && faults == old(faults) && crashes == old(crashes) && resumes > 0 ==>
                    r.Finished?)
    {
      hide ElseKept, BeingDeleted, RecordLast, Untouched;
      ghost var s0 := scene;
      r := PrepareChatDeletion(session);
      if !r.Finished? { return; }
      ghost var s1 := scene;
      PreparedUntouched(s0, s1, session);
      r := DeleteAcrossCrashes(resumes);
      if r.Finished? { NothingElseGone(s1, scene, session); }
    }
  }

  /** The branch is where the worktree is. */
  predicate AtHead(s: Scene)
    requires s.chat.Some? && CleanOwn(s)
  {
    var branch := s.chat.value.branch;
    branch in s.branches ==> s.branches[branch] == s.dir.value.worktree.value.head
  }

  lemma PreparedUntouched(s: Scene, t: Scene, session: Option<string>)
    requires s.chat.Some? && s.deletion.None? && t == s.(deletion := t.deletion) && t.deletion.Some?
    requires BeingDeleted(t) && WorktreeOwned(t, t.chat.value, t.deletion.value)
    requires SessionRecorded(t, session, t.deletion.value)
    ensures CleanOwn(s) && AtHead(s) ==> Untouched(t)
  {
  }

  lemma NothingElseGone(s: Scene, t: Scene, session: Option<string>)
    requires s.chat.Some? && s.deletion.Some? && SessionRecorded(s, session, s.deletion.value)
    requires Deleted(t, s.chat.value, s.deletion.value) && ElseKept(s, t, s.chat.value, s.deletion.value)
    ensures t.branches == s.branches - {s.chat.value.branch}
    ensures t.sessions == s.sessions - (if session.Some? then {session.value} else {})
  {
  }

  lemma NothingChanged(s: Scene, chat: Chat, d: Deletion)
    requires BeingDeleted(s) && s.chat == Some(chat) && s.deletion == Some(d)
    ensures Resumable(s, s, chat, d) && RecordLast(s, chat, d)
  {
  }

  lemma WorktreeStep(s0: Scene, s1: Scene, chat: Chat, d: Deletion)
    requires s1 == s0.(dir := s1.dir, deletion := s1.deletion) && s0.deletion == Some(d) && s1.deletion.Some?
    requires s1.dir == s0.dir || s1.dir.None?
    ensures ElseKept(s0, s1, chat, d)
    ensures SessionReplaced(s1, d) == SessionReplaced(s0, d) && SessionThere(s1, d) == SessionThere(s0, d)
  {
  }

  lemma BranchStep(s1: Scene, s2: Scene, chat: Chat, d: Deletion)
    requires s2 == s1.(branches := s2.branches, deletion := s2.deletion)
    ensures SessionReplaced(s2, d) == SessionReplaced(s1, d) && SessionThere(s2, d) == SessionThere(s1, d)
  {
  }

  lemma KeptTrans(a: Scene, b: Scene, c: Scene, chat: Chat, d: Deletion)
    requires ElseKept(a, b, chat, d) && ElseKept(b, c, chat, d)
    ensures ElseKept(a, c, chat, d)
  {
  }

  lemma CommitStep(s0: Scene, s3: Scene, s4: Scene, chat: Chat, d: Deletion)
    requires ElseKept(s0, s3, chat, d)
    requires s4 == s3 || s4 == s3.(chat := None, deletion := None)
    requires BeingDeleted(s3) && s3.chat == Some(chat) && Further(d, s3.deletion.value)
    ensures ElseKept(s0, s4, chat, d)
    ensures s3.deletion.value.worktreeRemoved && s3.deletion.value.branchRemoved
            && s3.deletion.value.sessionRemoved && s4 != s3
            ==> Deleted(s4, chat, d)
  {
  }

  lemma FurtherFrom(s0: Scene, s: Scene, chat: Chat, d: Deletion)
    requires BeingDeleted(s) && s.chat == Some(chat) && Resumable(s0, s, chat, d)
    ensures s.deletion.Some? && Further(d, s.deletion.value) && ElseKept(s0, s, chat, d)
  {
  }

  lemma ResumeTrans(s0: Scene, s: Scene, t: Scene, chat: Chat, d: Deletion, e: Deletion)
    requires Further(d, e) && ElseKept(s0, s, chat, d) && Resumable(s, t, chat, e) && RecordLast(t, chat, e)
    ensures Resumable(s0, t, chat, d) && RecordLast(t, chat, d)
    ensures Deleted(t, chat, e) ==> Deleted(t, chat, d)
  {
  }

  lemma NoChatLeft(s0: Scene, t: Scene, chat: Chat, d: Deletion)
    requires Resumable(s0, t, chat, d) && t.chat.None?
    ensures Deleted(t, chat, d)
  {
  }

  lemma StillDeleting(s: Scene, t: Scene, chat: Chat)
    requires s.deletion.Some? && Resumable(s, t, chat, s.deletion.value) && t.chat.Some?
    ensures BeingDeleted(t) && t.chat == Some(chat)
  {
  }

  /** A crash between an effect and its checkpoint leaves a scene that is still what was
      recorded, so the next resume does not refuse it. */
  lemma StaysUntouched(s: Scene, t: Scene)
    requires BeingDeleted(s) && Untouched(s) && BeingDeleted(t) && t.chat == s.chat
    requires Further(s.deletion.value, t.deletion.value) && ElseKept(s, t, s.chat.value, s.deletion.value)
    ensures Untouched(t)
  {
  }
}
