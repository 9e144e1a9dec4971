/**
 chur-init's delivery of the secret: write to a temporary file, rename, chmod.
 The container may crash between any two effects on the file system and be
 started again on what it left, with a freshly fetched secret.
 */
module Delivery {
  import opened BoundedRead
  import opened Wrappers

  /** 0640 */
  const MODE := 416

  datatype File = File(content: Bytes, mode: nat)

  type Files = map<string, File>

  /** How far the current run has come, and with which secret. */
  datatype Phase =
    | Start
    | Ready(secret: Bytes)
    | Writing(secret: Bytes, done: nat)
    | Written(secret: Bytes)
    | Renamed(secret: Bytes)
    | Done(secret: Bytes)
    | Exited

  /** `fetched` is history: every secret some run accepted for delivery. */
  datatype State = State(files: Files, phase: Phase, fetched: set<Bytes>)

  /** Where the secret goes, the temporary name beside it, and the size limit. */
  datatype Target = Target(path: string, tmp: string, maxBytes: int)

  /** The octal digits: the owner reads and writes, the group reads, others have nothing. */
  predicate Mode0640(mode: nat) {
    mode / 64 == 6 && mode / 8 % 8 == 4 && mode % 8 == 0
  }

  // ---- Steps -------------------------------------------------------------------------

  predicate Accept(g: Target, s: State, t: State, secret: Bytes) {
    && s.phase == Start && |secret| <= g.maxBytes
    && t == s.(phase := Ready(secret), fetched := s.fetched + {secret})
  }

  /** The secret was missing or too large, or the directory could not be made. */
  predicate GiveUp(s: State, t: State) {
    (s.phase == Start || s.phase.Ready?) && t == s.(phase := Exited)
  }

  /** open(2) with O_CREATE|O_TRUNC: a leftover keeps its mode, a new file gets 0640 less the umask. */
  predicate Open(g: Target, s: State, t: State, mode: nat) {
    && s.phase.Ready? && (g.tmp in s.files ==> mode == s.files[g.tmp].mode)
    && t == s.(phase := Writing(s.phase.secret, 0), files := s.files[g.tmp := File([], mode)])
  }

  predicate WriteTo(g: Target, s: State, t: State, done: nat) {
    && s.phase.Writing? && s.phase.done < done <= |s.phase.secret| && g.tmp in s.files
    && t == s.(phase := Writing(s.phase.secret, done),
               files := s.files[g.tmp := File(s.phase.secret[..done], s.files[g.tmp].mode)])
  }

  predicate Close(s: State, t: State) {
    s.phase.Writing? && s.phase.done == |s.phase.secret| && t == s.(phase := Written(s.phase.secret))
  }

  /** A write or rename failed; os.Remove on the temporary file may fail as well. */
  predicate CleanUp(g: Target, s: State, t: State) {
    && (s.phase.Ready? || s.phase.Writing? || s.phase.Written?)
    && (t == s.(phase := Exited) || t == s.(phase := Exited, files := s.files - {g.tmp}))
  }

  predicate Rename(g: Target, s: State, t: State) {
    && s.phase.Written? && g.tmp in s.files
    && t == s.(phase := Renamed(s.phase.secret), files := s.files[g.path := s.files[g.tmp]] - {g.tmp})
  }

  predicate Chmod(g: Target, s: State, t: State) {
    && s.phase.Renamed? && g.path in s.files
    && t == s.(phase := Done(s.phase.secret), files := s.files[g.path := s.files[g.path].(mode := MODE)])
  }

  predicate ChmodFails(s: State, t: State) {
    s.phase.Renamed? && t == s.(phase := Exited)
  }

  ghost predicate InitStep(g: Target, s: State, t: State) {
    || (exists secret :: Accept(g, s, t, secret))
    || GiveUp(s, t)
    || (exists mode: nat :: Open(g, s, t, mode))
    || (exists done: nat :: WriteTo(g, s, t, done))
    || Close(s, t) || CleanUp(g, s, t) || Rename(g, s, t) || Chmod(g, s, t) || ChmodFails(s, t)
  }

  /** Killed at any point, or restarted after an exit: the files stay, the run starts over. */
  predicate Restart(s: State, t: State) {
    t == s.(phase := Start)
  }

  ghost predicate Step(g: Target, s: State, t: State) {
    InitStep(g, s, t) || Restart(s, t)
  }

  predicate Init(s: State) {
    s.phase == Start && s.fetched == {}
  }

  ghost predicate IsRun(g: Target, run: seq<State>) {
    |run| > 0 && g.path != g.tmp && Init(run[0]) && forall i | 0 < i < |run| :: Step(g, run[i - 1], run[i])
  }

  // ---- Crash consistency -----------------------------------------------------------------

  function Lookup(files: Files, path: string): Option<File> {
    if path in files then Some(files[path]) else None
  }

  /** The target is as it was at the beginning, or holds all of some accepted secret. */
  predicate WholeOrOld(g: Target, before: Option<File>, s: State) {
    || Lookup(s.files, g.path) == before
    || (g.path in s.files && s.files[g.path].content in s.fetched)
  }

  predicate Inv(g: Target, before: Option<File>, s: State) {
    && WholeOrOld(g, before, s)
    && (forall secret | secret in s.fetched :: |secret| <= g.maxBytes)
    && (match s.phase
        case Start => true
        case Exited => true
        case Ready(secret) => secret in s.fetched
        case Writing(secret, done) =>
          && secret in s.fetched && done <= |secret|
          && g.tmp in s.files && s.files[g.tmp].content == secret[..done]
        case Written(secret) => secret in s.fetched && g.tmp in s.files && s.files[g.tmp].content == secret
        case Renamed(secret) => secret in s.fetched && g.path in s.files && s.files[g.path].content == secret
        case Done(secret) => secret in s.fetched && g.path in s.files && s.files[g.path] == File(secret, MODE))
  }

  lemma StepKeepsInv(g: Target, before: Option<File>, s: State, t: State)
    requires g.path != g.tmp && Inv(g, before, s) && Step(g, s, t)
    ensures Inv(g, before, t)
  {
    if Close(s, t) {
      assert s.phase.secret[..|s.phase.secret|] == s.phase.secret;
    }
  }

  /**
   At every step, whatever crashed before, the target is untouched or holds a
   whole secret within the size limit, never a part of one.
   */
  lemma {:induction false} NeverPartial(g: Target, run: seq<State>, k: nat)
    requires IsRun(g, run) && k < |run|
    ensures Inv(g, Lookup(run[0].files, g.path), run[k])
    ensures Lookup(run[k].files, g.path) == Lookup(run[0].files, g.path) ||
            (g.path in run[k].files && run[k].files[g.path].content in run[k].fetched
             && |run[k].files[g.path].content| <= g.maxBytes)
  {
    if k > 0 {
      NeverPartial(g, run, k - 1);
      StepKeepsInv(g, Lookup(run[0].files, g.path), run[k - 1], run[k]);
    }
  }

  /** A completed run leaves exactly its own secret, with mode 0640, and no temporary file. */
  lemma {:induction false} CompletedRun(g: Target, run: seq<State>, k: nat)
    requires IsRun(g, run) && k < |run| && run[k].phase.Done?
    ensures var f := Lookup(run[k].files, g.path);
            f.Some? && f.value.content == run[k].phase.secret && Mode0640(f.value.mode)
    ensures g.tmp !in run[k].files
  {
    NeverPartial(g, run, k);
    NoLeftover(g, run, k);
  }

  lemma {:induction false} NoLeftover(g: Target, run: seq<State>, k: nat)
    requires IsRun(g, run) && k < |run| && (run[k].phase.Renamed? || run[k].phase.Done?)
    ensures g.tmp !in run[k].files
  {
    assert Step(g, run[k - 1], run[k]);
    if run[k].phase.Done? {
      assert Chmod(g, run[k - 1], run[k]);
      NoLeftover(g, run, k - 1);
    }
  }

  /** Nothing but the target and the temporary name is ever touched. */
  lemma {:induction false} OtherFilesUntouched(g: Target, run: seq<State>, k: nat, path: string)
    requires IsRun(g, run) && k < |run| && path != g.path && path != g.tmp
    ensures Lookup(run[k].files, path) == Lookup(run[0].files, path)
  {
    if k > 0 {
      OtherFilesUntouched(g, run, k - 1, path);
      assert Step(g, run[k - 1], run[k]);
    }
  }

  // ---- The program ---------------------------------------------------------------------------

  /** The file system as chur-init changes it, with the history of all its states. */
  class Disk {
    var files: Files
    ghost var history: seq<State>

    constructor (files: Files)
      ensures this.files == files && history == [State(files, Start, {})]
    {
      this.files := files;
      history := [State(files, Start, {})];
    }

    ghost predicate Valid(g: Target)
      reads this
    {
      IsRun(g, history) && Now().files == files
    }

    ghost function Now(): State
      requires |history| > 0
      reads this
    {
      history[|history| - 1]
    }

    ghost method Record(g: Target, next: State)
      requires |history| > 0 && IsRun(g, history) && Step(g, Now(), next) && next.files == files
      modifies this`history
      ensures Valid(g) && history == old(history) + [next]
    {
      history := history + [next];
    }
  }

  lemma OpenIsStep(g: Target, s: State, t: State, mode: nat)
    requires Open(g, s, t, mode)
    ensures Step(g, s, t)
  {
  }

  lemma WriteIsStep(g: Target, s: State, t: State, done: nat)
    requires WriteTo(g, s, t, done)
    ensures Step(g, s, t)
  {
  }

  /** os.WriteFile: the bytes arrive in pieces of any size, and it may fail at any of them. */
  method WriteFile(disk: Disk, g: Target, secret: Bytes) returns (ok: bool)
    requires disk.Valid(g) && disk.Now().phase == Ready(secret)
    modifies disk
    ensures disk.Valid(g) && old(disk.history) <= disk.history
    ensures if ok then disk.Now().phase == Written(secret) else disk.Now().phase.Ready? || disk.Now().phase.Writing?
  {
    var openOk: bool := *;
    if !openOk {
      return false;
    }
    var mode: nat := *;
    if g.tmp in disk.files {
      mode := disk.files[g.tmp].mode;
    }
    ghost var now := disk.Now();
    disk.files := disk.files[g.tmp := File([], mode)];
    ghost var next := now.(phase := Writing(secret, 0), files := disk.files);
    OpenIsStep(g, now, next, mode);
    disk.Record(g, next);
    var done := 0;
    while done < |secret|
      invariant done <= |secret|
      invariant disk.Valid(g) && old(disk.history) <= disk.history
      invariant disk.Now().phase == Writing(secret, done) && g.tmp in disk.files
    {
      var failed: bool := *;
      if failed {
        return false;
      }
      var more: nat :| done < more <= |secret|;
      now := disk.Now();
      disk.files := disk.files[g.tmp := File(secret[..more], disk.files[g.tmp].mode)];
      next := now.(phase := Writing(secret, more), files := disk.files);
      WriteIsStep(g, now, next, more);
      disk.Record(g, next);
      done := more;
    }
    now := disk.Now();
    next := now.(phase := Written(secret));
    assert Close(now, next);
    disk.Record(g, next);
    return true;
  }

  /** os.Remove(tmpPath), whose own error is ignored, then exit. */
  method RemoveTmp(disk: Disk, g: Target)
    requires disk.Valid(g)
    requires disk.Now().phase.Ready? || disk.Now().phase.Writing? || disk.Now().phase.Written?
    modifies disk
    ensures disk.Valid(g) && disk.Now().phase == Exited && old(disk.history) <= disk.history
  {
    var removed: bool := *;
    ghost var now := disk.Now();
    if removed {
      disk.files := disk.files - {g.tmp};
    }
    ghost var next := now.(phase := Exited, files := disk.files);
    assert CleanUp(g, now, next);
    disk.Record(g, next);
  }

  /** os.Rename, then os.Chmod. */
  method Publish(disk: Disk, g: Target, secret: Bytes) returns (ok: bool)
    requires disk.Valid(g) && disk.Now().phase == Written(secret)
    modifies disk
    ensures disk.Valid(g) && old(disk.history) <= disk.history
    ensures disk.Now().phase == if ok then Done(secret) else Exited
  {
    var renamed: bool := *;
    if !renamed {
      RemoveTmp(disk, g);
      return false;
    }
    NeverPartial(g, disk.history, |disk.history| - 1);
    ghost var now := disk.Now();
    disk.files := disk.files[g.path := disk.files[g.tmp]] - {g.tmp};
    ghost var next := now.(phase := Renamed(secret), files := disk.files);
    assert Rename(g, now, next);
    disk.Record(g, next);
    ok := *;
    if ok {
      disk.files := disk.files[g.path := disk.files[g.path].(mode := MODE)];
    }
    ghost var last := next.(phase := if ok then Done(secret) else Exited, files := disk.files);
    assert Chmod(g, next, last) || ChmodFails(next, last);
    disk.Record(g, last);
  }

  /** main from the size check on: each effect is recorded before the next one, so a crash may fall on any of them. */
  method Deliver(disk: Disk, g: Target, secret: Bytes) returns (code: int)
    requires disk.Valid(g) && disk.Now().phase == Start
    modifies disk
    ensures disk.Valid(g) && old(disk.history) <= disk.history
    ensures code == 0 ==>
              && |secret| <= g.maxBytes && g.path in disk.files
              && disk.files[g.path].content == secret && Mode0640(disk.files[g.path].mode)
    ensures code != 0 ==> disk.Now().phase == Exited
    ensures |secret| > g.maxBytes ==> code != 0 && disk.files == old(disk.files)
  {
    ghost var now := disk.Now();
    if |secret| > g.maxBytes {
      assert GiveUp(now, now.(phase := Exited));
      disk.Record(g, now.(phase := Exited));
      return 1;
    }
    ghost var ready := now.(phase := Ready(secret), fetched := now.fetched + {secret});
    assert Accept(g, now, ready, secret);
    disk.Record(g, ready);
    var madeDir: bool := *;
    if !madeDir {
      assert GiveUp(ready, ready.(phase := Exited));
      disk.Record(g, ready.(phase := Exited));
      return 1;
    }
    var ok := WriteFile(disk, g, secret);
    if !ok {
      RemoveTmp(disk, g);
      return 1;
    }
    ok := Publish(disk, g, secret);
    if !ok {
      return 1;
    }
    CompletedRun(g, disk.history, |disk.history| - 1);
    return 0;
  }

  /** A crash may fall anywhere, and a fresh start may deliver any secret within the limit. */
  lemma AnythingMayHappen(g: Target, s: State, secret: Bytes)
    ensures Step(g, s, s.(phase := Start))
    ensures s.phase == Start && |secret| <= g.maxBytes ==>
              Step(g, s, s.(phase := Ready(secret), fetched := s.fetched + {secret}))
  {
    assert Restart(s, s.(phase := Start));
    if s.phase == Start && |secret| <= g.maxBytes {
      assert Accept(g, s, s.(phase := Ready(secret), fetched := s.fetched + {secret}), secret);
    }
  }
}
