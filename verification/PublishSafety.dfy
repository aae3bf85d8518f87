/** What publishing keeps over every run with crashes, reruns and publishers side by
    side: xtask/src/publish.rs. */
module PublishSafety {
  import opened Wrappers
  import opened PublishModel

  type Pid = nat

  datatype Publisher = Publisher(release: Release, phase: Phase)

  /** The host, the lock directory with the publisher that made it, and the
      publishers at work. */
  datatype Site = Site(files: Files, process: Option<Hash>, answers: bool, lock: Option<Pid>, publishers: map<Pid, Publisher>)

  datatype Action =
    | Begin(pid: Pid, release: Release)
    | TakeLock(pid: Pid)
    | Step(pid: Pid, chance: Chance)
    | Fail(pid: Pid)
    | Crash(pid: Pid)
    | ClearStaleLock
    | RestartMaster
    | MasterChanges(answers: bool, running: bool)

  function Gone(publishers: map<Pid, Publisher>, pid: Pid): map<Pid, Publisher> {
    map p | p in publishers && p != pid :: publishers[p]
  }

  function Released(lock: Option<Pid>, pid: Pid): Option<Pid> {
    if lock == Some(pid) then None else lock
  }

  ghost predicate Enabled(w: World, s: Site, a: Action) {
    match a
    case Begin(pid, release) => pid !in s.publishers && s.lock != Some(pid) && Prepared(w, release)
    case TakeLock(pid) => pid in s.publishers && s.publishers[pid].phase.Ready?
    case Step(pid, _) => pid in s.publishers && !s.publishers[pid].phase.Ready?
    case Fail(pid) => pid in s.publishers
    case Crash(pid) => pid in s.publishers
    case ClearStaleLock => s.lock.Some? && s.lock.value !in s.publishers
    case RestartMaster => true
    case MasterChanges(_, _) => true
  }

  /** A step's effect on the site; a publisher that ends gives the lock back. */
  function Applied(s: Site, pid: Pid, e: Effect): Site
    requires pid in s.publishers
  {
    if e.phase.Some? then
      s.(files := e.files, process := e.process, publishers := s.publishers[pid := s.publishers[pid].(phase := e.phase.value)])
    else
      s.(files := e.files, process := e.process, lock := Released(s.lock, pid), publishers := Gone(s.publishers, pid))
  }

  ghost function Next(w: World, s: Site, a: Action): Site
    requires Enabled(w, s, a)
  {
    match a
    case Begin(pid, release) => s.(publishers := s.publishers[pid := Publisher(release, Ready)])
    case TakeLock(pid) =>
      if s.lock.Some? then s.(publishers := Gone(s.publishers, pid))
      else s.(lock := Some(pid), publishers := s.publishers[pid := s.publishers[pid].(phase := Locked)])
    case Step(pid, chance) =>
      var p := s.publishers[pid];
      Applied(s, pid, Act(w, p.release, p.phase, s.files, s.process, s.answers, chance))
    case Fail(pid) => s.(lock := Released(s.lock, pid), publishers := Gone(s.publishers, pid))
    case Crash(pid) => s.(publishers := Gone(s.publishers, pid))
    case ClearStaleLock => s.(lock := None)
    case RestartMaster => s.(process := Get(s.files, Bin))
    case MasterChanges(answers, running) => s.(answers := answers, process := if running then s.process else None)
  }

  // ---------- what holds in each phase ----------

  ghost predicate Placed(files: Files, row: Row) {
    Get(files, row.path) == Some(row.sha)
  }

  ghost predicate AllPlaced(files: Files, r: Release) {
    forall row | row in r.rows && !row.role.Manifest? :: Placed(files, row)
  }

  /** Whatever process answers for the master speaks the protocol. */
  ghost predicate Speaks(w: World, process: Option<Hash>, protocol: nat) {
    process.Some? ==> w.protocolOf(process.value) == protocol
  }

  ghost predicate BlobPresent(w: World, files: Files, manifest: Hash) {
    Get(files, Blob(w.manifestOf(manifest).blob)) == Some(w.manifestOf(manifest).blobSha)
  }

  /** Masters are kept under their own hash, and the blob of the live manifest is there. */
  ghost predicate SiteSound(w: World, files: Files) {
    && (forall sha | Master(sha) in files :: files[Master(sha)] == sha)
    && (Live in files ==> BlobPresent(w, files, files[Live]))
  }

  ghost predicate Absent(files: Files, row: Row) {
    row.immutable ==> row.path !in files
  }

  ghost predicate UploadingInv(r: Release, files: Files, need: seq<Row>, done: nat) {
    && done <= |need| && Apart(need)
    && (forall row | row in need :: row in r.rows && Absent(files, row))
    && (forall row | row in r.rows && row !in need :: Placed(files, row))
  }

  ghost predicate PromotingInv(r: Release, files: Files, rows: seq<Row>, done: nat) {
    && done <= |rows| && Apart(rows)
    && (forall k | 0 <= k < |rows| :: rows[k] in r.rows && !rows[k].role.Manifest?)
    && (forall k | done <= k < |rows| :: Absent(files, rows[k]) && Get(files, StagedAt(r, rows[k])) == Some(rows[k].sha))
    && (forall k | 0 <= k < done :: Placed(files, rows[k]))
    && (forall row | row in r.rows && !row.role.Manifest? && row !in rows :: Placed(files, row))
  }

  ghost predicate PointingInv(r: Release, files: Files, target: Hash, current: Option<Hash>, restoring: bool,
          stage: nat) {
    && Master(target) in files
    && (current.Some? ==> Master(current.value) in files)
    && (restoring || target == r.masterSha)
    && (stage == 1 ==> Get(files, BinNew) == Some(target))
    && (stage >= 2 ==> Get(files, Bin) == Some(target))
  }

  ghost predicate ActivatingInv(w: World, r: Release, files: Files, previous: Option<Hash>, stage: nat) {
    && previous == Get(files, Live)
    && (1 <= stage <= 3 ==> Get(files, Staged(r.id, MANIFEST_LOCAL)) == Some(r.manifestSha))
    && (stage >= 2 && previous.Some? ==> Get(files, Replaced(w.short(previous.value))) == previous)
    && (stage >= 4 ==> Get(files, LiveNew) == Some(r.manifestSha))
  }

  ghost predicate SwitchedInv(w: World, r: Release, files: Files, process: Option<Hash>) {
    AllPlaced(files, r) && Get(files, Bin) == Some(r.masterSha) && Speaks(w, process, r.protocol)
  }

  ghost predicate KeptInv(w: World, files: Files, previous: Hash) {
    Get(files, Replaced(w.short(previous))) == Some(previous) && BlobPresent(w, files, previous)
  }

  ghost predicate PhaseInv(w: World, r: Release, p: Phase, files: Files, process: Option<Hash>) {
    match p
    case Ready => true
    case Locked => true
    case Uploading(need, done) => UploadingInv(r, files, need, done)
    case Promoting(rows, done) => PromotingInv(r, files, rows, done)
    case Switching => AllPlaced(files, r)
    case Keeping(current) => AllPlaced(files, r) && (current.Some? ==> current == Get(files, Bin))
    case Pointing(target, current, restoring, stage) =>
      AllPlaced(files, r) && PointingInv(r, files, target, current, restoring, stage)
    case Waiting(current) =>
      AllPlaced(files, r) && Get(files, Bin) == Some(r.masterSha) && (current.Some? ==> Master(current.value) in files)
    case MasterReady => AllPlaced(files, r) && Get(files, Bin) == Some(r.masterSha)
    case Answered => SwitchedInv(w, r, files, process)
    case Activating(previous, stage) => SwitchedInv(w, r, files, process) && ActivatingInv(w, r, files, previous, stage)
    case Serving(previous) => SwitchedInv(w, r, files, process) && Get(files, Live) == Some(r.manifestSha) && (previous.Some? ==> KeptInv(w, files, previous.value))
    case Restoring(kept, installed) =>
      SwitchedInv(w, r, files, process) && KeptInv(w, files, kept) && (installed ==> Get(files, LiveNew) == Some(kept))
    case Cleaning => SwitchedInv(w, r, files, process) && Get(files, Live) == Some(r.manifestSha)
  }

  /** Blobs and masters that are there stay as they are. */
  ghost predicate ImmutableKept(before: Files, after: Files) {
    forall path | path in before && (path.Blob? || path.Master?) :: Get(after, path) == Some(before[path])
  }

  lemma KeptStaysPlaced(r: Release, before: Files, after: Files)
    requires ImmutableKept(before, after) && AllPlaced(before, r)
    requires forall row | row in r.rows :: RowFits(r, row)
    ensures AllPlaced(after, r)
  {}

  /** Only scratch names differ: staged uploads, archived manifests, half-made files. */
  ghost predicate OnlyScratch(before: Files, after: Files) {
    forall path: Path | path.Blob? || path.Master? || path.Live? || path.Bin? :: Get(after, path) == Get(before, path)
  }

  lemma ScratchIsFree(w: World, r: Release, before: Files, after: Files, process: Option<Hash>)
    requires OnlyScratch(before, after) && SiteSound(w, before) && (forall row | row in r.rows :: RowFits(r, row))
    ensures SiteSound(w, after) && ImmutableKept(before, after)
    ensures SwitchedInv(w, r, before, process) ==> SwitchedInv(w, r, after, process)
    ensures AllPlaced(before, r) ==> AllPlaced(after, r)
  {
    forall sha | Master(sha) in after
      ensures after[Master(sha)] == sha
    {
      assert Get(after, Master(sha)) == Get(before, Master(sha));
    }
    assert Get(after, Live) == Get(before, Live);
    assert ImmutableKept(before, after);
    if AllPlaced(before, r) {
      KeptStaysPlaced(r, before, after);
    }
  }

  // ---------- one step of the holder ----------

  /** All that one step must show. */
  ghost predicate StepKeeps(w: World, r: Release, files: Files, e: Effect) {
    && SiteSound(w, e.files)
    && ImmutableKept(files, e.files)
    && (e.phase.Some? ==> !e.phase.value.Ready? && PhaseInv(w, r, e.phase.value, e.files, e.process))
  }

  lemma LockedKeeps(w: World, r: Release, files: Files, process: Option<Hash>, answers: bool, chance: Chance)
    requires Prepared(w, r) && SiteSound(w, files)
    ensures StepKeeps(w, r, files, Act(w, r, Locked, files, process, answers, chance))
  {
    PlanExact(r.rows, files);
    PlanApart(r.rows, files);
  }

  lemma UploadingKeeps(w: World, r: Release, files: Files, process: Option<Hash>, answers: bool, chance: Chance,
          need: seq<Row>, done: nat)
    requires Prepared(w, r) && SiteSound(w, files) && UploadingInv(r, files, need, done)
    ensures StepKeeps(w, r, files, Act(w, r, Uploading(need, done), files, process, answers, chance))
  {
    if done < |need| {
      var after := files[StagedAt(r, need[done]) := chance.landed];
      forall row | row in r.rows
        ensures Get(after, row.path) == Get(files, row.path)
      {
        assert RowFits(r, row);
      }
    } else {
      NonManifestApart(need);
    }
  }

  /** Moving one staged file into place touches no other row. */
  lemma OthersUntouched(r: Release, files: Files, row: Row, other: Row)
    requires RowFits(r, row) && RowFits(r, other) && RowsApart(row, other) && StagedAt(r, row) in files
    ensures var after := Moved(files, StagedAt(r, row), row.path).value;
            Get(after, other.path) == Get(files, other.path) && Get(after, StagedAt(r, other)) == Get(files, StagedAt(r, other))
  {}

  lemma PromoteOne(w: World, r: Release, files: Files, rows: seq<Row>, done: nat)
    requires Prepared(w, r) && PromotingInv(r, files, rows, done) && done < |rows|
    ensures PromotingInv(r, Moved(files, StagedAt(r, rows[done]), rows[done].path).value, rows, done + 1)
  {
    var row := rows[done];
    var after := Moved(files, StagedAt(r, row), row.path).value;
    forall k | 0 <= k < |rows| && k != done
      ensures Get(after, rows[k].path) == Get(files, rows[k].path)
      ensures Get(after, StagedAt(r, rows[k])) == Get(files, StagedAt(r, rows[k]))
    {
      assert if k < done then RowsApart(rows[k], row) else RowsApart(row, rows[k]);
      OthersUntouched(r, files, row, rows[k]);
    }
    forall other | other in r.rows && !other.role.Manifest? && other !in rows
      ensures Placed(after, other)
    {
      RowsAreApart(r, row, other);
      OthersUntouched(r, files, row, other);
    }
  }

  /** A new blob or master at an empty place disturbs nothing that was sound. */
  lemma SoundAfterPromotion(w: World, r: Release, files: Files, row: Row)
    requires SiteSound(w, files) && RowFits(r, row) && !row.role.Manifest? && row.path !in files
    requires Get(files, StagedAt(r, row)) == Some(row.sha)
    ensures var after := Moved(files, StagedAt(r, row), row.path).value; SiteSound(w, after) && ImmutableKept(files, after)
  {}

  lemma PromotingKeeps(w: World, r: Release, files: Files, process: Option<Hash>, answers: bool, chance: Chance,
          rows: seq<Row>, done: nat)
    requires Prepared(w, r) && SiteSound(w, files) && PromotingInv(r, files, rows, done)
    ensures StepKeeps(w, r, files, Act(w, r, Promoting(rows, done), files, process, answers, chance))
  {
    if done < |rows| {
      PromoteOne(w, r, files, rows, done);
      SoundAfterPromotion(w, r, files, rows[done]);
    }
  }

  lemma RowsAreApart(r: Release, a: Row, b: Row)
    requires Apart(r.rows) && a in r.rows && b in r.rows && a != b
    ensures RowsApart(a, b)
  {
    var i :| 0 <= i < |r.rows| && r.rows[i] == a;
    var j :| 0 <= j < |r.rows| && r.rows[j] == b;
    assert if i < j then RowsApart(r.rows[i], r.rows[j]) else RowsApart(r.rows[j], r.rows[i]);
  }

  // ---------- the master and the manifest ----------

  lemma KeepingKeeps(w: World, r: Release, files: Files, process: Option<Hash>, answers: bool, chance: Chance,
          current: Option<Hash>)
    requires Prepared(w, r) && SiteSound(w, files) && PhaseInv(w, r, Keeping(current), files, process)
    ensures StepKeeps(w, r, files, Act(w, r, Keeping(current), files, process, answers, chance))
  {
    var kept := Act(w, r, Keeping(current), files, process, answers, chance).files;
    assert ImmutableKept(files, kept);
    KeptStaysPlaced(r, files, kept);
  }

  /** The installed binary is no blob and no kept master. */
  lemma OnlyBinChanges(w: World, r: Release, before: Files, after: Files)
    requires SiteSound(w, before) && (forall row | row in r.rows :: RowFits(r, row))
    requires forall path: Path | path.Blob? || path.Master? || path.Live? :: Get(after, path) == Get(before, path)
    ensures SiteSound(w, after) && ImmutableKept(before, after) && (AllPlaced(before, r) ==> AllPlaced(after, r))
  {
    forall sha | Master(sha) in after
      ensures after[Master(sha)] == sha
    {
      assert Get(after, Master(sha)) == Get(before, Master(sha));
    }
    assert Get(after, Live) == Get(before, Live);
    assert ImmutableKept(before, after);
    if AllPlaced(before, r) {
      KeptStaysPlaced(r, before, after);
    }
  }

  lemma PointingKeeps(w: World, r: Release, files: Files, process: Option<Hash>, answers: bool, chance: Chance,
          p: Phase)
    requires Prepared(w, r) && SiteSound(w, files) && p.Pointing? && PhaseInv(w, r, p, files, process)
    ensures StepKeeps(w, r, files, Act(w, r, p, files, process, answers, chance))
  {
    var e := PointStep(files, process, p);
    OnlyBinChanges(w, r, files, e.files);
    assert Act(w, r, p, files, process, answers, chance) == e;
    assert p.stage <= 1 ==> PointingInv(r, e.files, p.target, p.current, p.restoring, p.stage + 1);
  }

  /** The steps that only look keep what they rely on. */
  lemma LookingKeeps(w: World, r: Release, files: Files, process: Option<Hash>, answers: bool, chance: Chance, p: Phase)
    requires Prepared(w, r) && SiteSound(w, files) && PhaseInv(w, r, p, files, process)
    requires p.Switching? || p.Waiting? || p.MasterReady? || p.Answered? || p.Serving?
    ensures StepKeeps(w, r, files, Act(w, r, p, files, process, answers, chance))
  {}

  /** The blob of the release's own manifest is one of the placed rows. */
  lemma OwnBlobPresent(w: World, r: Release, files: Files)
    requires Prepared(w, r) && AllPlaced(files, r)
    ensures BlobPresent(w, files, r.manifestSha)
  {
    var row :| row in r.rows && row.role.GameBlob? && row.path == Blob(w.manifestOf(r.manifestSha).blob) && row.sha == w.manifestOf(r.manifestSha).blobSha;
    assert Placed(files, row);
  }

  lemma ActivatingPrepares(w: World, r: Release, files: Files, process: Option<Hash>, previous: Option<Hash>,
          stage: nat)
    requires Prepared(w, r) && SiteSound(w, files) && stage < 4 && PhaseInv(w, r, Activating(previous, stage), files, process)
    ensures StepKeeps(w, r, files, ActivateStep(w, r, files, process, Activating(previous, stage)))
  {
    var e := ActivateStep(w, r, files, process, Activating(previous, stage));
    PreparationStep(w, r, files, process, previous, stage);
    ScratchIsFree(w, r, files, e.files, process);
  }

  /** Each preparation writes its one scratch file. */
  lemma PreparationStep(w: World, r: Release, files: Files, process: Option<Hash>, previous: Option<Hash>, stage: nat)
    requires stage < 4 && ActivatingInv(w, r, files, previous, stage)
    ensures var e := ActivateStep(w, r, files, process, Activating(previous, stage));
            && OnlyScratch(files, e.files) && e.process == process
            && e.phase == Some(Activating(previous, stage + 1))
            && ActivatingInv(w, r, e.files, previous, stage + 1)
  {}

  lemma ActivatingSwitches(w: World, r: Release, files: Files, process: Option<Hash>, previous: Option<Hash>,
          stage: nat)
    requires Prepared(w, r) && SiteSound(w, files) && stage >= 4 && PhaseInv(w, r, Activating(previous, stage), files, process)
    ensures StepKeeps(w, r, files, ActivateStep(w, r, files, process, Activating(previous, stage)))
  {
    var e := ActivateStep(w, r, files, process, Activating(previous, stage));
    assert ImmutableKept(files, e.files);
    KeptStaysPlaced(r, files, e.files);
    OwnBlobPresent(w, r, e.files);
    assert Get(e.files, Live) == Some(r.manifestSha);
    assert SiteSound(w, e.files);
  }

  lemma ActivatingKeeps(w: World, r: Release, files: Files, process: Option<Hash>, answers: bool,
          chance: Chance, p: Phase)
    requires Prepared(w, r) && SiteSound(w, files) && p.Activating? && PhaseInv(w, r, p, files, process)
    ensures StepKeeps(w, r, files, Act(w, r, p, files, process, answers, chance))
  {
    if p.stage < 4 {
      ActivatingPrepares(w, r, files, process, p.previous, p.stage);
    } else {
      ActivatingSwitches(w, r, files, process, p.previous, p.stage);
    }
  }

  lemma RestoringKeeps(w: World, r: Release, files: Files, process: Option<Hash>, answers: bool, chance: Chance,
          p: Phase)
    requires Prepared(w, r) && SiteSound(w, files) && p.Restoring? && PhaseInv(w, r, p, files, process)
    ensures StepKeeps(w, r, files, Act(w, r, p, files, process, answers, chance))
  {
    var after := Act(w, r, p, files, process, answers, chance).files;
    assert ImmutableKept(files, after);
    KeptStaysPlaced(r, files, after);
  }

  lemma CleaningKeeps(w: World, r: Release, files: Files, process: Option<Hash>, answers: bool, chance: Chance)
    requires SiteSound(w, files)
    ensures StepKeeps(w, r, files, Act(w, r, Cleaning, files, process, answers, chance))
  {}

  lemma ActKeeps(w: World, r: Release, files: Files, process: Option<Hash>, answers: bool, chance: Chance, p: Phase)
    requires Prepared(w, r) && SiteSound(w, files) && !p.Ready? && PhaseInv(w, r, p, files, process)
    ensures StepKeeps(w, r, files, Act(w, r, p, files, process, answers, chance))
  {
    match p
    case Locked => LockedKeeps(w, r, files, process, answers, chance);
    case Uploading(need, done) => UploadingKeeps(w, r, files, process, answers, chance, need, done);
    case Promoting(rows, done) => PromotingKeeps(w, r, files, process, answers, chance, rows, done);
    case Keeping(current) => KeepingKeeps(w, r, files, process, answers, chance, current);
    case Pointing(_, _, _, _) => PointingKeeps(w, r, files, process, answers, chance, p);
    case Activating(_, _) => ActivatingKeeps(w, r, files, process, answers, chance, p);
    case Restoring(_, _) => RestoringKeeps(w, r, files, process, answers, chance, p);
    case Cleaning => CleaningKeeps(w, r, files, process, answers, chance);
    case _ => LookingKeeps(w, r, files, process, answers, chance, p);
  }

  // ---------- the whole site ----------

  ghost predicate Inv(w: World, s: Site) {
    && SiteSound(w, s.files)
    && (forall pid | pid in s.publishers :: Prepared(w, s.publishers[pid].release))
    && LockHeld(s)
    && (forall pid | pid in s.publishers :: PublisherInv(w, s, s.publishers[pid]))
  }

  /** Only the publisher named by the lock is past it. */
  ghost predicate LockHeld(s: Site) {
    forall pid | pid in s.publishers && !s.publishers[pid].phase.Ready? :: s.lock == Some(pid)
  }

  ghost predicate PublisherInv(w: World, s: Site, p: Publisher) {
    PhaseInv(w, p.release, p.phase, s.files, s.process)
  }

  /** The master may stop, or start again from the installed binary, at any time. */
  lemma ProcessChanges(w: World, r: Release, p: Phase, files: Files, process: Option<Hash>, other: Option<Hash>)
    requires Prepared(w, r) && PhaseInv(w, r, p, files, process)
    requires other == None || other == process || other == Get(files, Bin)
    ensures PhaseInv(w, r, p, files, other)
  {}

  lemma AppliedKeeps(w: World, s: Site, pid: Pid, e: Effect)
    requires Inv(w, s) && pid in s.publishers && !s.publishers[pid].phase.Ready?
    requires StepKeeps(w, s.publishers[pid].release, s.files, e)
    ensures Inv(w, Applied(s, pid, e))
  {
    var s' := Applied(s, pid, e);
    forall other | other in s'.publishers
      ensures PublisherInv(w, s', s'.publishers[other])
    {
      if other != pid {
        assert s'.publishers[other] == s.publishers[other] && s.publishers[other].phase.Ready?;
      }
    }
  }

  lemma HolderStep(w: World, s: Site, pid: Pid, chance: Chance)
    requires Inv(w, s) && pid in s.publishers && !s.publishers[pid].phase.Ready?
    ensures Inv(w, Next(w, s, Step(pid, chance)))
    ensures ImmutableKept(s.files, Next(w, s, Step(pid, chance)).files)
  {
    var p := s.publishers[pid];
    assert PublisherInv(w, s, p);
    ActKeeps(w, p.release, s.files, s.process, s.answers, chance, p.phase);
    AppliedKeeps(w, s, pid, Act(w, p.release, p.phase, s.files, s.process, s.answers, chance));
  }

  lemma MasterStep(w: World, s: Site, a: Action)
    requires Inv(w, s) && (a.RestartMaster? || a.MasterChanges?)
    ensures Inv(w, Next(w, s, a))
  {
    var s' := Next(w, s, a);
    forall pid | pid in s.publishers
      ensures PublisherInv(w, s', s.publishers[pid])
    {
      assert PublisherInv(w, s, s.publishers[pid]);
      ProcessChanges(w, s.publishers[pid].release, s.publishers[pid].phase, s.files, s.process, s'.process);
    }
  }

  lemma FreshPhase(w: World, r: Release, p: Phase, files: Files, process: Option<Hash>)
    requires p.Ready? || p.Locked?
    ensures PhaseInv(w, r, p, files, process)
  {}

  /** A publisher as it was, or one at its beginning, with a prepared release. */
  ghost predicate SameOrFresh(w: World, s: Site, s': Site, pid: Pid)
    requires pid in s'.publishers
  {
    var p := s'.publishers[pid];
    && ((pid in s.publishers && p.release == s.publishers[pid].release) || Prepared(w, p.release))
    && ((pid in s.publishers && p == s.publishers[pid]) || p.phase.Ready? || p.phase.Locked?)
    && (p.phase.Ready? || s'.lock == Some(pid))
  }

  lemma PublishersChange(w: World, s: Site, s': Site)
    requires Inv(w, s) && s'.files == s.files && s'.process == s.process
    requires forall pid | pid in s'.publishers :: SameOrFresh(w, s, s', pid)
    ensures Inv(w, s')
  {
    forall pid | pid in s'.publishers
      ensures PublisherInv(w, s', s'.publishers[pid])
    {
      assert SameOrFresh(w, s, s', pid);
      if pid in s.publishers && s'.publishers[pid] == s.publishers[pid] {
        assert PublisherInv(w, s, s.publishers[pid]);
      } else {
        FreshPhase(w, s'.publishers[pid].release, s'.publishers[pid].phase, s'.files, s'.process);
      }
    }
    assert forall pid | pid in s'.publishers :: SameOrFresh(w, s, s', pid);
  }

  /** Publishers come and go, and the lock with them. */
  lemma PublisherStep(w: World, s: Site, a: Action)
    requires Inv(w, s) && Enabled(w, s, a) && !a.Step? && !a.RestartMaster? && !a.MasterChanges?
    ensures Inv(w, Next(w, s, a))
  {
    var s' := Next(w, s, a);
    forall pid | pid in s'.publishers
      ensures SameOrFresh(w, s, s', pid)
    {
      OnePublisher(w, s, a, pid);
    }
    PublishersChange(w, s, s');
  }

  lemma OnePublisher(w: World, s: Site, a: Action, pid: Pid)
    requires LockHeld(s) && Enabled(w, s, a) && !a.Step? && !a.RestartMaster? && !a.MasterChanges?
    requires pid in Next(w, s, a).publishers
    ensures SameOrFresh(w, s, Next(w, s, a), pid)
  {
    if a.Begin? && a.pid == pid {
      assert Prepared(w, Next(w, s, a).publishers[pid].release);
    }
  }

  lemma InvStep(w: World, s: Site, a: Action)
    requires Inv(w, s) && Enabled(w, s, a)
    ensures Inv(w, Next(w, s, a))
    ensures ImmutableKept(s.files, Next(w, s, a).files)
  {
    if a.Step? {
      HolderStep(w, s, a.pid, a.chance);
    } else if a.RestartMaster? || a.MasterChanges? {
      MasterStep(w, s, a);
    } else {
      PublisherStep(w, s, a);
    }
  }

  // ---------- runs ----------

  ghost predicate Run(w: World, before: Site, actions: seq<Action>, after: Site)
    decreases |actions|
  {
    if actions == [] then after == before
    else Enabled(w, before, actions[0]) && Run(w, Next(w, before, actions[0]), actions[1..], after)
  }

  /** A host nobody publishes to, whose manifest, if it has one, names a blob that is there. */
  ghost predicate Initial(w: World, s: Site) {
    SiteSound(w, s.files) && s.publishers == map[]
  }

  lemma {:induction false} RunKeeps(w: World, before: Site, actions: seq<Action>, after: Site)
    requires Inv(w, before) && Run(w, before, actions, after)
    ensures Inv(w, after) && ImmutableKept(before.files, after.files)
    decreases |actions|
  {
    if actions != [] {
      var next := Next(w, before, actions[0]);
      InvStep(w, before, actions[0]);
      RunKeeps(w, next, actions[1..], after);
    }
  }

  /** Once there, a blob or a kept master never changes its contents again, whatever
      is published, fails, crashes or runs again. */
  lemma ImmutablesNeverChange(w: World, start: Site, early: seq<Action>, s: Site, late: seq<Action>, s': Site,
          path: Path)
    requires Initial(w, start) && Run(w, start, early, s) && Run(w, s, late, s')
    requires path in s.files && (path.Blob? || path.Master?)
    ensures path in s'.files && s'.files[path] == s.files[path]
  {
    RunKeeps(w, start, early, s);
    RunKeeps(w, s, late, s');
  }

  /** At most one publisher is past the lock. */
  lemma OneHolder(w: World, start: Site, actions: seq<Action>, s: Site, p: Pid, q: Pid)
    requires Initial(w, start) && Run(w, start, actions, s)
    requires p in s.publishers && q in s.publishers && !s.publishers[p].phase.Ready? && !s.publishers[q].phase.Ready?
    ensures p == q
  {
    RunKeeps(w, start, actions, s);
  }

  /** The blob the live manifest names is there at every moment. */
  lemma LiveBlobPresent(w: World, start: Site, actions: seq<Action>, s: Site)
    requires Initial(w, start) && Run(w, start, actions, s) && Live in s.files
    ensures BlobPresent(w, s.files, s.files[Live])
  {
    RunKeeps(w, start, actions, s);
  }

  /** Throwing the switch. */
  ghost predicate GoesLive(w: World, s: Site, a: Action) {
    Enabled(w, s, a) && Live in Next(w, s, a).files && Get(Next(w, s, a).files, Live) != Get(s.files, Live)
  }

  predicate Switches(p: Phase) {
    (p.Activating? && p.stage >= 4) || (p.Restoring? && p.installed)
  }

  lemma QuietStep(w: World, s: Site, pid: Pid, chance: Chance)
    requires Inv(w, s) && pid in s.publishers && !s.publishers[pid].phase.Ready? && !Switches(s.publishers[pid].phase)
    ensures Get(Next(w, s, Step(pid, chance)).files, Live) == Get(s.files, Live)
  {
    var p := s.publishers[pid];
    assert PublisherInv(w, s, p);
    LiveUntouched(w, p.release, s.files, s.process, s.answers, chance, p.phase);
  }

  /** The live manifest changes only when a release is activated, or one is put back. */
  lemma OnlyTwoSwitches(w: World, s: Site, a: Action)
    requires Inv(w, s) && GoesLive(w, s, a)
    ensures a.Step? && Switches(s.publishers[a.pid].phase)
  {
    if a.Step? && !Switches(s.publishers[a.pid].phase) {
      QuietStep(w, s, a.pid, a.chance);
    }
  }

  lemma LiveUntouched(w: World, r: Release, files: Files, process: Option<Hash>, answers: bool, chance: Chance,
          p: Phase)
    requires Prepared(w, r) && !p.Ready? && PhaseInv(w, r, p, files, process)
    requires !Switches(p)
    ensures Get(Act(w, r, p, files, process, answers, chance).files, Live) == Get(files, Live)
  {
    if p.Promoting? && p.done < |p.rows| {
      assert RowFits(r, p.rows[p.done]);
    }
  }

  /** A release's manifest goes live only when every other file of it is in place
      with its recorded hash, the installed master is the release's, and whatever
      master process there is speaks its protocol. */
  lemma GoesLiveReady(w: World, start: Site, actions: seq<Action>, s: Site, a: Action)
    requires Initial(w, start) && Run(w, start, actions, s) && GoesLive(w, s, a)
    requires s.publishers[a.pid].phase.Activating?
    ensures var r := s.publishers[a.pid].release;
            && s.lock == Some(a.pid)
            && Next(w, s, a).files[Live] == r.manifestSha
            && AllPlaced(Next(w, s, a).files, r)
            && Get(s.files, Bin) == Some(r.masterSha)
            && Speaks(w, s.process, r.protocol)
  {
    RunKeeps(w, start, actions, s);
    OnlyTwoSwitches(w, s, a);
    var p := s.publishers[a.pid];
    assert PublisherInv(w, s, p);
    SwitchStep(w, p.release, s.files, s.process, p.phase.previous, p.phase.stage);
  }

  lemma SwitchStep(w: World, r: Release, files: Files, process: Option<Hash>, previous: Option<Hash>, stage: nat)
    requires Prepared(w, r) && stage >= 4 && PhaseInv(w, r, Activating(previous, stage), files, process)
    ensures var after := ActivateStep(w, r, files, process, Activating(previous, stage)).files;
            Get(after, Live) == Some(r.manifestSha) && AllPlaced(after, r)
  {
    var after := ActivateStep(w, r, files, process, Activating(previous, stage)).files;
    assert ImmutableKept(files, after);
    KeptStaysPlaced(r, files, after);
  }

  /** Putting a manifest back brings back the one that was live, and its blob is there;
      but the master stays the new one. Client and master agree afterwards exactly
      when the two releases have one protocol. */
  lemma PutBackAgreesIff(w: World, start: Site, actions: seq<Action>, s: Site, a: Action)
    requires Initial(w, start) && Run(w, start, actions, s) && GoesLive(w, s, a)
    requires s.publishers[a.pid].phase.Restoring?
    ensures var p := s.publishers[a.pid]; var s' := Next(w, s, a);
            && s'.files[Live] == p.phase.kept
            && BlobPresent(w, s'.files, p.phase.kept)
            && (s'.process.Some? ==>
                  (Speaks(w, s'.process, w.manifestOf(p.phase.kept).protocol) <==> w.manifestOf(p.phase.kept).protocol == p.release.protocol))
  {
    RunKeeps(w, start, actions, s);
    OnlyTwoSwitches(w, s, a);
    assert PublisherInv(w, s, s.publishers[a.pid]);
    InvStep(w, s, a);
  }

  lemma NoCollisions(w: World, r: Release, p: Phase, files: Files, process: Option<Hash>, row: Row)
    requires Prepared(w, r) && PhaseInv(w, r, p, files, process) && !p.Ready? && !p.Locked? && row in r.rows
    ensures !Collides(files, row)
  {
    assert RowFits(r, row);
    if p.Promoting? && row in p.rows {
      var k :| 0 <= k < |p.rows| && p.rows[k] == row;
    }
  }

  /** Wherever a publisher stops after its plan was made, publishing the same release
      again from there finds no collision, and has nothing to upload twice. */
  lemma RerunResumes(w: World, start: Site, actions: seq<Action>, s: Site, pid: Pid)
    requires Initial(w, start) && Run(w, start, actions, s) && pid in s.publishers
    requires !s.publishers[pid].phase.Ready? && !s.publishers[pid].phase.Locked?
    ensures var rows := s.publishers[pid].release.rows;
            && Plan(rows, s.files).Ok?
            && forall row :: row in Plan(rows, s.files).value <==> row in rows && !Placed(s.files, row)
  {
    RunKeeps(w, start, actions, s);
    var p := s.publishers[pid];
    assert PublisherInv(w, s, p);
    PlanExact(p.release.rows, s.files);
    forall row | row in p.release.rows
      ensures !Collides(s.files, row)
    {
      NoCollisions(w, p.release, p.phase, s.files, s.process, row);
    }
  }

  /** The release is live and served: manifest, blob and master are in place, nothing of
      it is left staged, and the lock is given back. */
  ghost predicate Published(w: World, s: Site, pid: Pid, r: Release) {
    && Get(s.files, Live) == Some(r.manifestSha) && AllPlaced(s.files, r) && BlobPresent(w, s.files, r.manifestSha)
    && Get(s.files, Bin) == Some(r.masterSha) && Speaks(w, s.process, r.protocol)
    && (forall local :: Staged(r.id, local) !in s.files)
    && s.lock == None && pid !in s.publishers
  }

  lemma CleaningEnds(w: World, s: Site, pid: Pid, chance: Chance)
    requires Inv(w, s) && pid in s.publishers && s.publishers[pid].phase.Cleaning?
    ensures Published(w, Next(w, s, Step(pid, chance)), pid, s.publishers[pid].release)
  {
    var p := s.publishers[pid];
    assert PublisherInv(w, s, p);
    CleanedUp(w, p.release, s.files, s.process, s.answers, chance);
  }

  /** In every run, a publisher that gets to its end leaves its release published. */
  lemma PublishedServes(w: World, start: Site, actions: seq<Action>, s: Site, pid: Pid, chance: Chance)
    requires Initial(w, start) && Run(w, start, actions, s) && pid in s.publishers && s.publishers[pid].phase.Cleaning?
    ensures Published(w, Next(w, s, Step(pid, chance)), pid, s.publishers[pid].release)
  {
    RunKeeps(w, start, actions, s);
    CleaningEnds(w, s, pid, chance);
  }

  lemma CleanedUp(w: World, r: Release, files: Files, process: Option<Hash>, answers: bool, chance: Chance)
    requires Prepared(w, r) && SiteSound(w, files) && PhaseInv(w, r, Cleaning, files, process)
    ensures var e := Act(w, r, Cleaning, files, process, answers, chance);
            && e.phase.None? && e.process == process
            && Get(e.files, Live) == Some(r.manifestSha) && Get(e.files, Bin) == Some(r.masterSha)
            && AllPlaced(e.files, r) && BlobPresent(w, e.files, r.manifestSha)
            && forall local :: Staged(r.id, local) !in e.files
  {
    var after := Act(w, r, Cleaning, files, process, answers, chance).files;
    assert OnlyScratch(files, after);
    ScratchIsFree(w, r, files, after, process);
    OwnBlobPresent(w, r, after);
    assert Get(after, Live) == Get(files, Live) && Get(after, Bin) == Get(files, Bin);
  }
}
