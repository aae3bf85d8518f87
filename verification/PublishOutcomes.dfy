/** How publishing ends: put back if the new master or manifest does not do, through
    if all goes well. xtask/src/publish.rs. */
module PublishOutcomes {
  import opened Wrappers
  import opened PublishModel
  import opened PublishSafety
  import opened PublishRuns

  // ---------- a new master that is not healthy ----------

  /** The publisher replaces the installed master k, or puts it back. */
  predicate Replacing(p: Phase, k: Hash) {
    match p
    case Keeping(current) => current == Some(k)
    case Pointing(target, current, restoring, _) => current == Some(k) && (restoring ==> target == k)
    case Waiting(current) => current == Some(k)
    case _ => false
  }

  /** The new master has been found healthy. */
  predicate Healthy(p: Phase) {
    p.MasterReady? || PastAnswer(p)
  }

  lemma HealthyStays(w: World, s: Site, a: Action, pid: Pid, r: Release)
    requires At(s, pid, r) && Healthy(s.publishers[pid].phase) && Enabled(w, s, a) && At(Next(w, s, a), pid, r)
    ensures Healthy(Next(w, s, a).publishers[pid].phase)
  {}

  lemma {:induction false} HealthyToTheEnd(w: World, s: Site, actions: seq<Action>, s': Site, pid: Pid, r: Release)
    requires Run(w, s, actions, s') && Stays(w, s, actions, pid, r) && Healthy(s.publishers[pid].phase)
    ensures At(s', pid, r) && Healthy(s'.publishers[pid].phase)
    decreases |actions|
  {
    if actions != [] {
      HealthyStays(w, s, actions[0], pid, r);
      HealthyToTheEnd(w, Next(w, s, actions[0]), actions[1..], s', pid, r);
    }
  }

  /** What others do does not touch the holder of the lock, nor the files. */
  lemma OthersStayOut(w: World, s: Site, a: Action, pid: Pid, r: Release)
    requires Inv(w, s) && At(s, pid, r) && !s.publishers[pid].phase.Ready?
    requires Enabled(w, s, a) && !(a.Step? && a.pid == pid) && At(Next(w, s, a), pid, r)
    ensures Next(w, s, a).publishers[pid] == s.publishers[pid] && Next(w, s, a).files == s.files
  {}

  lemma ReplacingLeadsTo(w: World, r: Release, p: Phase, files: Files, process: Option<Hash>, answers: bool,
          chance: Chance, k: Hash)
    requires Replacing(p, k)
    ensures var next := Act(w, r, p, files, process, answers, chance).phase;
            next.None? || Healthy(next.value) || Replacing(next.value, k)
  {}

  lemma ReplacingStays(w: World, s: Site, a: Action, pid: Pid, r: Release, k: Hash)
    requires Inv(w, s) && At(s, pid, r) && Replacing(s.publishers[pid].phase, k)
    requires Enabled(w, s, a) && At(Next(w, s, a), pid, r)
    ensures var s' := Next(w, s, a);
            || Healthy(s'.publishers[pid].phase)
            || (Replacing(s'.publishers[pid].phase, k) && Get(s'.files, Live) == Get(s.files, Live))
  {
    if a.Step? && a.pid == pid {
      QuietStep(w, s, pid, a.chance);
      ReplacingLeadsTo(w, r, s.publishers[pid].phase, s.files, s.process, s.answers, a.chance, k);
    } else {
      OthersStayOut(w, s, a, pid, r);
    }
  }

  lemma {:induction false} ReplacingToTheEnd(w: World, s: Site, actions: seq<Action>, s': Site, pid: Pid,
          r: Release, k: Hash)
    requires Inv(w, s) && Run(w, s, actions, s') && Stays(w, s, actions, pid, r) && Replacing(s.publishers[pid].phase, k)
    ensures At(s', pid, r) && Inv(w, s')
    ensures Healthy(s'.publishers[pid].phase) || (Replacing(s'.publishers[pid].phase, k) && Get(s'.files, Live) == Get(s.files, Live))
    decreases |actions|
  {
    if actions != [] {
      var next := Next(w, s, actions[0]);
      InvStep(w, s, actions[0]);
      ReplacingStays(w, s, actions[0], pid, r, k);
      if Healthy(next.publishers[pid].phase) {
        HealthyToTheEnd(w, next, actions[1..], s', pid, r);
        RunKeeps(w, next, actions[1..], s');
      } else {
        ReplacingToTheEnd(w, next, actions[1..], s', pid, r, k);
      }
    }
  }

  /** A publisher that finds its new master unhealthy turns to the one before it. */
  lemma UnhealthyTurnsBack(w: World, s: Site, pid: Pid, chance: Chance, k: Hash)
    requires pid in s.publishers && s.publishers[pid].phase == Waiting(Some(k)) && !chance.ok
    requires Running(w, s.process, s.answers) != Some(s.publishers[pid].release.protocol)
    ensures Next(w, s, Step(pid, chance))
            == s.(publishers := s.publishers[pid := s.publishers[pid].(phase := Pointing(k, Some(k), true, 0))])
  {}

  lemma ReplacingGivesUp(w: World, r: Release, p: Phase, files: Files, process: Option<Hash>, answers: bool,
          chance: Chance, k: Hash)
    requires Prepared(w, r) && Replacing(p, k) && PhaseInv(w, r, p, files, process)
    requires Act(w, r, p, files, process, answers, chance).phase.None?
    ensures Act(w, r, p, files, process, answers, chance) == Effect(files, Some(k), None) && Get(files, Bin) == Some(k)
  {
    var row :| row in r.rows && row.role.MasterBinary?;
    assert RowFits(r, row) && Placed(files, row);
  }

  /** A step with which a publisher ends by itself before its master was healthy. */
  lemma ReplacingEnds(w: World, s: Site, pid: Pid, r: Release, chance: Chance, k: Hash)
    requires Inv(w, s) && At(s, pid, r) && Replacing(s.publishers[pid].phase, k)
    requires pid !in Next(w, s, Step(pid, chance)).publishers
    ensures var s' := Next(w, s, Step(pid, chance));
            && Get(s'.files, Bin) == Some(k) && s'.process == Some(k)
            && Get(s'.files, Live) == Get(s.files, Live) && s'.lock == None
  {
    var p := s.publishers[pid];
    assert PublisherInv(w, s, p);
    ReplacingGivesUp(w, r, p.phase, s.files, s.process, s.answers, chance, k);
  }

  /** While it replaces the master that was installed, k, a publisher either finds the
      new one healthy, or, if it comes to its end without a crash or a failing command,
      leaves k installed and running, the live manifest as it was, and the lock free. */
  lemma OldMasterIsBack(w: World, start: Site, early: seq<Action>, s: Site, late: seq<Action>, s': Site, pid: Pid,
          chance: Chance, k: Hash)
    requires Initial(w, start) && Run(w, start, early, s) && pid in s.publishers && s.publishers[pid].phase == Keeping(Some(k))
    requires Run(w, s, late, s') && Stays(w, s, late, pid, s.publishers[pid].release) && pid in s'.publishers
    requires !Healthy(s'.publishers[pid].phase)
    requires Enabled(w, s', Step(pid, chance)) && pid !in Next(w, s', Step(pid, chance)).publishers
    ensures Get(s.files, Bin) == Some(k)
    ensures var end := Next(w, s', Step(pid, chance));
            && Get(end.files, Bin) == Some(k) && end.process == Some(k)
            && Get(end.files, Live) == Get(s.files, Live) && end.lock == None
  {
    RunKeeps(w, start, early, s);
    var r := s.publishers[pid].release;
    assert PublisherInv(w, s, s.publishers[pid]);
    ReplacingToTheEnd(w, s, late, s', pid, r, k);
    ReplacingEnds(w, s', pid, r, chance, k);
  }

  // ---------- a new manifest that is not served ----------

  /** The publisher replaces the live manifest m, or puts it back. */
  predicate SwitchingFrom(p: Phase, m: Hash) {
    match p
    case Activating(previous, _) => previous == Some(m)
    case Serving(previous) => previous == Some(m)
    case Restoring(kept, _) => kept == m
    case _ => false
  }

  lemma SwitchingStays(w: World, s: Site, a: Action, pid: Pid, r: Release, m: Hash)
    requires At(s, pid, r) && (SwitchingFrom(s.publishers[pid].phase, m) || s.publishers[pid].phase.Cleaning?)
    requires Enabled(w, s, a) && At(Next(w, s, a), pid, r)
    ensures var p := Next(w, s, a).publishers[pid].phase; SwitchingFrom(p, m) || p.Cleaning?
  {}

  lemma {:induction false} SwitchingToTheEnd(w: World, s: Site, actions: seq<Action>, s': Site, pid: Pid,
          r: Release, m: Hash)
    requires Run(w, s, actions, s') && Stays(w, s, actions, pid, r)
    requires SwitchingFrom(s.publishers[pid].phase, m) || s.publishers[pid].phase.Cleaning?
    ensures At(s', pid, r) && (SwitchingFrom(s'.publishers[pid].phase, m) || s'.publishers[pid].phase.Cleaning?)
    decreases |actions|
  {
    if actions != [] {
      SwitchingStays(w, s, actions[0], pid, r, m);
      SwitchingToTheEnd(w, Next(w, s, actions[0]), actions[1..], s', pid, r, m);
    }
  }

  /** A publisher that finds its new manifest not served turns to the one before it. */
  lemma UnservedTurnsBack(w: World, s: Site, pid: Pid, chance: Chance, m: Hash)
    requires pid in s.publishers && s.publishers[pid].phase == Serving(Some(m)) && !chance.ok
    ensures Next(w, s, Step(pid, chance))
            == s.(publishers := s.publishers[pid := s.publishers[pid].(phase := Restoring(m, false))])
  {}

  lemma SwitchingGivesUp(w: World, r: Release, p: Phase, files: Files, process: Option<Hash>, answers: bool,
          chance: Chance, m: Hash)
    requires SwitchingFrom(p, m) && PhaseInv(w, r, p, files, process)
    requires Act(w, r, p, files, process, answers, chance).phase.None?
    ensures var after := Act(w, r, p, files, process, answers, chance).files;
            && p == Restoring(m, true)
            && Get(after, Live) == Some(m) && Get(after, Bin) == Some(r.masterSha)
  {}

  lemma SwitchingEnds(w: World, s: Site, pid: Pid, r: Release, chance: Chance, m: Hash)
    requires Inv(w, s) && At(s, pid, r) && SwitchingFrom(s.publishers[pid].phase, m)
    requires pid !in Next(w, s, Step(pid, chance)).publishers
    ensures var s' := Next(w, s, Step(pid, chance));
            && Get(s'.files, Live) == Some(m) && BlobPresent(w, s'.files, m)
            && Get(s'.files, Bin) == Some(r.masterSha) && s'.lock == None
  {
    var p := s.publishers[pid];
    assert PublisherInv(w, s, p);
    InvStep(w, s, Step(pid, chance));
    SwitchingGivesUp(w, r, p.phase, s.files, s.process, s.answers, chance, m);
  }

  /** Once it has begun to replace the live manifest m, a publisher either gets to its
      end, or, if it gives up without a crash or a failing command, leaves m live, its
      blob there and the lock free. The new master stays. */
  lemma OldManifestIsBack(w: World, start: Site, early: seq<Action>, s: Site, late: seq<Action>, s': Site, pid: Pid,
          chance: Chance, m: Hash)
    requires Initial(w, start) && Run(w, start, early, s) && pid in s.publishers && s.publishers[pid].phase == Activating(Some(m), 0)
    requires Run(w, s, late, s') && Stays(w, s, late, pid, s.publishers[pid].release) && pid in s'.publishers
    requires !s'.publishers[pid].phase.Cleaning?
    requires Enabled(w, s', Step(pid, chance)) && pid !in Next(w, s', Step(pid, chance)).publishers
    ensures Get(s.files, Live) == Some(m)
    ensures var end := Next(w, s', Step(pid, chance));
            && Get(end.files, Live) == Some(m) && BlobPresent(w, end.files, m)
            && Get(end.files, Bin) == Some(s.publishers[pid].release.masterSha) && end.lock == None
  {
    RunKeeps(w, start, early, s);
    RunKeeps(w, s, late, s');
    var r := s.publishers[pid].release;
    assert PublisherInv(w, s, s.publishers[pid]);
    SwitchingToTheEnd(w, s, late, s', pid, r, m);
    SwitchingEnds(w, s', pid, r, chance, m);
  }

  // ---------- when all goes well ----------

  function Order(p: Phase): nat {
    match p
    case Ready => 13
    case Locked => 12
    case Uploading(_, _) => 11
    case Promoting(_, _) => 10
    case Switching => 9
    case Keeping(_) => 8
    case Pointing(_, _, _, _) => 7
    case Waiting(_) => 6
    case MasterReady => 5
    case Answered => 4
    case Activating(_, _) => 3
    case Serving(_) => 2
    case Restoring(_, _) => 0
    case Cleaning => 1
  }

  /** Steps left in the same phase. */
  function StepsLeft(p: Phase): int {
    match p
    case Uploading(need, done) => |need| - done
    case Promoting(rows, done) => |rows| - done
    case Pointing(_, _, _, stage) => 2 - stage
    case Activating(_, stage) => 4 - stage
    case _ => 0
  }

  predicate StagedUpTo(r: Release, files: Files, need: seq<Row>, done: nat) {
    done <= |need| && forall k :: 0 <= k < done ==> Get(files, StagedAt(r, need[k])) == Some(need[k].sha)
  }

  /** Nothing has gone wrong so far: what was sent has arrived, and the master that runs
      is the installed one, or the release's once that is started. */
  predicate GoesWell(r: Release, p: Phase, files: Files, process: Option<Hash>) {
    match p
    case Ready => false
    case Locked => Plan(r.rows, files).Ok? && process == Get(files, Bin)
    case Uploading(need, done) => StagedUpTo(r, files, need, done) && process == Get(files, Bin)
    case Promoting(_, _) => process == Get(files, Bin)
    case Switching => process == Get(files, Bin)
    case Keeping(_) => true
    case Pointing(_, _, restoring, stage) => !restoring && stage <= 2
    case Activating(_, stage) => process == Some(r.masterSha) && stage <= 4
    case Restoring(_, _) => false
    case Cleaning => true
    case _ => process == Some(r.masterSha)
  }

  /** And the master answers. */
  predicate GoingWell(s: Site, p: Publisher) {
    s.answers && GoesWell(p.release, p.phase, s.files, s.process)
  }

  /** What fortune has to do in the next step: let an upload arrive as it was sent. */
  function Fortune(p: Phase): Chance {
    Chance(true, if p.Uploading? && p.done < |p.need| then p.need[p.done].sha else "")
  }

  lemma UploadGoesWell(r: Release, files: Files, need: seq<Row>, done: nat)
    requires Apart(need) && StagedUpTo(r, files, need, done)
    ensures done < |need| ==> StagedUpTo(r, files[StagedAt(r, need[done]) := need[done].sha], need, done + 1)
    ensures done == |need| ==> AllLanded(r, files, need)
  {
    if done < |need| {
      forall k | 0 <= k < done
        ensures StagedAt(r, need[k]) != StagedAt(r, need[done])
      {
        assert RowsApart(need[k], need[done]);
      }
    } else {
      forall row | row in need
        ensures Get(files, StagedAt(r, row)) == Some(row.sha)
      {
        var k :| 0 <= k < |need| && need[k] == row;
      }
    }
  }

  predicate Nearer(after: Phase, before: Phase) {
    Order(after) < Order(before) || (Order(after) == Order(before) && 0 <= StepsLeft(after) < StepsLeft(before))
  }

  /** The step leads on, and all still goes well. */
  ghost predicate LeadsOn(w: World, r: Release, p: Phase, files: Files, process: Option<Hash>)
    requires !p.Ready?
  {
    var e := Act(w, r, p, files, process, true, Fortune(p));
    e.phase.Some? && GoesWell(r, e.phase.value, e.files, e.process) && Nearer(e.phase.value, p)
  }

  lemma UploadsGoWell(w: World, r: Release, p: Phase, files: Files, process: Option<Hash>)
    requires Prepared(w, r) && PhaseInv(w, r, p, files, process) && GoesWell(r, p, files, process)
    requires p.Locked? || p.Uploading? || p.Promoting?
    ensures LeadsOn(w, r, p, files, process)
  {
    if p.Uploading? {
      UploadGoesWell(r, files, p.need, p.done);
    }
    if p.Promoting? && p.done < |p.rows| {
      assert RowFits(r, p.rows[p.done]);
    }
  }

  lemma MasterGoesWell(w: World, r: Release, p: Phase, files: Files, process: Option<Hash>)
    requires Prepared(w, r) && PhaseInv(w, r, p, files, process) && GoesWell(r, p, files, process)
    requires p.Switching? || p.Keeping? || p.Pointing? || p.Waiting? || p.MasterReady?
    ensures LeadsOn(w, r, p, files, process)
  {
    if p.Keeping? {
      var row :| row in r.rows && row.role.MasterBinary?;
      assert RowFits(r, row) && Placed(files, row);
    }
  }

  lemma ManifestGoesWell(w: World, r: Release, p: Phase, files: Files, process: Option<Hash>)
    requires Prepared(w, r) && PhaseInv(w, r, p, files, process) && GoesWell(r, p, files, process)
    requires p.Answered? || p.Activating? || p.Serving?
    ensures LeadsOn(w, r, p, files, process)
  {}

  lemma AllGoesWell(w: World, r: Release, p: Phase, files: Files, process: Option<Hash>)
    requires Prepared(w, r) && PhaseInv(w, r, p, files, process) && GoesWell(r, p, files, process) && !p.Cleaning?
    ensures LeadsOn(w, r, p, files, process)
  {
    if p.Locked? || p.Uploading? || p.Promoting? {
      UploadsGoWell(w, r, p, files, process);
    } else if p.Answered? || p.Activating? || p.Serving? {
      ManifestGoesWell(w, r, p, files, process);
    } else {
      MasterGoesWell(w, r, p, files, process);
    }
  }

  /** When all goes well, a step leads on. */
  lemma StepGoesWell(w: World, s: Site, pid: Pid)
    requires Inv(w, s) && pid in s.publishers && GoingWell(s, s.publishers[pid]) && !s.publishers[pid].phase.Cleaning?
    ensures var p := s.publishers[pid];
            var s' := Next(w, s, Step(pid, Fortune(p.phase)));
            At(s', pid, p.release) && GoingWell(s', s'.publishers[pid]) && Nearer(s'.publishers[pid].phase, p.phase)
  {
    var p := s.publishers[pid];
    assert PublisherInv(w, s, p);
    AllGoesWell(w, p.release, p.phase, s.files, s.process);
  }

  ghost predicate OwnSteps(actions: seq<Action>, pid: Pid) {
    forall i :: 0 <= i < |actions| ==> actions[i].Step? && actions[i].pid == pid
  }

  lemma Prefixed(w: World, s: Site, a: Action, actions: seq<Action>, s': Site, pid: Pid)
    requires a.Step? && a.pid == pid && Enabled(w, s, a)
    requires Run(w, Next(w, s, a), actions, s') && OwnSteps(actions, pid)
    ensures Run(w, s, [a] + actions, s') && OwnSteps([a] + actions, pid)
  {
    assert ([a] + actions)[1..] == actions;
  }

  /** All goes well for a publisher of r, which is in the given phase. */
  ghost predicate WellAt(w: World, s: Site, pid: Pid, r: Release, p: Phase) {
    Inv(w, s) && At(s, pid, r) && s.publishers[pid].phase == p && GoingWell(s, s.publishers[pid])
  }

  lemma WellStep(w: World, s: Site, pid: Pid, r: Release, p: Phase) returns (p': Phase)
    requires WellAt(w, s, pid, r, p) && !p.Cleaning?
    ensures Enabled(w, s, Step(pid, Fortune(p))) && WellAt(w, Next(w, s, Step(pid, Fortune(p))), pid, r, p') && Nearer(p', p)
  {
    StepGoesWell(w, s, pid);
    InvStep(w, s, Step(pid, Fortune(p)));
    p' := Next(w, s, Step(pid, Fortune(p))).publishers[pid].phase;
  }

  /** A publisher that holds the lock, whose release does not collide, whose uploads
      arrive and whose master answers, gets to its end undisturbed. */
  lemma {:induction false} PublishingGoesThrough(w: World, s: Site, pid: Pid, r: Release, p: Phase)
    returns (actions: seq<Action>, s': Site)
    requires WellAt(w, s, pid, r, p)
    ensures Run(w, s, actions, s') && OwnSteps(actions, pid) && Published(w, s', pid, r)
    decreases Order(p), StepsLeft(p)
  {
    var a := Step(pid, Fortune(p));
    if p.Cleaning? {
      CleaningEnds(w, s, pid, a.chance);
      s' := Next(w, s, a);
      Prefixed(w, s, a, [], s', pid);
      actions := [a] + [];
    } else {
      var p' := WellStep(w, s, pid, r, p);
      var rest;
      rest, s' := PublishingGoesThrough(w, Next(w, s, a), pid, r, p');
      Prefixed(w, s, a, rest, s', pid);
      actions := [a] + rest;
    }
  }

  // ---------- a run in which the old master is put back ----------

  /** The new master has been started, and is gone again at the deadline. */
  lemma NewMasterFails() returns (actions: seq<Action>, s: Site)
    ensures Run(WORLD, BEFORE, actions, s) && At(s, 0, NEW_RELEASE)
    ensures s.publishers[0].phase == Waiting(Some(OLD_MASTER)) && Running(WORLD, s.process, s.answers).None?
    ensures Get(s.files, Bin) == Some(NEW_MASTER) && Get(s.files, Live) == Some(OLD_MANIFEST)
    ensures Get(s.files, Master(OLD_MASTER)) == Some(OLD_MASTER) && s == Holding(s.files, None, Waiting(Some(OLD_MASTER)))
  {
    var files;
    actions, files := MasterStarted();
    s := Holding(files, Some(NEW_MASTER), Waiting(Some(OLD_MASTER)));
    Extended(WORLD, BEFORE, actions, s, MasterChanges(true, false));
    actions := actions + [MasterChanges(true, false)];
    s := Holding(files, None, Waiting(Some(OLD_MASTER)));
  }

  /** A run at whose end the master that was replaced is installed and runs again. */
  lemma OldMasterComesBack() returns (actions: seq<Action>, s: Site, end: Action)
    ensures Initial(WORLD, BEFORE) && Run(WORLD, BEFORE, actions, s) && Enabled(WORLD, s, end)
    ensures 0 in s.publishers && 0 !in Next(WORLD, s, end).publishers && end.Step?
    ensures Get(s.files, Live) == Some(OLD_MANIFEST)
    ensures var after := Next(WORLD, s, end); Get(after.files, Bin) == Some(OLD_MASTER) == after.process && after.lock == None
  {
    NewReleaseIsPrepared();
    actions, s := NewMasterFails();
    var was := Some(OLD_MASTER);
    var files := s.files;
    actions := Continued(actions, files, None, Waiting(was), false);
    actions := Continued(actions, files, None, Pointing(OLD_MASTER, was, true, 0), true);
    files := files[BinNew := OLD_MASTER];
    actions := Continued(actions, files, None, Pointing(OLD_MASTER, was, true, 1), true);
    files := Without(files[Bin := OLD_MASTER], BinNew);
    s := Holding(files, None, Pointing(OLD_MASTER, was, true, 2));
    end := Step(0, Chance(true, ""));
  }
}
