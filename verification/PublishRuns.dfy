/** Whole runs of publishers: what has happened before a manifest goes live, and a run
    in which putting one back leaves client and master apart. xtask/src/publish.rs. */
module PublishRuns {
  import opened Wrappers
  import opened PublishModel
  import opened PublishSafety

  // ---------- the master answers first ----------

  /** The publisher is past the question to the running master. */
  predicate PastAnswer(p: Phase) {
    p.Answered? || p.Activating? || p.Serving? || p.Restoring? || p.Cleaning?
  }

  ghost predicate At(s: Site, pid: Pid, r: Release) {
    pid in s.publishers && s.publishers[pid].release == r
  }

  /** In this step the publisher of r asks, and the master that runs then answers
      with the release's protocol. */
  ghost predicate Hears(w: World, s: Site, a: Action, pid: Pid, r: Release) {
    && a.Step? && a.pid == pid && At(s, pid, r) && s.publishers[pid].phase.MasterReady?
    && Running(w, s.process, s.answers) == Some(r.protocol)
  }

  /** The publisher does not leave during the run. */
  ghost predicate Stays(w: World, s: Site, actions: seq<Action>, pid: Pid, r: Release)
    decreases |actions|
  {
    && At(s, pid, r)
    && (actions != [] ==> Enabled(w, s, actions[0]) && Stays(w, Next(w, s, actions[0]), actions[1..], pid, r))
  }

  /** At some step of the run the publisher hears the answer, and stays from then on. */
  ghost predicate Heard(w: World, s: Site, actions: seq<Action>, pid: Pid, r: Release)
    decreases |actions|
  {
    && actions != []
    && Enabled(w, s, actions[0])
    && var next := Next(w, s, actions[0]);
       || (Hears(w, s, actions[0], pid, r) && Stays(w, next, actions[1..], pid, r))
       || Heard(w, next, actions[1..], pid, r)
  }

  lemma HearsOrWas(w: World, s: Site, a: Action, pid: Pid, r: Release)
    requires Enabled(w, s, a)
    requires At(Next(w, s, a), pid, r) && PastAnswer(Next(w, s, a).publishers[pid].phase)
    ensures Hears(w, s, a, pid, r) || (At(s, pid, r) && PastAnswer(s.publishers[pid].phase))
  {}

  lemma {:induction false} HeardOrWas(w: World, s: Site, actions: seq<Action>, after: Site, pid: Pid, r: Release)
    requires Run(w, s, actions, after) && At(after, pid, r) && PastAnswer(after.publishers[pid].phase)
    ensures Heard(w, s, actions, pid, r)
            || (Stays(w, s, actions, pid, r) && PastAnswer(s.publishers[pid].phase))
    decreases |actions|
  {
    if actions != [] {
      var next := Next(w, s, actions[0]);
      HeardOrWas(w, next, actions[1..], after, pid, r);
      if !Heard(w, next, actions[1..], pid, r) {
        HearsOrWas(w, s, actions[0], pid, r);
      }
    }
  }

  /** A release's manifest never goes live unless, earlier in the run, its publisher
      has asked the running master and has heard the release's protocol. */
  lemma AnsweredFirst(w: World, start: Site, actions: seq<Action>, s: Site, a: Action)
    requires Initial(w, start) && Run(w, start, actions, s) && GoesLive(w, s, a)
    requires s.publishers[a.pid].phase.Activating?
    ensures Heard(w, start, actions, a.pid, s.publishers[a.pid].release)
  {
    HeardOrWas(w, start, actions, s, a.pid, s.publishers[a.pid].release);
  }

  // ---------- a manifest put back under another master ----------

  lemma {:induction false} Extended(w: World, start: Site, actions: seq<Action>, s: Site, a: Action)
    requires Run(w, start, actions, s) && Enabled(w, s, a)
    ensures Run(w, start, actions + [a], Next(w, s, a))
    decreases |actions|
  {
    if actions == [] {
      assert [a][1..] == [];
    } else {
      Extended(w, Next(w, start, actions[0]), actions[1..], s, a);
      assert (actions + [a])[1..] == actions[1..] + [a];
    }
  }

  const OLD_MANIFEST: Hash := "m0"
  const OLD_MASTER: Hash := "k0"
  const NEW_MANIFEST: Hash := "m1"
  const NEW_MASTER: Hash := "k1"

  /** The old release speaks protocol 1, the new one protocol 2. */
  const WORLD := World(
    sha => if sha == NEW_MANIFEST then ManifestText("new", "b1", 2) else ManifestText("old", "b0", 1),
    sha => if sha == NEW_MASTER then 2 else 1,
    sha => sha)

  const NEW_RELEASE := Release("r1", 2, [
    Row("game", Blob("new"), "b1", 1, true, GameBlob),
    Row("master", Master(NEW_MASTER), NEW_MASTER, 1, true, MasterBinary)], NEW_MASTER, NEW_MANIFEST)

  /** The old release is live and served; what the new one uploads is there already. */
  const FILES: Files := map[
    Blob("old") := "b0", Live := OLD_MANIFEST, Bin := OLD_MASTER,
    Blob("new") := "b1", Master(NEW_MASTER) := NEW_MASTER]

  const BEFORE := Site(FILES, Some(OLD_MASTER), true, None, map[])

  function Holding(files: Files, process: Option<Hash>, phase: Phase): Site {
    Site(files, process, true, Some(0), map[0 := Publisher(NEW_RELEASE, phase)])
  }

  lemma NewReleaseIsPrepared()
    ensures Prepared(WORLD, NEW_RELEASE) && Initial(WORLD, BEFORE)
  {
    var rows := NEW_RELEASE.rows;
    assert rows[0] in rows && rows[1] in rows;
    assert RowsApart(rows[0], rows[1]);
  }

  /** The publisher's next step. */
  lemma Continued(actions: seq<Action>, files: Files, process: Option<Hash>, phase: Phase, ok: bool)
    returns (actions': seq<Action>)
    requires !phase.Ready? && Run(WORLD, BEFORE, actions, Holding(files, process, phase))
    ensures var e := Act(WORLD, NEW_RELEASE, phase, files, process, true, Chance(ok, ""));
            e.phase.Some? ==> Run(WORLD, BEFORE, actions', Holding(e.files, e.process, e.phase.value))
  {
    var s := Holding(files, process, phase);
    var a := Step(0, Chance(ok, ""));
    actions' := actions + [a];
    Extended(WORLD, BEFORE, actions, s, a);
    var e := Act(WORLD, NEW_RELEASE, phase, files, process, true, Chance(ok, ""));
    if e.phase.Some? {
      assert s.publishers[0 := s.publishers[0].(phase := e.phase.value)] == map[0 := Publisher(NEW_RELEASE, e.phase.value)];
    }
  }

  lemma Begun() returns (actions: seq<Action>)
    ensures Run(WORLD, BEFORE, actions, Holding(FILES, Some(OLD_MASTER), Locked))
  {
    NewReleaseIsPrepared();
    var s1 := BEFORE.(publishers := map[0 := Publisher(NEW_RELEASE, Ready)]);
    assert BEFORE.publishers[0 := Publisher(NEW_RELEASE, Ready)] == s1.publishers;
    Extended(WORLD, BEFORE, [], BEFORE, Begin(0, NEW_RELEASE));
    Extended(WORLD, BEFORE, [] + [Begin(0, NEW_RELEASE)], s1, TakeLock(0));
    actions := [] + [Begin(0, NEW_RELEASE)] + [TakeLock(0)];
    assert s1.publishers[0 := s1.publishers[0].(phase := Locked)] == map[0 := Publisher(NEW_RELEASE, Locked)];
  }

  lemma NothingToUpload()
    ensures Plan(NEW_RELEASE.rows, FILES) == Ok([])
  {
    var rows := NEW_RELEASE.rows;
    assert rows[..1] == [rows[0]] && rows[..1][..0] == [];
    assert Plan(rows[..1], FILES) == Ok([]);
  }

  /** The plan is made, and the master that is installed is looked up. */
  lemma Planned() returns (actions: seq<Action>)
    ensures Run(WORLD, BEFORE, actions, Holding(FILES, Some(OLD_MASTER), Keeping(Some(OLD_MASTER))))
  {
    actions := Begun();
    NothingToUpload();
    actions := Continued(actions, FILES, Some(OLD_MASTER), Locked, true);
    actions := Continued(actions, FILES, Some(OLD_MASTER), Uploading([], 0), true);
    actions := Continued(actions, FILES, Some(OLD_MASTER), Promoting([], 0), true);
    actions := Continued(actions, FILES, Some(OLD_MASTER), Switching, true);
  }

  /** The master that is replaced is kept. */
  lemma MasterKept() returns (actions: seq<Action>, files: Files)
    ensures Get(files, Live) == Some(OLD_MANIFEST) && Get(files, Master(NEW_MASTER)) == Some(NEW_MASTER)
    ensures Get(files, Master(OLD_MASTER)) == Some(OLD_MASTER)
    ensures Run(WORLD, BEFORE, actions, Holding(files, Some(OLD_MASTER), Pointing(NEW_MASTER, Some(OLD_MASTER), false, 0)))
  {
    actions := Planned();
    actions := Continued(actions, FILES, Some(OLD_MASTER), Keeping(Some(OLD_MASTER)), true);
    files := FILES[Master(OLD_MASTER) := OLD_MASTER];
  }

  /** The new one is put in its place and started. */
  lemma MasterStarted() returns (actions: seq<Action>, files: Files)
    ensures Get(files, Live) == Some(OLD_MANIFEST) && Get(files, Bin) == Some(NEW_MASTER)
    ensures Get(files, Master(OLD_MASTER)) == Some(OLD_MASTER)
    ensures Run(WORLD, BEFORE, actions, Holding(files, Some(NEW_MASTER), Waiting(Some(OLD_MASTER))))
  {
    actions, files := MasterKept();
    var was := Some(OLD_MASTER);
    actions := Continued(actions, files, was, Pointing(NEW_MASTER, was, false, 0), true);
    files := files[BinNew := NEW_MASTER];
    actions := Continued(actions, files, was, Pointing(NEW_MASTER, was, false, 1), true);
    files := Without(files[Bin := NEW_MASTER], BinNew);
    actions := Continued(actions, files, was, Pointing(NEW_MASTER, was, false, 2), true);
  }

  /** It answers, and the live manifest is looked up. */
  lemma MasterAnswered() returns (actions: seq<Action>, files: Files)
    ensures Get(files, Live) == Some(OLD_MANIFEST)
    ensures Run(WORLD, BEFORE, actions, Holding(files, Some(NEW_MASTER), Activating(Some(OLD_MANIFEST), 0)))
  {
    actions, files := MasterStarted();
    actions := Continued(actions, files, Some(NEW_MASTER), Waiting(Some(OLD_MASTER)), true);
    actions := Continued(actions, files, Some(NEW_MASTER), MasterReady, true);
    actions := Continued(actions, files, Some(NEW_MASTER), Answered, true);
  }

  /** The new manifest is staged, and the one it replaces is kept. */
  lemma ManifestKept() returns (actions: seq<Action>, files: Files)
    ensures Get(files, Live) == Some(OLD_MANIFEST) == Get(files, Replaced(OLD_MANIFEST))
    ensures Get(files, Staged("r1", MANIFEST_LOCAL)) == Some(NEW_MANIFEST)
    ensures Run(WORLD, BEFORE, actions, Holding(files, Some(NEW_MASTER), Activating(Some(OLD_MANIFEST), 3)))
  {
    actions, files := MasterAnswered();
    var was := Some(OLD_MANIFEST);
    actions := Continued(actions, files, Some(NEW_MASTER), Activating(was, 0), true);
    files := files[Staged("r1", MANIFEST_LOCAL) := NEW_MANIFEST];
    actions := Continued(actions, files, Some(NEW_MASTER), Activating(was, 1), true);
    files := files[Replaced(OLD_MANIFEST) := OLD_MANIFEST];
    actions := Continued(actions, files, Some(NEW_MASTER), Activating(was, 2), true);
    files := files[Archived("r1") := NEW_MANIFEST];
  }

  /** It is made live. */
  lemma ManifestSwitched() returns (actions: seq<Action>, files: Files)
    ensures Get(files, Live) == Some(NEW_MANIFEST) && Get(files, Replaced(OLD_MANIFEST)) == Some(OLD_MANIFEST)
    ensures Run(WORLD, BEFORE, actions, Holding(files, Some(NEW_MASTER), Serving(Some(OLD_MANIFEST))))
  {
    actions, files := ManifestKept();
    var was := Some(OLD_MANIFEST);
    var staged := Staged("r1", MANIFEST_LOCAL);
    actions := Continued(actions, files, Some(NEW_MASTER), Activating(was, 3), true);
    files := Without(files[LiveNew := NEW_MANIFEST], staged);
    actions := Continued(actions, files, Some(NEW_MASTER), Activating(was, 4), true);
    files := Without(files[Live := NEW_MANIFEST], LiveNew);
  }

  /** It turns out not to be served, and the old one is fetched. */
  lemma ManifestFetched() returns (actions: seq<Action>, files: Files)
    ensures Get(files, Live) == Some(NEW_MANIFEST) && Get(files, LiveNew) == Some(OLD_MANIFEST)
    ensures Run(WORLD, BEFORE, actions, Holding(files, Some(NEW_MASTER), Restoring(OLD_MANIFEST, true)))
  {
    actions, files := ManifestSwitched();
    actions := Continued(actions, files, Some(NEW_MASTER), Serving(Some(OLD_MANIFEST)), false);
    actions := Continued(actions, files, Some(NEW_MASTER), Restoring(OLD_MANIFEST, false), true);
    files := files[LiveNew := OLD_MANIFEST];
  }

  /** A run from a host whose client and master agree, at the end of which the manifest
      put back and the running master speak different protocols. */
  lemma PutBackMayDisagree() returns (actions: seq<Action>, s: Site, a: Action)
    ensures Initial(WORLD, BEFORE) && Speaks(WORLD, BEFORE.process, WORLD.manifestOf(FILES[Live]).protocol)
    ensures Run(WORLD, BEFORE, actions, s) && GoesLive(WORLD, s, a) && s.publishers[a.pid].phase.Restoring?
    ensures var after := Next(WORLD, s, a);
            after.process.Some? && !Speaks(WORLD, after.process, WORLD.manifestOf(after.files[Live]).protocol)
  {
    NewReleaseIsPrepared();
    var found, files := ManifestFetched();
    actions := found;
    s := Holding(files, Some(NEW_MASTER), Restoring(OLD_MANIFEST, true));
    a := Step(0, Chance(true, ""));
  }
}
