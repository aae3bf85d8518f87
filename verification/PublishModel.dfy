/** Publishing a prepared release to a host: the steps of xtask/src/publish.rs.
    The host is a map from paths to content hashes, and the process that answers
    for the master. A hash stands for the contents it belongs to. */
module PublishModel {
  import opened Wrappers

  type Hash = string

  /** Where files are on the host: blobs, masters by their hash, manifests kept by
      release and by the hash they had, staged uploads, and the live names. */
  datatype Path =
    | Blob(name: string)
    | Master(sha: Hash)
    | Archived(release: string)
    | Replaced(short: string)
    | Staged(release: string, local: string)
    | Live | LiveNew | Bin | BinNew

  type Files = map<Path, Hash>

  datatype Role = GameBlob | Manifest | MasterBinary

  datatype Row = Row(local: string, path: Path, sha: Hash, size: nat, immutable: bool, role: Role)

  datatype Release = Release(id: string, protocol: nat, rows: seq<Row>, masterSha: Hash, manifestSha: Hash)

  const MANIFEST_LOCAL: string := "server/updates/manifest.toml"

  /** What a manifest names: the blob, and the protocol the client speaks. */
  datatype ManifestText = ManifestText(blob: string, blobSha: Hash, protocol: nat)

  /** What contents mean, by their hash. */
  datatype World = World(manifestOf: Hash -> ManifestText, protocolOf: Hash -> nat, short: Hash -> string)

  function Get(files: Files, path: Path): Option<Hash> {
    if path in files then Some(files[path]) else None
  }

  function Without(files: Files, path: Path): Files {
    map p | p in files && p != path :: files[p]
  }

  /** A release as it is prepared: a blob, a manifest and a master that fit together. */
  ghost predicate Prepared(w: World, r: Release) {
    && Apart(r.rows)
    && (forall row | row in r.rows :: RowFits(r, row))
    && (exists row | row in r.rows :: row.role.GameBlob? && row.path == Blob(w.manifestOf(r.manifestSha).blob) && row.sha == w.manifestOf(r.manifestSha).blobSha)
    && (exists row | row in r.rows :: row.role.MasterBinary?)
    && w.protocolOf(r.masterSha) == r.protocol == w.manifestOf(r.manifestSha).protocol
  }

  predicate RowFits(r: Release, row: Row) {
    match row.role
    case GameBlob => row.path.Blob? && row.immutable
    case MasterBinary => row.path == Master(r.masterSha) && row.sha == r.masterSha && row.immutable
    case Manifest => row.path == Archived(r.id) && row.sha == r.manifestSha && !row.immutable
  }

  // ---------- the plan ----------

  /** The rows to upload, or the first immutable one the host has other contents for. */
  function Plan(rows: seq<Row>, files: Files): (r: Result<seq<Row>, Row>)
    ensures r.Ok? ==> forall row | row in r.value :: row in rows
  {
    if rows == [] then Ok([])
    else
      var last := rows[|rows| - 1];
      match Plan(rows[..|rows| - 1], files)
      case Err(e) => Err(e)
      case Ok(need) =>
        if Get(files, last.path) == Some(last.sha) then Ok(need)
        else if Get(files, last.path).Some? && last.immutable then Err(last)
        else Ok(need + [last])
  }

  predicate Collides(files: Files, row: Row) {
    row.immutable && row.path in files && files[row.path] != row.sha
  }

  /** A plan fails exactly on a collision, and otherwise lists each row once that
      is not in place, none of which would change an immutable file. */
  lemma {:induction false} PlanExact(rows: seq<Row>, files: Files)
    ensures var r := Plan(rows, files);
            if r.Ok? then
              && (forall row :: row in r.value <==> row in rows && Get(files, row.path) != Some(row.sha))
              && (forall row | row in rows :: !Collides(files, row))
            else r.error in rows && Collides(files, r.error)
  {
    if rows != [] {
      var last := rows[|rows| - 1];
      PlanExact(rows[..|rows| - 1], files);
      assert rows == rows[..|rows| - 1] + [last];
    }
  }

  /** No two rows share a path or a local name. */
  ghost predicate Apart(rows: seq<Row>) {
    forall i, j | 0 <= i < j < |rows| :: RowsApart(rows[i], rows[j])
  }

  predicate RowsApart(a: Row, b: Row) {
    a.path != b.path && a.local != b.local
  }

  lemma ApartFromLast(rows: seq<Row>, row: Row)
    requires Apart(rows) && rows != [] && row in rows[..|rows| - 1]
    ensures RowsApart(row, rows[|rows| - 1])
  {
    var i :| 0 <= i < |rows| - 1 && rows[i] == row;
  }

  lemma {:induction false} PlanApart(rows: seq<Row>, files: Files)
    requires Apart(rows)
    ensures Plan(rows, files).Ok? ==> Apart(Plan(rows, files).value)
  {
    if rows != [] {
      PlanApart(rows[..|rows| - 1], files);
      var r := Plan(rows[..|rows| - 1], files);
      if r.Ok? {
        forall k | 0 <= k < |r.value|
          ensures RowsApart(r.value[k], rows[|rows| - 1])
        {
          ApartFromLast(rows, r.value[k]);
        }
      }
    }
  }

  function Bytes(rows: seq<Row>): nat {
    if rows == [] then 0 else Bytes(rows[..|rows| - 1]) + rows[|rows| - 1].size
  }

  /** The accumulation over the inventory. */
  method PlanUploads(rows: seq<Row>, files: Files) returns (r: Result<seq<Row>, Row>, skipped: nat, uploadBytes: nat)
    ensures r == Plan(rows, files)
    ensures r.Ok? ==> skipped + |r.value| == |rows| && uploadBytes == Bytes(r.value)
  {
    var need: seq<Row> := [];
    skipped, uploadBytes := 0, 0;
    for i := 0 to |rows|
      invariant Plan(rows[..i], files) == Ok(need)
      invariant skipped + |need| == i && uploadBytes == Bytes(need)
    {
      var row := rows[i];
      PlanStep(rows, files, i);
      var existing := Get(files, row.path);
      if existing == Some(row.sha) {
        skipped := skipped + 1;
        continue;
      }
      if existing.Some? && row.immutable {
        PlanFails(rows, files, i + 1);
        return Err(row), skipped, uploadBytes;
      }
      uploadBytes := uploadBytes + row.size;
      need := need + [row];
      assert need[..|need| - 1] + [row] == need;
    }
    assert rows[..|rows|] == rows;
    r := Ok(need);
  }

  lemma PlanStep(rows: seq<Row>, files: Files, i: nat)
    requires i < |rows| && Plan(rows[..i], files).Ok?
    ensures var need := Plan(rows[..i], files).value;
            Plan(rows[..i + 1], files)
            == if Get(files, rows[i].path) == Some(rows[i].sha) then Ok(need)
               else if Get(files, rows[i].path).Some? && rows[i].immutable then Err(rows[i])
               else Ok(need + [rows[i]])
  {
    assert rows[..i + 1][..i] == rows[..i];
  }

  lemma {:induction false} PlanFails(rows: seq<Row>, files: Files, i: nat)
    requires i <= |rows| && Plan(rows[..i], files).Err?
    ensures Plan(rows, files) == Plan(rows[..i], files)
    decreases |rows| - i
  {
    if i == |rows| {
      assert rows[..i] == rows;
    } else {
      assert rows[..i + 1][..i] == rows[..i];
      PlanFails(rows, files, i + 1);
    }
  }

  // ---------- one publisher ----------

  /** How far a publisher is. Every phase but Ready holds the lock. */
  datatype Phase =
    | Ready
    | Locked
    | Uploading(need: seq<Row>, done: nat)
    | Promoting(rows: seq<Row>, done: nat)
    | Switching
    | Keeping(current: Option<Hash>)
    | Pointing(target: Hash, current: Option<Hash>, restoring: bool, stage: nat)
    | Waiting(current: Option<Hash>)
    | MasterReady
    | Answered
    | Activating(previous: Option<Hash>, stage: nat)
    | Serving(previous: Option<Hash>)
    | Restoring(kept: Hash, installed: bool)
    | Cleaning

  /** What a step cannot know beforehand: whether what it looks at is as hoped, and
      what an upload leaves behind. */
  datatype Chance = Chance(ok: bool, landed: Hash)

  /** A step's effect; without a phase the publisher ends, and gives the lock back. */
  datatype Effect = Effect(files: Files, process: Option<Hash>, phase: Option<Phase>)

  function NonManifest(rows: seq<Row>): (r: seq<Row>)
    ensures forall row :: row in r <==> row in rows && !row.role.Manifest?
  {
    if rows == [] then []
    else NonManifest(rows[..|rows| - 1]) + if rows[|rows| - 1].role.Manifest? then [] else [rows[|rows| - 1]]
  }

  lemma {:induction false} NonManifestApart(rows: seq<Row>)
    requires Apart(rows)
    ensures Apart(NonManifest(rows))
  {
    if rows != [] {
      NonManifestApart(rows[..|rows| - 1]);
      var rest := NonManifest(rows[..|rows| - 1]);
      forall k | 0 <= k < |rest|
        ensures RowsApart(rest[k], rows[|rows| - 1])
      {
        ApartFromLast(rows, rest[k]);
      }
    }
  }

  function StagedAt(r: Release, row: Row): Path {
    Staged(r.id, row.local)
  }

  predicate AllLanded(r: Release, files: Files, need: seq<Row>) {
    forall row | row in need :: Get(files, StagedAt(r, row)) == Some(row.sha)
  }

  /** The protocol the running master answers with, if it answers. */
  function Running(w: World, process: Option<Hash>, answers: bool): Option<nat> {
    if process.Some? && answers then Some(w.protocolOf(process.value)) else None
  }

  /** Copies a file if it is there; a shell step that fails otherwise. */
  function Copied(files: Files, from: Path, to: Path): Option<Files> {
    if from in files then Some(files[to := files[from]]) else None
  }

  function Moved(files: Files, from: Path, to: Path): Option<Files> {
    if from in files then Some(Without(files[to := files[from]], from)) else None
  }

  function Then(files: Files, moved: Option<Files>, process: Option<Hash>, phase: Phase): Effect {
    if moved.Some? then Effect(moved.value, process, Some(phase)) else Effect(files, process, None)
  }

  function PointStep(files: Files, process: Option<Hash>, p: Phase): Effect
    requires p.Pointing?
  {
    match p.stage
    case 0 => Then(files, Copied(files, Master(p.target), BinNew), process, Pointing(p.target, p.current, p.restoring, 1))
    case 1 => Then(files, Moved(files, BinNew, Bin), process, Pointing(p.target, p.current, p.restoring, 2))
    case _ => Effect(files, Get(files, Bin), if p.restoring then None else Some(Waiting(p.current)))
  }

  function ActivateStep(w: World, r: Release, files: Files, process: Option<Hash>, p: Phase): Effect
    requires p.Activating?
  {
    var staged := Staged(r.id, MANIFEST_LOCAL);
    match p.stage
    case 0 => Effect(files[staged := r.manifestSha], process, Some(Activating(p.previous, 1)))
    case 1 =>
      if p.previous.None? then Effect(files, process, Some(Activating(p.previous, 2)))
      else Then(files, Copied(files, Live, Replaced(w.short(p.previous.value))), process, Activating(p.previous, 2))
    case 2 => Then(files, Copied(files, staged, Archived(r.id)), process, Activating(p.previous, 3))
    case 3 => Then(files, Moved(files, staged, LiveNew), process, Activating(p.previous, 4))
    case _ => Then(files, Moved(files, LiveNew, Live), process, Serving(p.previous))
  }

  /** The next step of a publisher that holds the lock. */
  function Act(w: World, r: Release, p: Phase, files: Files, process: Option<Hash>, answers: bool,
          chance: Chance): Effect
    requires !p.Ready?
  {
    var ends := Effect(files, process, None);
    match p
    case Locked =>
      (match Plan(r.rows, files)
       case Err(_) => ends
       case Ok(need) => Effect(files, process, Some(Uploading(need, 0))))
    case Uploading(need, done) =>
      if done < |need| then Effect(files[StagedAt(r, need[done]) := chance.landed], process, Some(Uploading(need, done + 1)))
      else if AllLanded(r, files, need) then Effect(files, process, Some(Promoting(NonManifest(need), 0)))
      else ends
    case Promoting(rows, done) =>
      if done < |rows| then Then(files, Moved(files, StagedAt(r, rows[done]), rows[done].path), process, Promoting(rows, done + 1))
      else Effect(files, process, Some(Switching))
    case Switching =>
      // a failed look at the installed master counts as none being there
      var current := if chance.ok then Get(files, Bin) else None;
      Effect(files, process, Some(if current == Some(r.masterSha) then MasterReady else Keeping(current)))
    case Keeping(current) =>
      var kept := if current.Some? && Master(current.value) !in files && Bin in files then files[Master(current.value) := files[Bin]] else files;
      if Master(r.masterSha) in kept then Effect(kept, process, Some(Pointing(r.masterSha, current, false, 0))) else Effect(kept, process, None)
    case Pointing(_, _, _, _) => PointStep(files, process, p)
    case Waiting(current) =>
      if Running(w, process, answers) == Some(r.protocol) then Effect(files, process, Some(MasterReady))
      else if chance.ok then Effect(files, process, Some(p))
      else if current.Some? then Effect(files, process, Some(Pointing(current.value, current, true, 0)))
      else ends
    case MasterReady =>
      if Running(w, process, answers) == Some(r.protocol) then Effect(files, process, Some(Answered)) else ends
    case Answered =>
      Effect(files, process, Some(if Get(files, Live) == Some(r.manifestSha) then Serving(None) else Activating(Get(files, Live), 0)))
    case Activating(_, _) => ActivateStep(w, r, files, process, p)
    case Serving(previous) =>
      if chance.ok then Effect(files, process, Some(Cleaning))
      else if previous.Some? then Effect(files, process, Some(Restoring(previous.value, false)))
      else ends
    case Restoring(kept, installed) =>
      if !installed then Then(files, Copied(files, Replaced(w.short(kept)), LiveNew), process, Restoring(kept, true))
      else Effect(if LiveNew in files then Without(files[Live := files[LiveNew]], LiveNew) else files, process, None)
    case Cleaning =>
      Effect(map path | path in files && !(path.Staged? && path.release == r.id) :: files[path], process, None)
  }
}
