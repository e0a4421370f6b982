/** The crash behaviour of one pipeline token: staging directories and manifests
    (core/transaction_manager.py), the checkpoint file (core/recovery.py) and the order in which
    core/handshake.py writes them. A crash may hit between any two disk operations, also during
    recovery; tree removal deletes one entry at a time in any order. */
module CrashRecovery {
  import opened Common
  import opened Workspace

  /** Position of the stage in `_STAGE_RANK`. */
  type Stage = n: nat | n < 3

  /** One transaction directory: the paths listed in its manifest, if that exists, and its files. */
  datatype Dir = Dir(manifest: Option<seq<Path>>, files: Tree)

  datatype Disk = Disk(live: Tree, staging: map<Stage, Dir>, checkpoint: Option<Stage>)

  /** Where the (single) pipeline process is. */
  datatype Proc =
    | Down
    | Scanning(active: Option<Stage>, pending: set<Stage>)                    // cleanup_workspace_staging
    | Applying(active: Option<Stage>, pending: set<Stage>, stage: Stage, todo: seq<Path>)
    | Removing(active: Option<Stage>, pending: set<Stage>, stage: Stage)      // shutil.rmtree
    | Idle(done: Option<Stage>)                                               // between two stages
    | Staging(stage: Stage, copying: set<Path>)                               // inside the agent's stage
    | Committing(stage: Stage, todo: seq<Path>)
    | Cleaning(stage: Stage, fatal: bool)                                     // _cleanup_staging

  datatype World = World(disk: Disk, proc: Proc)

  datatype Event =
    | Crash
    | Boot
    | Scan(stage: Stage)
    | ApplyNext
    | RemoveFile(path: Path)
    | RemoveManifest
    | RemoveDir
    | FinishScan
    | BeginStage
    | CopyIn(path: Path)
    | Touch(path: Path)
    | WriteStaged(path: Path, data: Content)
    | RecordCheckpoint
    | RecordFails
    | CommitNext
    | Rollback
    | ClearCheckpoint

  function Rank(active: Option<Stage>): int {
    if active.None? then -1 else active.value
  }

  function DirAt(d: Disk, s: Stage): Dir {
    if s in d.staging then d.staging[s] else Dir(None, map[])
  }

  function SetDir(d: Disk, s: Stage, dir: Dir): Disk {
    d.(staging := d.staging[s := dir])
  }

  /** `os.replace(staged, live)` for one manifest entry; entries without a staged file are skipped. */
  function MoveFile(d: Disk, s: Stage, p: Path): Disk {
    var dir := DirAt(d, s);
    if s !in d.staging || p !in dir.files then d
    else SetDir(d, s, dir.(files := dir.files - {p})).(live := d.live[p := dir.files[p]])
  }

  function NextStage(cp: Option<Stage>): Option<Stage> {
    match cp
    case None => Some(0)
    case Some(s) => if s < 2 then Some(s + 1) else None
  }

  /** Whether the pipeline has a checkpoint manager, and whether `record_stage` can return False. Without a
      manager a stage is committed all the same; after a failed record it is neither committed nor rolled
      back, and the pipeline goes on with its staging directory left behind. */
  datatype Store = NoStore | Reliable | Faulty

  /** One step of the process, the disk or the environment; a disabled event changes nothing. */
  function Apply(store: Store, w: World, e: Event): World {
    var d, pr := w.disk, w.proc;
    match e
    case Crash => World(d, Down)
    case Boot => if pr.Down? then World(d, Scanning(d.checkpoint, d.staging.Keys)) else w
    case Scan(s) =>
      if !pr.Scanning? || s !in pr.pending then w
      else if s > Rank(pr.active) || DirAt(d, s).manifest.None? then World(d, Removing(pr.active, pr.pending - {s}, s))
      else World(d, Applying(pr.active, pr.pending - {s}, s, DirAt(d, s).manifest.value))
    case ApplyNext =>
      if !pr.Applying? then w
      else if pr.todo == [] then World(d, Removing(pr.active, pr.pending, pr.stage))
      else World(MoveFile(d, pr.stage, pr.todo[0]), Applying(pr.active, pr.pending, pr.stage, pr.todo[1..]))
    case RemoveFile(p) =>
      if !pr.Removing? && !pr.Cleaning? then w
      else if pr.stage !in d.staging then w
      else
        var dir := DirAt(d, pr.stage);
        World(SetDir(d, pr.stage, dir.(files := dir.files - {p})), pr)
    case RemoveManifest =>
      if !pr.Removing? && !pr.Cleaning? then w
      else if pr.stage !in d.staging then w
      else World(SetDir(d, pr.stage, DirAt(d, pr.stage).(manifest := None)), pr)
    case RemoveDir =>
      if pr.Removing? then World(d.(staging := d.staging - {pr.stage}), Scanning(pr.active, pr.pending))
      else if pr.Cleaning? then World(d.(staging := d.staging - {pr.stage}), if pr.fatal then Down else Idle(Some(pr.stage)))
      else w
    case FinishScan => if pr.Scanning? && pr.pending == {} then World(d, Idle(pr.active)) else w
    case BeginStage =>
      if pr.Idle? && NextStage(pr.done).Some? then
        var s := NextStage(pr.done).value;
        World(SetDir(d, s, Dir(Some([]), map[])), Staging(s, {}))
      else w
    case CopyIn(p) =>
      if pr.Staging? && p !in DirAt(d, pr.stage).files && p in d.live then
        var dir := DirAt(d, pr.stage);
        World(SetDir(d, pr.stage, dir.(files := dir.files[p := d.live[p]])), Staging(pr.stage, pr.copying + {p}))
      else w
    case Touch(p) =>
      if pr.Staging? && DirAt(d, pr.stage).manifest.Some? then
        var dir := DirAt(d, pr.stage);
        var touched := if p in dir.manifest.value then dir.manifest.value else dir.manifest.value + [p];
        World(SetDir(d, pr.stage, dir.(manifest := Some(touched))), Staging(pr.stage, pr.copying - {p}))
      else w
    case WriteStaged(p, data) =>
      var dir := if pr.Staging? then DirAt(d, pr.stage) else Dir(None, map[]);
      if dir.manifest.Some? && p in dir.manifest.value then
        World(SetDir(d, pr.stage, dir.(files := dir.files[p := data])), pr)
      else w
    case RecordCheckpoint =>
      if StageOver(w) then
        World(if store.NoStore? then d else d.(checkpoint := Some(pr.stage)),
              Committing(pr.stage, DirAt(d, pr.stage).manifest.value))
      else w
    case RecordFails => if StageOver(w) && store.Faulty? then World(d, Idle(Some(pr.stage))) else w
    case CommitNext =>
      if !pr.Committing? then w
      else if pr.todo == [] then World(d, Cleaning(pr.stage, false))
      else World(MoveFile(d, pr.stage, pr.todo[0]), Committing(pr.stage, pr.todo[1..]))
    case Rollback => if pr.Staging? then World(d, Cleaning(pr.stage, true)) else w
    case ClearCheckpoint => if pr.Idle? && pr.done == Some(2) then World(d.(checkpoint := None), Down) else w
  }

  /** The agent is done and the quorum has approved. */
  predicate StageOver(w: World) {
    w.proc.Staging? && w.proc.copying == {} && DirAt(w.disk, w.proc.stage).manifest.Some?
  }

  function Execute(store: Store, w: World, events: seq<Event>): World {
    if events == [] then w
    else Apply(store, Execute(store, w, events[..|events| - 1]), events[|events| - 1])
  }

  // ---------------------------------------------------------------- what a restart would produce

  /** The staged files that a manifest vouches for. */
  function Vouched(dir: Dir): Tree {
    match dir.manifest
    case None => map[]
    case Some(touched) => map p | p in dir.files && p in touched :: dir.files[p]
  }

  /** The live tree that a crash now, followed by an undisturbed restart, leaves behind. */
  function Recovered(d: Disk): Tree {
    match d.checkpoint
    case None => d.live
    case Some(s) => d.live + Vouched(DirAt(d, s))
  }

  /** What an event adds when it ends a stage: all the files that the stage staged. */
  function Gain(store: Store, w: World, e: Event): Tree {
    if StageOver(w) && (e.RecordCheckpoint? || (e.RecordFails? && store.Faulty?))
    then DirAt(w.disk, w.proc.stage).files else map[]
  }

  /** The tree of an ideal run in which every stage is applied at once when it is finished, and not at all
      before that. */
  function Ideal(store: Store, w: World, events: seq<Event>): Tree {
    if events == [] then w.disk.live
    else
      var n := |events| - 1;
      Ideal(store, w, events[..n]) + Gain(store, Execute(store, w, events[..n]), events[n])
  }

  /** What a recorded checkpoint promises to publish. */
  function Saved(w: World, e: Event): Tree {
    if StageOver(w) && e.RecordCheckpoint? then DirAt(w.disk, w.proc.stage).files else map[]
  }

  /** The tree of a run in which every stage is applied at once when it is recorded. */
  function RecordedTree(store: Store, w: World, events: seq<Event>): Tree {
    if events == [] then w.disk.live
    else
      var n := |events| - 1;
      RecordedTree(store, w, events[..n]) + Saved(Execute(store, w, events[..n]), events[n])
  }

  /** No checkpoint is recorded while the directory of an earlier stage is left. */
  predicate Clean(w: World, e: Event) {
    StageOver(w) && e.RecordCheckpoint? ==> forall s :: s in w.disk.staging ==> s >= w.proc.stage
  }

  ghost predicate CleanRun(store: Store, w: World, events: seq<Event>) {
    forall k :: 0 <= k < |events| ==> Clean(Execute(store, w, events[..k]), events[k])
  }

  /** The trees of which each stage left all its files or none: one for every choice of stages. */
  function Outcomes(store: Store, w: World, events: seq<Event>): set<Tree> {
    if events == [] then {w.disk.live}
    else
      var n := |events| - 1;
      WithOrWithout(Outcomes(store, w, events[..n]), Gain(store, Execute(store, w, events[..n]), events[n]))
  }

  function WithOrWithout(trees: set<Tree>, gain: Tree): set<Tree> {
    trees + set t | t in trees :: t + gain
  }

  function Start(live: Tree): World {
    World(Disk(live, map[], None), Down)
  }

  ghost predicate Listed(dir: Dir, todo: seq<Path>) {
    dir.manifest.Some? && forall p :: p in todo ==> p in dir.manifest.value
  }

  ghost predicate Inv(w: World) {
    var d, pr := w.disk, w.proc;
    && (forall s :: s in d.staging ==> Rank(d.checkpoint) <= s)
    && match pr
       case Down => true
       case Scanning(active, pending) => active == d.checkpoint && d.staging.Keys <= pending
       case Applying(active, pending, s, todo) =>
         && active == d.checkpoint && active == Some(s) && d.staging.Keys <= pending + {s}
         && Listed(DirAt(d, s), todo)
         && (forall p :: p in Vouched(DirAt(d, s)) ==> p in todo)
       case Removing(active, pending, s) =>
         && active == d.checkpoint && d.staging.Keys <= pending + {s}
         && (active == Some(s) ==> Vouched(DirAt(d, s)) == map[])
       case Idle(done) => Rank(d.checkpoint) <= Rank(done) && NoneDue(d)
       case Staging(s, copying) =>
         && Rank(d.checkpoint) < s && NoneDue(d) && s in d.staging && DirAt(d, s).manifest.Some?
         && (forall p :: p in DirAt(d, s).files ==> p in DirAt(d, s).manifest.value || p in copying)
       case Committing(s, todo) =>
         && d.checkpoint == Some(s) && Listed(DirAt(d, s), todo)
         && (forall p :: p in Vouched(DirAt(d, s)) ==> p in todo)
       case Cleaning(s, fatal) =>
         && (d.checkpoint == Some(s) ==> Vouched(DirAt(d, s)) == map[])
         && (!fatal ==> d.checkpoint == Some(s))
  }

  /** The checkpoint covers no directory. */
  ghost predicate NoneDue(d: Disk) {
    forall s :: s in d.staging ==> s > Rank(d.checkpoint)
  }

  /** Moving one file keeps what a restart would produce and empties that path from the directory. */
  lemma MoveKeeps(d: Disk, s: Stage, p: Path)
    requires d.checkpoint == Some(s) && p in Vouched(DirAt(d, s))
    ensures Recovered(MoveFile(d, s, p)) == Recovered(d)
    ensures Vouched(DirAt(MoveFile(d, s, p), s)) == Vouched(DirAt(d, s)) - {p}
  {
    var v := Vouched(DirAt(d, s));
    var d' := MoveFile(d, s, p);
    assert Vouched(DirAt(d', s)) == v - {p};
    OverlayMove(d.live, v, p);
  }

  /** One entry of a commit or recovery loop: files the manifest lists are exactly those it moves. */
  lemma LoopStepKeeps(d: Disk, s: Stage, todo: seq<Path>)
    requires d.checkpoint == Some(s) && todo != [] && Listed(DirAt(d, s), todo)
    requires forall p :: p in Vouched(DirAt(d, s)) ==> p in todo
    ensures Recovered(MoveFile(d, s, todo[0])) == Recovered(d)
    ensures Listed(DirAt(MoveFile(d, s, todo[0]), s), todo[1..])
    ensures forall p :: p in Vouched(DirAt(MoveFile(d, s, todo[0]), s)) ==> p in todo[1..]
  {
    assert todo[0] in todo;
    assert forall p :: p in todo ==> p == todo[0] || p in todo[1..];
    if todo[0] in DirAt(d, s).files && s in d.staging {
      MoveKeeps(d, s, todo[0]);
    }
  }

  lemma NoEntryNoGain(d: Disk)
    requires NoneDue(d)
    ensures Recovered(d) == d.live
  {
  }

  /** Every event of the recovery procedure keeps the invariant and the recovered tree. */
  lemma RecoveryStepKeeps(store: Store, w: World, e: Event)
    requires Inv(w) && (w.proc.Scanning? || w.proc.Applying? || w.proc.Removing?)
    ensures Inv(Apply(store, w, e)) && Recovered(Apply(store, w, e).disk) == Recovered(w.disk)
  {
    var d, pr := w.disk, w.proc;
    if pr.Applying? && e.ApplyNext? && pr.todo != [] {
      LoopStepKeeps(d, pr.stage, pr.todo);
    } else if pr.Removing? && (e.RemoveFile? || e.RemoveManifest? || e.RemoveDir?) {
      RemovalKeeps(d, pr.stage, e);
    }
  }

  /** Tree removal, entry by entry, of a directory that vouches for nothing or is not yet due. */
  lemma RemovalKeeps(d: Disk, s: Stage, e: Event)
    requires d.checkpoint == Some(s) ==> Vouched(DirAt(d, s)) == map[]
    ensures Recovered(d.(staging := d.staging - {s})) == Recovered(d)
    ensures s in d.staging ==> forall p ::
      var d' := SetDir(d, s, DirAt(d, s).(files := DirAt(d, s).files - {p}));
      Recovered(d') == Recovered(d) && (d.checkpoint == Some(s) ==> Vouched(DirAt(d', s)) == map[])
    ensures s in d.staging ==>
      var d' := SetDir(d, s, DirAt(d, s).(manifest := None));
      Recovered(d') == Recovered(d) && Vouched(DirAt(d', s)) == map[]
  {
    forall p | s in d.staging
      ensures var d' := SetDir(d, s, DirAt(d, s).(files := DirAt(d, s).files - {p}));
        Recovered(d') == Recovered(d) && (d.checkpoint == Some(s) ==> Vouched(DirAt(d', s)) == map[])
    {
      var dir := DirAt(d, s);
      assert forall q :: q in Vouched(dir.(files := dir.files - {p})) ==> q in Vouched(dir);
    }
  }

  lemma StagingStepKeeps(store: Store, w: World, e: Event)
    requires Inv(w) && w.proc.Staging? && !store.NoStore? && Clean(w, e)
    ensures Inv(Apply(store, w, e))
    ensures Recovered(Apply(store, w, e).disk) == Recovered(w.disk) + Saved(w, e)
  {
    var d, s, w' := w.disk, w.proc.stage, Apply(store, w, e);
    var dir := DirAt(d, s);
    NoEntryNoGain(d);
    if StageOver(w) && e.RecordCheckpoint? {
      assert Vouched(dir) == dir.files;
    } else {
      assert Recovered(w'.disk) == w'.disk.live;
    }
  }

  lemma CommitStepKeeps(store: Store, w: World, e: Event)
    requires Inv(w) && (w.proc.Committing? || w.proc.Cleaning?)
    ensures Inv(Apply(store, w, e)) && Recovered(Apply(store, w, e).disk) == Recovered(w.disk)
  {
    var d, pr := w.disk, w.proc;
    if pr.Committing? && e.CommitNext? && pr.todo != [] {
      LoopStepKeeps(d, pr.stage, pr.todo);
    } else if pr.Cleaning? && (e.RemoveFile? || e.RemoveManifest? || e.RemoveDir?) {
      RemovalKeeps(d, pr.stage, e);
    }
  }

  lemma RestStepKeeps(store: Store, w: World, e: Event)
    requires Inv(w) && (w.proc.Down? || w.proc.Idle?)
    ensures Inv(Apply(store, w, e)) && Recovered(Apply(store, w, e).disk) == Recovered(w.disk)
  {
    if w.proc.Idle? {
      NoEntryNoGain(w.disk);
    }
  }

  /** Only recording a stage changes what a restart produces, and it does so in one step. */
  lemma StepKeeps(store: Store, w: World, e: Event)
    requires Inv(w) && !store.NoStore? && Clean(w, e)
    ensures Inv(Apply(store, w, e))
    ensures Recovered(Apply(store, w, e).disk) == Recovered(w.disk) + Saved(w, e)
  {
    if w.proc.Staging? {
      StagingStepKeeps(store, w, e);
    } else if w.proc.Committing? || w.proc.Cleaning? {
      CommitStepKeeps(store, w, e);
    } else if w.proc.Down? || w.proc.Idle? {
      RestStepKeeps(store, w, e);
    } else {
      RecoveryStepKeeps(store, w, e);
    }
  }

  lemma CleanPrefix(store: Store, w: World, events: seq<Event>)
    requires CleanRun(store, w, events) && events != []
    ensures CleanRun(store, w, events[..|events| - 1])
  {
    var n := |events| - 1;
    forall k | 0 <= k < n ensures Clean(Execute(store, w, events[..n][..k]), events[..n][k]) {
      assert events[..n][..k] == events[..k];
    }
  }

  /** After any run with crashes, also during recovery, a restart would produce exactly the recorded stages,
      provided that no checkpoint was recorded over an earlier directory. */
  lemma {:induction false} RunKeeps(store: Store, live: Tree, events: seq<Event>)
    requires !store.NoStore? && CleanRun(store, Start(live), events)
    ensures Inv(Execute(store, Start(live), events))
    ensures Recovered(Execute(store, Start(live), events).disk) == RecordedTree(store, Start(live), events)
  {
    if events != [] {
      var n := |events| - 1;
      CleanPrefix(store, Start(live), events);
      RunKeeps(store, live, events[..n]);
      StepKeeps(store, Execute(store, Start(live), events[..n]), events[n]);
    }
  }

  // ---- with recording that never fails every run is of that kind

  /** Nothing is left behind. */
  ghost predicate Tidy(w: World) {
    var keys := w.disk.staging.Keys;
    match w.proc
    case Idle(_) => keys == {}
    case Staging(s, _) => keys == {s}
    case Committing(s, _) => keys <= {s}
    case Cleaning(s, _) => keys <= {s}
    case _ => true
  }

  lemma TidyStep(w: World, e: Event)
    requires Inv(w) && Tidy(w)
    ensures Tidy(Apply(Reliable, w, e)) && Clean(w, e) && Saved(w, e) == Gain(Reliable, w, e)
  {
    if w.proc.Committing? && e.CommitNext? && w.proc.todo != [] {
      assert MoveFile(w.disk, w.proc.stage, w.proc.todo[0]).staging.Keys == w.disk.staging.Keys;
    }
  }

  lemma {:induction false} ReliableIsClean(live: Tree, events: seq<Event>)
    ensures CleanRun(Reliable, Start(live), events) && Tidy(Execute(Reliable, Start(live), events))
    ensures RecordedTree(Reliable, Start(live), events) == Ideal(Reliable, Start(live), events)
  {
    if events != [] {
      var n := |events| - 1;
      ReliableIsClean(live, events[..n]);
      RunKeeps(Reliable, live, events[..n]);
      TidyStep(Execute(Reliable, Start(live), events[..n]), events[n]);
      forall k | 0 <= k < |events| ensures Clean(Execute(Reliable, Start(live), events[..k]), events[k]) {
        if k < n {
          assert events[..n][..k] == events[..k];
        }
      }
    }
  }

  predicate Rested(store: Store, live: Tree, events: seq<Event>) {
    Execute(store, Start(live), events).proc.Idle?
  }

  /** Every run that comes to rest shows all of a stage's files or none, stage by stage. */
  ghost predicate CrashAtomic(store: Store) {
    forall live, events :: Rested(store, live, events) ==>
      Execute(store, Start(live), events).disk.live in Outcomes(store, Start(live), events)
  }

  /** Every run that comes to rest shows the finished stages completely and the unfinished ones not at all. */
  ghost predicate FinishedSurvive(store: Store) {
    forall live, events :: Rested(store, live, events) ==>
      Execute(store, Start(live), events).disk.live == Ideal(store, Start(live), events)
  }

  lemma {:induction false} IdealIsOutcome(store: Store, w: World, events: seq<Event>)
    ensures Ideal(store, w, events) in Outcomes(store, w, events)
  {
    if events != [] {
      IdealIsOutcome(store, w, events[..|events| - 1]);
    }
  }

  lemma {:induction false} RecordedIsOutcome(store: Store, w: World, events: seq<Event>)
    ensures RecordedTree(store, w, events) in Outcomes(store, w, events)
  {
    if events != [] {
      var n := |events| - 1;
      RecordedIsOutcome(store, w, events[..n]);
      var t, before := RecordedTree(store, w, events[..n]), Execute(store, w, events[..n]);
      assert t + map[] == t;
      assert Saved(before, events[n]) == map[] || Saved(before, events[n]) == Gain(store, before, events[n]);
    }
  }

  /** A run that records no checkpoint while an earlier stage's directory is left ends with exactly the
      recorded stages, so each stage is all or nothing, even if recording fails now and then. */
  lemma CleanRunsAreAtomic(store: Store, live: Tree, events: seq<Event>)
    requires !store.NoStore? && CleanRun(store, Start(live), events) && Rested(store, live, events)
    ensures Execute(store, Start(live), events).disk.live == RecordedTree(store, Start(live), events)
    ensures Execute(store, Start(live), events).disk.live in Outcomes(store, Start(live), events)
  {
    RunKeeps(store, live, events);
    NoEntryNoGain(Execute(store, Start(live), events).disk);
    RecordedIsOutcome(store, Start(live), events);
  }

  // ---------------------------------------------------------------- runs that get to the end

  ghost predicate Reaches(store: Store, w: World, w': World) {
    exists events :: Execute(store, w, events) == w'
  }

  lemma ReachesStep(store: Store, w: World, w': World, e: Event)
    requires Reaches(store, w, w')
    ensures Reaches(store, w, Apply(store, w', e))
  {
    var events :| Execute(store, w, events) == w';
    assert (events + [e])[..|events|] == events;
    assert Execute(store, w, events + [e]) == Apply(store, w', e);
  }

  /** Between two stages, with nothing left in the staging area. */
  function Resting(live: Tree, checkpoint: Option<Stage>, done: Option<Stage>): World {
    World(Disk(live, map[], checkpoint), Idle(done))
  }

  /** The agent of stage `s` has staged `files` on top of a clean directory. */
  ghost predicate Staged(w: World, live: Tree, checkpoint: Option<Stage>, s: Stage, files: Tree) {
    && w.proc == Staging(s, {}) && s in w.disk.staging
    && w.disk == Disk(live, map[s := w.disk.staging[s]], checkpoint)
    && w.disk.staging[s].files == files && w.disk.staging[s].manifest.Some?
    && forall p :: p in files ==> p in w.disk.staging[s].manifest.value
  }

  lemma StageOne(store: Store, w0: World, w: World, live: Tree, cp: Option<Stage>, s: Stage, files: Tree, p: Path, data: Content)
    returns (w': World)
    requires Reaches(store, w0, w) && Staged(w, live, cp, s, files)
    ensures Reaches(store, w0, w') && Staged(w', live, cp, s, files[p := data])
  {
    ReachesStep(store, w0, w, Touch(p));
    var touched := Apply(store, w, Touch(p));
    assert Staged(touched, live, cp, s, files) && p in touched.disk.staging[s].manifest.value;
    ReachesStep(store, w0, touched, WriteStaged(p, data));
    w' := Apply(store, touched, WriteStaged(p, data));
  }

  /** An append starts from a copy of the live file, which counts as staged once the manifest lists it. */
  lemma AppendCopies(store: Store, w: World, live: Tree, cp: Option<Stage>, s: Stage, files: Tree, p: Path)
    requires Staged(w, live, cp, s, files) && p !in files && p in live
    ensures !StageOver(Apply(store, w, CopyIn(p)))
    ensures Staged(Apply(store, Apply(store, w, CopyIn(p)), Touch(p)), live, cp, s, files[p := live[p]])
  {
    var copied := Apply(store, w, CopyIn(p));
    assert copied.disk.staging == map[s := copied.disk.staging[s]];
    var listed := Apply(store, copied, Touch(p));
    assert listed.disk.staging == map[s := listed.disk.staging[s]];
  }

  lemma {:induction false} StageAll(store: Store, w0: World, w: World, live: Tree, cp: Option<Stage>, s: Stage, files: Tree)
    returns (w': World)
    requires Reaches(store, w0, w) && Staged(w, live, cp, s, map[])
    ensures Reaches(store, w0, w') && Staged(w', live, cp, s, files)
    decreases files.Keys
  {
    if files == map[] {
      return w;
    }
    var p :| p in files;
    var before := StageAll(store, w0, w, live, cp, s, files - {p});
    w' := StageOne(store, w0, before, live, cp, s, files - {p}, p, files[p]);
    assert (files - {p})[p := files[p]] == files;
  }

  /** The commit of stage `s` has these entries of its manifest ahead. */
  ghost predicate Moving(w: World, after: Tree, cp: Option<Stage>, s: Stage, todo: seq<Path>) {
    && w.proc == Committing(s, todo) && s in w.disk.staging
    && w.disk == Disk(w.disk.live, map[s := w.disk.staging[s]], cp)
    && w.disk.live + w.disk.staging[s].files == after
    && forall p :: p in w.disk.staging[s].files ==> p in todo
  }

  lemma {:induction false} MoveAll(store: Store, w0: World, w: World, after: Tree, cp: Option<Stage>, s: Stage, todo: seq<Path>)
    requires Reaches(store, w0, w) && Moving(w, after, cp, s, todo)
    ensures Reaches(store, w0, Resting(after, cp, Some(s)))
    decreases |todo|
  {
    ReachesStep(store, w0, w, CommitNext);
    var w' := Apply(store, w, CommitNext);
    if todo == [] {
      assert w.disk.staging[s].files == map[];
      ReachesStep(store, w0, w', RemoveDir);
      assert w'.disk.staging - {s} == map[];
      assert Apply(store, w', RemoveDir) == Resting(after, cp, Some(s));
    } else {
      MoveOne(store, w, after, cp, s, todo);
      MoveAll(store, w0, w', after, cp, s, todo[1..]);
    }
  }

  lemma MoveOne(store: Store, w: World, after: Tree, cp: Option<Stage>, s: Stage, todo: seq<Path>)
    requires Moving(w, after, cp, s, todo) && todo != []
    ensures Moving(Apply(store, w, CommitNext), after, cp, s, todo[1..])
  {
    var files, p := w.disk.staging[s].files, todo[0];
    assert todo == [p] + todo[1..];
    if p in files {
      OverlayMove(w.disk.live, files, p);
      MovesTo(store, w, cp, s, todo);
    }
  }

  lemma MovesTo(store: Store, w: World, cp: Option<Stage>, s: Stage, todo: seq<Path>)
    requires w.proc == Committing(s, todo) && todo != [] && s in w.disk.staging
    requires w.disk == Disk(w.disk.live, map[s := w.disk.staging[s]], cp) && todo[0] in w.disk.staging[s].files
    ensures var dir, p := w.disk.staging[s], todo[0];
      Apply(store, w, CommitNext)
        == World(Disk(w.disk.live[p := dir.files[p]], map[s := dir.(files := dir.files - {p})], cp), Committing(s, todo[1..]))
  {
    var dir, p := w.disk.staging[s], todo[0];
    assert w.disk.staging[s := dir.(files := dir.files - {p})] == map[s := dir.(files := dir.files - {p})];
  }

  /** From rest the next stage can publish any files, is recorded if there is a manager, and rests again. */
  lemma StageCompletes(store: Store, w0: World, live: Tree, cp: Option<Stage>, done: Option<Stage>, files: Tree)
    requires Reaches(store, w0, Resting(live, cp, done)) && NextStage(done).Some?
    ensures var s := NextStage(done);
      Reaches(store, w0, Resting(live + files, if store.NoStore? then cp else s, s))
  {
    var w, s := Resting(live, cp, done), NextStage(done).value;
    ReachesStep(store, w0, w, BeginStage);
    var begun := Apply(store, w, BeginStage);
    assert Staged(begun, live, cp, s, map[]);
    var staged := StageAll(store, w0, begun, live, cp, s, files);
    ReachesStep(store, w0, staged, RecordCheckpoint);
    var cp' := if store.NoStore? then cp else Some(s);
    var recorded := Apply(store, staged, RecordCheckpoint);
    assert Moving(recorded, live + files, cp', s, staged.disk.staging[s].manifest.value);
    MoveAll(store, w0, recorded, live + files, cp', s, staged.disk.staging[s].manifest.value);
  }

  /** After a crash at rest, the restart goes on behind the recorded stage. */
  lemma RestartGoesOn(store: Store, w0: World, live: Tree, cp: Option<Stage>, done: Option<Stage>)
    requires Reaches(store, w0, Resting(live, cp, done))
    ensures Reaches(store, w0, Resting(live, cp, cp))
  {
    var w := Resting(live, cp, done);
    ReachesStep(store, w0, w, Crash);
    ReachesStep(store, w0, Apply(store, w, Crash), Boot);
    ReachesStep(store, w0, Apply(store, Apply(store, w, Crash), Boot), FinishScan);
  }

  lemma StartRests(store: Store, live: Tree)
    ensures Reaches(store, Start(live), Resting(live, None, None))
  {
    var w := Start(live);
    assert Execute(store, w, []) == w;
    ReachesStep(store, w, w, Boot);
    ReachesStep(store, w, Apply(store, w, Boot), FinishScan);
  }

  /** Three stages can always run to the end, with a crash and a restart after each of them: their files are
      live in this order, nothing is staged, and the checkpoint is gone, so the next run starts anew. */
  lemma PipelineCompletes(store: Store, live: Tree, a: Tree, b: Tree, c: Tree)
    requires !store.NoStore?
    ensures Reaches(store, Start(live), World(Disk(live + a + b + c, map[], None), Down))
  {
    var w := Start(live);
    StartRests(store, live);
    StageCompletes(store, w, live, None, None, a);
    RestartGoesOn(store, w, live + a, Some(0), Some(0));
    StageCompletes(store, w, live + a, Some(0), Some(0), b);
    RestartGoesOn(store, w, live + a + b, Some(1), Some(1));
    StageCompletes(store, w, live + a + b, Some(1), Some(1), c);
    RestartGoesOn(store, w, live + a + b + c, Some(2), Some(2));
    ReachesStep(store, w, Resting(live + a + b + c, Some(2), Some(2)), ClearCheckpoint);
  }

  /** A stage that is rolled back leaves the live files and the checkpoint alone and nothing in its directory. */
  lemma RollbackDrops(store: Store, w: World)
    requires w.proc.Staging?
    ensures Apply(store, Apply(store, w, Rollback), RemoveDir)
      == World(Disk(w.disk.live, w.disk.staging - {w.proc.stage}, w.disk.checkpoint), Down)
  {
  }

  lemma SurvivalIsAtomic(store: Store)
    requires FinishedSurvive(store)
    ensures CrashAtomic(store)
  {
    forall live, events | Rested(store, live, events)
      ensures Execute(store, Start(live), events).disk.live in Outcomes(store, Start(live), events)
    {
      IdealIsOutcome(store, Start(live), events);
    }
  }

  lemma ReliableSurvives()
    ensures FinishedSurvive(Reliable)
  {
    forall live, events | Rested(Reliable, live, events)
      ensures Execute(Reliable, Start(live), events).disk.live == Ideal(Reliable, Start(live), events)
    {
      ReliableIsClean(live, events);
      CleanRunsAreAtomic(Reliable, live, events);
    }
  }

  /** All or nothing holds over every run, crashes during recovery included, exactly when each stage is
      recorded before it is committed and recording does not fail; and then what survives is exactly the
      recorded stages. */
  lemma CrashAtomicIff(store: Store)
    ensures CrashAtomic(store) <==> store == Reliable
    ensures FinishedSurvive(store) <==> store == Reliable
  {
    match store
    case Reliable =>
      ReliableSurvives();
      SurvivalIsAtomic(Reliable);
    case NoStore =>
      TornCommit();
      RestsOutside(NoStore, Torn(), TornOutcomes());
    case Faulty =>
      StaleStageReturns();
      RestsOutside(Faulty, Stale(), StaleOutcomes());
  }

  // ---------------------------------------------------------------- runs that are not atomic

  /** Some run from the empty tree leads to `w`, and `trees` are its all-or-nothing outcomes. */
  ghost predicate Reached(store: Store, w: World, trees: set<Tree>) {
    exists events :: Execute(store, Start(map[]), events) == w && Outcomes(store, Start(map[]), events) == trees
  }

  lemma RestsOutside(store: Store, w: World, trees: set<Tree>)
    requires Reached(store, w, trees) && w.proc.Idle? && w.disk.live !in trees
    ensures !CrashAtomic(store) && !FinishedSurvive(store)
  {
    var events :| Execute(store, Start(map[]), events) == w && Outcomes(store, Start(map[]), events) == trees;
    assert Rested(store, map[], events);
    if FinishedSurvive(store) {
      SurvivalIsAtomic(store);
    }
  }

  type Region = (World, set<Tree>) -> bool

  /** A set of (world, outcomes) pairs that no step leaves. */
  ghost predicate Closed(store: Store, r: Region) {
    forall w, trees, e {:trigger r(w, trees), Apply(store, w, e)} ::
      r(w, trees) ==> r(Apply(store, w, e), WithOrWithout(trees, Gain(store, w, e)))
  }

  /** What every closed set that holds the start holds is reached by a run. */
  lemma ReachedIsClosed(store: Store)
    ensures Closed(store, (w: World, trees: set<Tree>) => Reached(store, w, trees)) && Reached(store, Start(map[]), {map[]})
  {
    forall w, trees, e | Reached(store, w, trees)
      ensures Reached(store, Apply(store, w, e), WithOrWithout(trees, Gain(store, w, e)))
    {
      OneMore(store, w, trees, e);
    }
    assert Execute(store, Start(map[]), []) == Start(map[]) && Outcomes(store, Start(map[]), []) == {map[]};
  }

  lemma OneMore(store: Store, w: World, trees: set<Tree>, e: Event)
    requires Reached(store, w, trees)
    ensures Reached(store, Apply(store, w, e), WithOrWithout(trees, Gain(store, w, e)))
  {
    var events :| Execute(store, Start(map[]), events) == w && Outcomes(store, Start(map[]), events) == trees;
    var more := events + [e];
    assert more[..|events|] == events;
    assert Execute(store, Start(map[]), more) == Apply(store, w, e);
    assert Outcomes(store, Start(map[]), more) == WithOrWithout(trees, Gain(store, w, e));
  }

  /** A step that ends no stage. */
  lemma ReachQuiet(store: Store, r: Region, w: World, trees: set<Tree>, e: Event, w': World)
    requires Closed(store, r) && r(w, trees) && Gain(store, w, e) == map[] && Apply(store, w, e) == w'
    ensures r(w', trees)
  {
    assert forall t :: t in trees ==> t + map[] == t;
    assert WithOrWithout(trees, map[]) == trees;
  }

  /** A step that ends a stage. */
  lemma ReachNext(store: Store, r: Region, w: World, trees: set<Tree>, e: Event, w': World, gain: Tree)
    requires Closed(store, r) && r(w, trees) && Gain(store, w, e) == gain && Apply(store, w, e) == w'
    ensures r(w', WithOrWithout(trees, gain))
  {
  }

  /** Inside stage `s`, beside the directories `older` that were left behind. */
  function Inside(live: Tree, older: map<Stage, Dir>, s: Stage, touched: seq<Path>, files: Tree): World {
    World(Disk(live, older[s := Dir(Some(touched), files)], None), Staging(s, {}))
  }

  lemma ReachFirstStage(store: Store, r: Region)
    requires Closed(store, r) && r(Start(map[]), {map[]})
    ensures r(Inside(map[], map[], 0, [], map[]), {map[]})
  {
    var d := Disk(map[], map[], None);
    assert d.staging.Keys == {};
    ReachQuiet(store, r, World(d, Down), {map[]}, Boot, World(d, Scanning(None, {})));
    ReachQuiet(store, r, World(d, Scanning(None, {})), {map[]}, FinishScan, World(d, Idle(None)));
    ReachQuiet(store, r, World(d, Idle(None)), {map[]}, BeginStage, Inside(map[], map[], 0, [], map[]));
  }

  lemma StageSteps(store: Store, live: Tree, older: map<Stage, Dir>, s: Stage, touched: seq<Path>, files: Tree, p: Path, x: Content)
    ensures p !in touched ==> Apply(store, Inside(live, older, s, touched, files), Touch(p)) == Inside(live, older, s, touched + [p], files)
    ensures p in touched ==>
      Apply(store, Inside(live, older, s, touched, files), WriteStaged(p, x)) == Inside(live, older, s, touched, files[p := x])
  {
    var none: set<Path> := {};
    assert none - {p} == none;
    var dir := Dir(Some(touched), files);
    assert older[s := dir][s := Dir(Some(touched + [p]), files)] == older[s := Dir(Some(touched + [p]), files)];
    assert older[s := dir][s := Dir(Some(touched), files[p := x])] == older[s := Dir(Some(touched), files[p := x])];
  }

  lemma TouchOne(store: Store, r: Region, trees: set<Tree>, live: Tree, older: map<Stage, Dir>, s: Stage, touched: seq<Path>, files: Tree, p: Path)
    requires Closed(store, r)
    requires r(Inside(live, older, s, touched, files), trees) && p !in touched
    ensures r(Inside(live, older, s, touched + [p], files), trees)
  {
    StageSteps(store, live, older, s, touched, files, p, "");
    ReachQuiet(store, r, Inside(live, older, s, touched, files), trees, Touch(p), Inside(live, older, s, touched + [p], files));
  }

  lemma WriteOne(store: Store, r: Region, trees: set<Tree>, live: Tree, older: map<Stage, Dir>, s: Stage, touched: seq<Path>, files: Tree, p: Path, x: Content)
    requires Closed(store, r)
    requires r(Inside(live, older, s, touched, files), trees) && p in touched
    ensures r(Inside(live, older, s, touched, files[p := x]), trees)
  {
    StageSteps(store, live, older, s, touched, files, p, x);
    ReachQuiet(store, r, Inside(live, older, s, touched, files), trees, WriteStaged(p, x), Inside(live, older, s, touched, files[p := x]));
  }

  lemma StageFile(store: Store, r: Region, trees: set<Tree>, live: Tree, older: map<Stage, Dir>, s: Stage, touched: seq<Path>, files: Tree, p: Path, x: Content)
    requires Closed(store, r)
    requires r(Inside(live, older, s, touched, files), trees) && p !in touched
    ensures r(Inside(live, older, s, touched + [p], files[p := x]), trees)
  {
    TouchOne(store, r, trees, live, older, s, touched, files, p);
    WriteOne(store, r, trees, live, older, s, touched + [p], files, p, x);
  }

  lemma StageTwoFiles(store: Store, r: Region, trees: set<Tree>, live: Tree, older: map<Stage, Dir>, s: Stage, p: Path, q: Path, x: Content, y: Content)
    requires Closed(store, r)
    requires r(Inside(live, older, s, [], map[]), trees) && p != q
    ensures r(Inside(live, older, s, [p, q], map[p := x, q := y]), trees)
  {
    StageFile(store, r, trees, live, older, s, [], map[], p, x);
    assert [] + [p] == [p] && map[][p := x] == map[p := x];
    StageFile(store, r, trees, live, older, s, [p], map[p := x], q, y);
    assert [p] + [q] == [p, q] && map[p := x][q := y] == map[p := x, q := y];
  }

  /** The first replace of a commit of two files. */
  lemma FirstReplace(store: Store, d: Disk, s: Stage, p: Path, q: Path, x: Content, y: Content)
    requires s in d.staging && d.staging[s] == Dir(Some([p, q]), map[p := x, q := y]) && p != q
    ensures Apply(store, World(d, Committing(s, [p, q])), CommitNext)
      == World(Disk(d.live[p := x], d.staging[s := Dir(Some([p, q]), map[q := y])], d.checkpoint), Committing(s, [q]))
  {
    assert map[p := x, q := y] - {p} == map[q := y];
    assert [p, q][1..] == [q];
  }

  // ---- without a checkpoint manager: a crash between two replaces

  const StagedTwo: Tree := map["a" := "1", "b" := "2"]

  function Torn(): World {
    World(Disk(map["a" := "1"], map[], None), Idle(None))
  }

  function TornOutcomes(): set<Tree> {
    {map[], StagedTwo}
  }

  lemma HalfCommitted(r: Region)
    requires Closed(NoStore, r) && r(Start(map[]), {map[]})
    ensures r(World(Disk(map["a" := "1"], map[0 := Dir(Some(["a", "b"]), map["b" := "2"])], None), Committing(0, ["b"])), TornOutcomes())
  {
    ReachFirstStage(NoStore, r);
    StageTwoFiles(NoStore, r, {map[]}, map[], map[], 0, "a", "b", "1", "2");
    var w := Inside(map[], map[], 0, ["a", "b"], StagedTwo);
    ReachNext(NoStore, r, w, {map[]}, RecordCheckpoint, World(w.disk, Committing(0, ["a", "b"])), StagedTwo);
    assert map[] + StagedTwo == StagedTwo;
    assert WithOrWithout({map[]}, StagedTwo) == TornOutcomes();
    FirstReplace(NoStore, w.disk, 0, "a", "b", "1", "2");
    var d := Disk(map["a" := "1"], map[0 := Dir(Some(["a", "b"]), map["b" := "2"])], None);
    assert map[]["a" := "1"] == d.live && w.disk.staging[0 := d.staging[0]] == d.staging;
    ReachQuiet(NoStore, r, World(w.disk, Committing(0, ["a", "b"])), TornOutcomes(), CommitNext, World(d, Committing(0, ["b"])));
  }

  lemma RestartDiscards(store: Store, r: Region, trees: set<Tree>, live: Tree, dir: Dir)
    requires Closed(store, r)
    requires r(World(Disk(live, map[0 := dir], None), Down), trees)
    ensures r(World(Disk(live, map[], None), Idle(None)), trees)
  {
    var d := Disk(live, map[0 := dir], None);
    var d' := Disk(live, map[], None);
    var pending: set<Stage> := {0};
    assert d.staging.Keys == pending && d.staging - {0} == map[] && pending - {0} == {};
    ReachQuiet(store, r, World(d, Down), trees, Boot, World(d, Scanning(None, {0})));
    ReachQuiet(store, r, World(d, Scanning(None, {0})), trees, Scan(0), World(d, Removing(None, {}, 0)));
    ReachQuiet(store, r, World(d, Removing(None, {}, 0)), trees, RemoveDir, World(d', Scanning(None, {})));
    ReachQuiet(store, r, World(d', Scanning(None, {})), trees, FinishScan, World(d', Idle(None)));
  }

  /** Without a checkpoint manager a crash between the two replaces of a commit leaves one file of two:
      the tree at rest is neither the tree without the stage nor the tree with it. */
  lemma TornCommit()
    ensures Reached(NoStore, Torn(), TornOutcomes()) && Torn().disk.live !in TornOutcomes()
  {
    ReachedIsClosed(NoStore);
    TornPath((w: World, trees: set<Tree>) => Reached(NoStore, w, trees));
  }

  lemma TornPath(r: Region)
    requires Closed(NoStore, r) && r(Start(map[]), {map[]})
    ensures r(Torn(), TornOutcomes())
    ensures Torn().disk.live !in TornOutcomes()
  {
    HalfCommitted(r);
    var dir := Dir(Some(["a", "b"]), map["b" := "2"]);
    var d := Disk(map["a" := "1"], map[0 := dir], None);
    ReachQuiet(NoStore, r, World(d, Committing(0, ["b"])), TornOutcomes(), Crash, World(d, Down));
    RestartDiscards(NoStore, r, TornOutcomes(), d.live, dir);
    assert "a" in d.live && "b" !in d.live && "b" in StagedTwo;
  }

  // ---- with a record_stage that fails once: the stage comes back over a later one

  const EarlyDir: Dir := Dir(Some(["a"]), map["a" := "1"])
  const Newer: Tree := map["a" := "2", "b" := "3"]

  function Stale(): World {
    World(Disk(map["a" := "1", "b" := "3"], map[], Some(1)), Idle(Some(1)))
  }

  function StaleOutcomes(): set<Tree> {
    {map[], map["a" := "1"], Newer}
  }

  /** Stage 0 was not recorded, stage 1 has begun. */
  lemma LeftBehind(r: Region)
    requires Closed(Faulty, r) && r(Start(map[]), {map[]})
    ensures r(Inside(map[], map[0 := EarlyDir], 1, [], map[]), {map[], map["a" := "1"]})
  {
    ReachFirstStage(Faulty, r);
    StageFile(Faulty, r, {map[]}, map[], map[], 0, [], map[], "a", "1");
    assert [] + ["a"] == ["a"] && map[]["a" := "1"] == map["a" := "1"];
    var w := Inside(map[], map[], 0, ["a"], map["a" := "1"]);
    ReachNext(Faulty, r, w, {map[]}, RecordFails, World(w.disk, Idle(Some(0))), map["a" := "1"]);
    assert map[] + map["a" := "1"] == map["a" := "1"];
    assert WithOrWithout({map[]}, map["a" := "1"]) == {map[], map["a" := "1"]};
    var d := Disk(map[], map[0 := EarlyDir], None);
    assert w.disk == d;
    ReachQuiet(Faulty, r, World(d, Idle(Some(0))), {map[], map["a" := "1"]}, BeginStage, Inside(map[], map[0 := EarlyDir], 1, [], map[]));
  }

  lemma LaterRecorded(r: Region)
    requires Closed(Faulty, r) && r(Start(map[]), {map[]})
    ensures r(World(Disk(map[], map[0 := EarlyDir, 1 := Dir(Some(["a", "b"]), Newer)], Some(1)), Committing(1, ["a", "b"])), StaleOutcomes())
  {
    LeftBehind(r);
    var trees: set<Tree> := {map[], map["a" := "1"]};
    StageTwoFiles(Faulty, r, trees, map[], map[0 := EarlyDir], 1, "a", "b", "2", "3");
    var w := Inside(map[], map[0 := EarlyDir], 1, ["a", "b"], Newer);
    ReachNext(Faulty, r, w, trees, RecordCheckpoint, World(w.disk.(checkpoint := Some(1)), Committing(1, ["a", "b"])), Newer);
    assert map[] + Newer == Newer && map["a" := "1"] + Newer == Newer;
    assert WithOrWithout(trees, Newer) == StaleOutcomes();
    assert w.disk.staging == map[0 := EarlyDir, 1 := Dir(Some(["a", "b"]), Newer)];
  }

  lemma LaterCommitted(r: Region)
    requires Closed(Faulty, r) && r(Start(map[]), {map[]})
    ensures r(World(Disk(Newer, map[0 := EarlyDir], Some(1)), Idle(Some(1))), StaleOutcomes())
  {
    LaterRecorded(r);
    var t := StaleOutcomes();
    var d0 := Disk(map[], map[0 := EarlyDir, 1 := Dir(Some(["a", "b"]), Newer)], Some(1));
    var d1 := Disk(map["a" := "2"], map[0 := EarlyDir, 1 := Dir(Some(["a", "b"]), map["b" := "3"])], Some(1));
    FirstReplace(Faulty, d0, 1, "a", "b", "2", "3");
    assert map[]["a" := "2"] == d1.live && d0.staging[1 := d1.staging[1]] == d1.staging;
    ReachQuiet(Faulty, r, World(d0, Committing(1, ["a", "b"])), t, CommitNext, World(d1, Committing(1, ["b"])));
    SecondReplace(r, t, d1);
  }

  lemma SecondReplace(r: Region, t: set<Tree>, d1: Disk)
    requires d1 == Disk(map["a" := "2"], map[0 := EarlyDir, 1 := Dir(Some(["a", "b"]), map["b" := "3"])], Some(1))
    requires Closed(Faulty, r) && r(World(d1, Committing(1, ["b"])), t)
    ensures r(World(Disk(Newer, map[0 := EarlyDir], Some(1)), Idle(Some(1))), t)
  {
    var d2 := Disk(Newer, map[0 := EarlyDir, 1 := Dir(Some(["a", "b"]), map[])], Some(1));
    var d3 := Disk(Newer, map[0 := EarlyDir], Some(1));
    assert MoveFile(d1, 1, "b") == d2 && ["b"][1..] == [] by {
      assert map["b" := "3"] - {"b"} == map[] && d1.live["b" := "3"] == Newer;
      assert d1.staging[1 := d2.staging[1]] == d2.staging;
    }
    ReachQuiet(Faulty, r, World(d1, Committing(1, ["b"])), t, CommitNext, World(d2, Committing(1, [])));
    ReachQuiet(Faulty, r, World(d2, Committing(1, [])), t, CommitNext, World(d2, Cleaning(1, false)));
    assert d2.staging - {1} == d3.staging;
    ReachQuiet(Faulty, r, World(d2, Cleaning(1, false)), t, RemoveDir, World(d3, Idle(Some(1))));
  }

  /** A failed `record_stage` leaves a staging directory that a restart after the next checkpoint publishes
      over the newer files: the tree at rest mixes the two stages. */
  lemma StaleStageReturns()
    ensures Reached(Faulty, Stale(), StaleOutcomes()) && Stale().disk.live !in StaleOutcomes()
  {
    ReachedIsClosed(Faulty);
    StalePath((w: World, trees: set<Tree>) => Reached(Faulty, w, trees));
  }

  lemma StalePath(r: Region)
    requires Closed(Faulty, r) && r(Start(map[]), {map[]})
    ensures r(Stale(), StaleOutcomes())
    ensures Stale().disk.live !in StaleOutcomes()
  {
    LaterCommitted(r);
    var t := StaleOutcomes();
    var d := Disk(Newer, map[0 := EarlyDir], Some(1));
    ReachQuiet(Faulty, r, World(d, Idle(Some(1))), t, Crash, World(d, Down));
    StaleApplied(r, t, d);
    assert Stale().disk.live["a"] == "1" && "b" in Stale().disk.live && Newer["a"] == "2";
  }

  lemma StaleApplied(r: Region, t: set<Tree>, d: Disk)
    requires Closed(Faulty, r)
    requires d == Disk(Newer, map[0 := EarlyDir], Some(1)) && r(World(d, Down), t)
    ensures r(Stale(), t)
  {
    var pending: set<Stage> := {0};
    var none: set<Stage> := {};
    assert d.staging.Keys == pending && pending - {0} == none;
    ReachQuiet(Faulty, r, World(d, Down), t, Boot, World(d, Scanning(Some(1), pending)));
    ReachQuiet(Faulty, r, World(d, Scanning(Some(1), pending)), t, Scan(0), World(d, Applying(Some(1), none, 0, ["a"])));
    var d1 := Disk(Stale().disk.live, map[0 := Dir(Some(["a"]), map[])], Some(1));
    assert MoveFile(d, 0, "a") == d1 && ["a"][1..] == [] by {
      assert map["a" := "1"] - {"a"} == map[] && Newer["a" := "1"] == d1.live;
    }
    ReachQuiet(Faulty, r, World(d, Applying(Some(1), none, 0, ["a"])), t, ApplyNext, World(d1, Applying(Some(1), none, 0, [])));
    StaleSettles(r, t, d1, none);
  }

  lemma StaleSettles(r: Region, t: set<Tree>, d1: Disk, none: set<Stage>)
    requires d1 == Disk(Stale().disk.live, map[0 := Dir(Some(["a"]), map[])], Some(1)) && none == {}
    requires Closed(Faulty, r) && r(World(d1, Applying(Some(1), none, 0, [])), t)
    ensures r(Stale(), t)
  {
    ReachQuiet(Faulty, r, World(d1, Applying(Some(1), none, 0, [])), t, ApplyNext, World(d1, Removing(Some(1), none, 0)));
    assert d1.staging - {0} == map[];
    ReachQuiet(Faulty, r, World(d1, Removing(Some(1), none, 0)), t, RemoveDir, World(Stale().disk, Scanning(Some(1), none)));
    ReachQuiet(Faulty, r, World(Stale().disk, Scanning(Some(1), none)), t, FinishScan, Stale());
  }

  // ---------------------------------------------------------------- the recovery loops

  /** The tree after the directories were finished in this order: those up to the checkpoint are published,
      later ones dropped. */
  function Publish(live: Tree, staging: map<Stage, Dir>, rank: int, order: seq<Stage>): Tree {
    if order == [] then live
    else
      var s := order[|order| - 1];
      var before := Publish(live, staging, rank, order[..|order| - 1]);
      if s in staging && s <= rank then before + Vouched(staging[s]) else before
  }

  lemma PublishLast(live: Tree, staging: map<Stage, Dir>, rank: int, order: seq<Stage>, s: Stage)
    ensures Publish(live, staging, rank, order + [s])
      == if s in staging && s <= rank then Publish(live, staging, rank, order) + Vouched(staging[s])
         else Publish(live, staging, rank, order)
  {
    assert (order + [s])[..|order|] == order;
  }

  /** Without directories of earlier stages the order does not matter, and the tree is the recovered one. */
  lemma {:induction false} PublishRecovers(d: Disk, order: seq<Stage>)
    requires forall s :: s in d.staging ==> Rank(d.checkpoint) <= s
    ensures Publish(d.live, d.staging, Rank(d.checkpoint), order)
      == if d.checkpoint.Some? && d.checkpoint.value in order then Recovered(d) else d.live
  {
    if order != [] {
      PublishRecovers(d, order[..|order| - 1]);
    }
  }

  ghost predicate NoRepeats(order: seq<Stage>) {
    forall i, j :: 0 <= i < j < |order| ==> order[i] != order[j]
  }

  /** The directories in `order` are finished, those in `staging` are as they were. */
  ghost predicate Progress(d: Disk, live: Tree, staging: map<Stage, Dir>, order: seq<Stage>) {
    && NoRepeats(order)
    && (forall s :: s in order ==> s in d.staging && s !in staging)
    && (forall s :: s in staging ==> s in d.staging && staging[s] == d.staging[s])
    && (forall s :: s in d.staging ==> s in staging || s in order)
    && live == Publish(d.live, d.staging, Rank(d.checkpoint), order)
  }

  lemma ProgressStep(d: Disk, live: Tree, staging: map<Stage, Dir>, order: seq<Stage>, s: Stage)
    requires Progress(d, live, staging, order) && s in staging
    ensures Progress(d, if s <= Rank(d.checkpoint) then live + Vouched(staging[s]) else live, staging - {s}, order + [s])
  {
    PublishLast(d.live, d.staging, Rank(d.checkpoint), order, s);
    var longer := order + [s];
    assert forall r :: r in longer <==> r in order || r == s;
    forall i, j | 0 <= i < j < |longer| ensures longer[i] != longer[j] {
      assert longer[i] == order[i];
    }
  }

  lemma ProgressDone(d: Disk, live: Tree, order: seq<Stage>)
    requires Progress(d, live, map[], order)
    ensures forall s :: s in order <==> s in d.staging
    ensures (forall s :: s in d.staging ==> Rank(d.checkpoint) <= s) ==> live == Recovered(d)
  {
    if forall s :: s in d.staging ==> Rank(d.checkpoint) <= s {
      PublishRecovers(d, order);
    }
  }

  /** The on-disk state of one token as the recovery code updates it. */
  class StagingArea {
    var live: Tree
    var staging: map<Stage, Dir>
    var checkpoint: Option<Stage>

    ghost function View(): Disk
      reads this
    {
      Disk(live, staging, checkpoint)
    }

    constructor (d: Disk)
      ensures View() == d
    {
      live, staging, checkpoint := d.live, d.staging, d.checkpoint;
    }

    /** `recover_commit_from_manifest`: afterwards every vouched file is live and none is left. */
    method RecoverCommitFromManifest(s: Stage)
      requires s in staging
      modifies this`live, this`staging
      ensures live == old(live) + Vouched(old(staging[s]))
      ensures staging.Keys == old(staging.Keys) && forall r :: r in staging && r != s ==> staging[r] == old(staging[r])
      ensures Vouched(staging[s]) == map[]
    {
      if staging[s].manifest.None? {
        return;
      }
      var touched := staging[s].manifest.value;
      ghost var v := Vouched(staging[s]);
      for i := 0 to |touched|
        invariant staging.Keys == old(staging.Keys)
        invariant forall r :: r in staging && r != s ==> staging[r] == old(staging[r])
        invariant staging[s].manifest == Some(touched)
        invariant live + Vouched(staging[s]) == old(live) + v
        invariant forall p :: p in Vouched(staging[s]) ==> p in touched[i..]
      {
        var p := touched[i];
        assert touched[i..] == [p] + touched[i + 1..];
        if p in staging[s].files {
          ghost var before := Vouched(staging[s]);
          OverlayMove(live, before, p);
          var files := staging[s].files;
          live := live[p := files[p]];
          staging := staging[s := Dir(Some(touched), files - {p})];
          assert Vouched(staging[s]) == before - {p};
        }
      }
      assert Vouched(staging[s]) == map[];
    }

    /** One directory: commit what its manifest vouches for if the checkpoint has reached it, then remove it. */
    method FinishDirectory(s: Stage)
      requires s in staging
      modifies this`live, this`staging
      ensures live == if s <= Rank(checkpoint) then old(live) + Vouched(old(staging)[s]) else old(live)
      ensures staging == old(staging) - {s}
    {
      if s <= Rank(checkpoint) && staging[s].manifest.Some? {
        RecoverCommitFromManifest(s);
      }
      staging := staging - {s};
      assert staging == old(staging) - {s};
    }

    /** `cleanup_workspace_staging` when it is not interrupted: every directory is finished once, in some
        order, and the staging area is empty. On the disks that reliable runs leave, that is the tree
        promised by `Recovered`. */
    method CleanupWorkspaceStaging() returns (ghost order: seq<Stage>)
      modifies this`live, this`staging
      ensures staging == map[] && NoRepeats(order) && (forall s :: s in order <==> s in old(staging))
      ensures live == Publish(old(live), old(staging), Rank(checkpoint), order)
      ensures (forall s :: s in old(staging) ==> Rank(checkpoint) <= s) ==> live == Recovered(old(View()))
    {
      ghost var d := View();
      order := [];
      while staging.Keys != {}
        invariant Progress(d, live, staging, order)
        decreases |staging.Keys|
      {
        var s :| s in staging.Keys;
        ProgressStep(d, live, staging, order, s);
        ghost var before := staging.Keys;
        FinishDirectory(s);
        order := order + [s];
        assert staging.Keys == before - {s};
      }
      assert staging == map[];
      ProgressDone(d, live, order);
    }
  }
}
