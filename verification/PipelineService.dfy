/** The mutable side of the pipeline: the checkpoint file of core/recovery.py and the task group. */
module PipelineService {
  import opened Common
  import opened Ledger
  import opened Pipeline
  import opened PipelineRuns

  const VERSION: int := 1

  /** A checkpoint file as parsed. */
  datatype Snapshot = Snapshot(
    version: int, token: string, state: string, activeStage: string, schemaId: string, payload: Json,
    signature: string, sourceRole: string, correlationId: string, createdAt: real)

  datatype Loaded = Absent | Malformed | Restored(env: Envelope)

  predicate KnownState(state: string) {
    state == "Running" || state == "Pending Intervention" || state == "QUORUM_LOCKED_INTERVENTION" || state == "Completed"
  }

  function StageOf(name: string): Option<Stage> {
    if name == StageName(0) then Some(0) else if name == StageName(1) then Some(1)
    else if name == StageName(2) then Some(2) else None
  }

  /** `load`, in the order of its checks: a foreign token is no checkpoint, not an error. */
  function Load(file: Option<Snapshot>, token: string): Loaded {
    match file
    case None => Absent
    case Some(s) =>
      if s.version != VERSION || s.token == "" then Malformed
      else if s.token != token then Absent
      else if StageOf(s.activeStage).None? || !KnownState(s.state) then Malformed
      else if s.schemaId == "" || s.signature == "" || s.sourceRole == "" || s.correlationId == "" then Malformed
      else Restored(Envelope(StageOf(s.activeStage).value, s.schemaId, s.payload, s.signature, s.sourceRole, s.correlationId, s.createdAt))
  }

  /** What `load` makes of a file: exactly a version 1 checkpoint of this token, complete and with known names, is
      restored, and exactly one of another token counts as none. */
  lemma LoadIff(file: Option<Snapshot>, token: string)
    ensures Load(file, token).Restored? <==>
      && file.Some? && file.value.version == 1 && file.value.token == token != ""
      && file.value.activeStage in {"intake_to_architecture", "architecture_to_risk", "risk_to_build_execution"}
      && file.value.state in {"Running", "Pending Intervention", "QUORUM_LOCKED_INTERVENTION", "Completed"}
      && file.value.schemaId != "" && file.value.signature != "" && file.value.sourceRole != "" && file.value.correlationId != ""
    ensures Load(file, token).Absent? <==>
      file.None? || (file.value.version == 1 && file.value.token != "" && file.value.token != token)
  {
  }

  function Snap(e: Envelope, token: string, state: string): Snapshot {
    Snapshot(VERSION, token, state, StageName(e.sequence), e.schemaId, e.payload, e.signature, e.sourceRole, e.correlationId, e.createdAt)
  }

  /** Loading gives back the recorded envelope, field by field, or nothing under another token. */
  lemma SnapshotRoundTrip(e: Envelope, token: string, state: string)
    requires token != "" && KnownState(state)
    requires e.schemaId != "" && e.signature != "" && e.sourceRole != "" && e.correlationId != ""
    ensures Load(Some(Snap(e, token, state)), token) == Restored(e)
    ensures forall other: string :: other != token ==> Load(Some(Snap(e, token, state)), other) == Absent
  {
    StageNamesDiffer();
  }

  lemma StageNamesDiffer()
    ensures forall k: Stage :: StageOf(StageName(k)) == Some(k)
  {
    assert StageName(0)[0] == 'i' && StageName(1)[0] == 'a' && StageName(2)[0] == 'r';
  }

  class CheckpointManager {
    const token: string
    var file: Option<Snapshot>

    constructor (token: string, file: Option<Snapshot>)
      ensures this.token == token && this.file == file
    {
      this.token := token;
      this.file := file;
    }

    /** `record_stage`: schema and signature are checked again; any failure leaves the file as it was.
        `stored` is whether the atomic replace succeeds. */
    method RecordStage(w: Twins, e: Envelope, state: string, stored: bool) returns (ok: bool)
      modifies this
      ensures ok <==> stored && w.conforms(e.schemaId, e.payload) && e.signature == w.sign(e.schemaId, e.payload)
      ensures !ok ==> file == old(file)
      ensures ok && token != "" && KnownState(state)
        && e.schemaId != "" && e.signature != "" && e.sourceRole != "" && e.correlationId != ""
        ==> Load(file, token) == Restored(e) && forall other: string :: other != token ==> Load(file, other) == Absent
    {
      ok := false;
      if w.conforms(e.schemaId, e.payload) && w.sign(e.schemaId, e.payload) == e.signature && stored {
        file := Some(Snap(e, token, state));
        ok := true;
        if token != "" && KnownState(state) && e.schemaId != "" && e.signature != "" && e.sourceRole != "" && e.correlationId != "" {
          SnapshotRoundTrip(e, token, state);
        }
      }
    }

    method Clear()
      modifies this
      ensures Load(file, token) == Absent
    {
      file := None;
    }
  }

  /** `asyncio.TaskGroup` over the coroutines of one process, without a crash. */
  class TaskGroup {
    const twins: Twins
    const id: string
    var tasks: seq<Task>
    var queues: seq<Option<Item>>
    var build: Build
    var raised: bool
    var checkpoint: Option<Envelope>

    ghost function Network(): Process
      reads this
    {
      Process(id, tasks, queues, build)
    }

    ghost function Now(): Status
      reads this
    {
      if raised then Failed(id) else Join(Network())
    }

    ghost function View(): System
      reads this
    {
      System(Now(), checkpoint)
    }

    /** A fresh run. */
    constructor (w: Twins, id: string, checkpoint: Option<Envelope>)
      requires w.Timeless() && Inv(w, System(Down, checkpoint))
      ensures twins == w && this.id == id && View() == Next(w, System(Down, checkpoint), Start(id))
      ensures Inv(w, View()) && Answers(Now(), id)
    {
      twins, this.id, this.checkpoint := w, id, checkpoint;
      tasks, queues := [Working(None), Waiting, Waiting], [None, None, None];
      build, raised := Idle, false;
      new;
      NextKeeps(w, System(Down, checkpoint), Start(id));
    }

    /** A run that takes up a checkpoint; the quorum is asked again. */
    constructor Resume(w: Twins, env: Envelope)
      requires w.Timeless() && Inv(w, System(Down, Some(env)))
      ensures twins == w && id == env.correlationId
      ensures View() == Next(w, System(Down, Some(env)), Event.Resume)
      ensures Inv(w, View()) && Answers(Now(), env.correlationId)
    {
      twins, id, checkpoint := w, env.correlationId, Some(env);
      var k := env.sequence;
      tasks := [if k == 0 then Stopping else Done,
                if k == 0 then Waiting else if k == 1 then Stopping else Done,
                if k == 2 then Done else Waiting];
      queues := [None, None, None][k := Some(Packet(env))];
      build, raised := Idle, !w.Approved(env);
      new;
      NextKeeps(w, System(Down, Some(env)), Event.Resume);
      assert Network() == Resumed(env);
      ResumedUnfinished(env);
    }

    /** `_q_get` of the architect and risk coroutines, and `validate_envelope`. */
    method ReceiveTurn(k: Stage)
      requires Shape(Network()) && !raised && k > 0 && queues[k - 1].Some?
      modifies this`tasks, this`queues, this`raised
      ensures Now() == Receive(twins, old(Network()), k)
    {
      var item := queues[k - 1].value;
      if item.Packet? && !twins.ValidEnvelope(item.env, k - 1) {
        raised := true;
        return;
      }
      queues := queues[k - 1 := None];
      tasks := tasks[k := if item.STOP? then Stopping else Working(Some(item.env))];
      assert !tasks[k].Done?;
    }

    /** The agent returns, `create_envelope` checks the payload. */
    method WorkTurn(k: Stage, now: real)
      requires Shape(Network()) && !raised && tasks[k].Working?
      modifies this`tasks, this`raised
      ensures Now() == Work(twins, old(Network()), k, now)
    {
      var input := tasks[k].input;
      var payload := twins.agent(k, input);
      if payload.None? {
        raised := true;
        return;
      }
      var cid := if input.Some? then input.value.correlationId else id;
      var env := twins.CreateEnvelope(k, payload.value, cid, now);
      if env.None? {
        raised := true;
        return;
      }
      tasks := tasks[k := Judging(env.value)];
      assert !tasks[k].Done?;
    }

    /** The quorum answers; a hand-off and a halt are both recorded. */
    method JudgeTurn(k: Stage, stored: bool)
      requires Shape(Network()) && !raised && tasks[k].Judging?
      modifies this`tasks, this`raised, this`checkpoint
      ensures Now() == Judge(twins, old(Network()), k)
      ensures checkpoint == if stored then Some(old(tasks)[k].draft) else old(checkpoint)
    {
      var env := tasks[k].draft;
      if stored {
        checkpoint := Some(env);
      }
      if !twins.Approved(env) {
        raised := true;
        return;
      }
      tasks := tasks[k := Sending(env)];
      assert !tasks[k].Done?;
    }

    /** `_q_put` of an envelope or of STOP. */
    method SendTurn(k: Stage)
      requires Shape(Network()) && !raised && (tasks[k].Sending? || tasks[k].Stopping?) && queues[k].None?
      modifies this`tasks, this`queues
      ensures Now() == Send(old(Network()), k)
    {
      if tasks[k].Stopping? {
        queues := queues[k := Some(STOP)];
        tasks := tasks[k := Done];
      } else {
        queues := queues[k := Some(Packet(tasks[k].env))];
        tasks := tasks[k := if k == 0 then Stopping else Waiting];
        assert !tasks[k].Done?;
      }
    }

    /** `build_task`: take the envelope, then run the build and clear the checkpoint. */
    method BuildTurn(stored: bool)
      requires Shape(Network()) && !raised && Ready(Network(), 3)
      modifies this`queues, this`build, this`raised, this`checkpoint
      ensures Now() == BuildStep(twins, old(Network()))
      ensures checkpoint == Checkpoint(twins, old(Network()), 3, stored, old(checkpoint))
      ensures build.Built? && stored ==> checkpoint == None
      ensures !build.Built? || !stored ==> checkpoint == old(checkpoint)
      ensures build.Built? <==> old(build).Building? && twins.build(old(build).env).Some?
    {
      if build.Idle? {
        var item := queues[2].value;
        if item.STOP? || !twins.ValidEnvelope(item.env, 2) {
          raised := true;
          return;
        }
        queues := queues[2 := None];
        build := Building(item.env);
      } else {
        var result := twins.build(build.env);
        if result.None? {
          raised := true;
          return;
        }
        build := Built(result.value);
        if stored {
          checkpoint := None;
        }
      }
    }

    /** One coroutine runs to its next suspension point. */
    method Turned(k: nat, now: real, stored: bool)
      requires Now().Live? && Enabled(View(), Turn(k, now, stored))
      modifies this`tasks, this`queues, this`build, this`raised, this`checkpoint
      ensures View() == Next(twins, old(View()), Turn(k, now, stored))
      ensures !old(build).Built? && build.Built? ==> checkpoint == if stored then None else old(checkpoint)
      ensures k < 3 ==> build == old(build)
    {
      if k == 3 {
        BuildTurn(stored);
      } else if tasks[k].Waiting? {
        ReceiveTurn(k);
      } else if tasks[k].Working? {
        WorkTurn(k, now);
      } else if tasks[k].Judging? {
        JudgeTurn(k, stored);
      } else {
        SendTurn(k);
      }
    }

    /** The event loop runs the coroutine it prefers if that one can run, and otherwise the first that can. */
    method Choose(prefer: nat) returns (k: nat)
      requires Flows(Network()) && !Finished(Network())
      ensures k <= 3 && Ready(Network(), k)
      ensures prefer <= 3 && Ready(Network(), prefer) ==> k == prefer
    {
      var p := Process(id, tasks, queues, build);
      if prefer <= 3 && Ready(p, prefer) {
        return prefer;
      }
      ghost var able := SomeoneReady(p);
      k := 0;
      while !Ready(p, k)
        invariant k <= able
        decreases able - k
      {
        k := k + 1;
      }
    }

    /** A turn keeps everything the group holds true to the sequential run, keeps the correlation id and
        leaves less to do. */
    method Advance(prefer: nat, now: real, stored: bool)
      requires twins.Timeless() && Inv(twins, View()) && Now().Live? && Answers(Now(), id)
      modifies this`tasks, this`queues, this`build, this`raised, this`checkpoint
      ensures Inv(twins, View()) && Answers(Now(), id)
      ensures (Now().Live? ==> Shape(Network())) && Remaining(Now()) < old(Remaining(Now()))
      ensures old(build).Built? ==> build == old(build) && checkpoint == old(checkpoint)
      ensures !old(build).Built? && build.Built? ==> checkpoint == if stored then None else old(checkpoint)
    {
      var k := Choose(prefer);
      OneTurn(twins, View(), Turn(k, now, stored), id);
      if build.Built? {
        BuiltIsQuiet(twins, View(), Turn(k, now, stored));
      }
      Turned(k, now, stored);
    }

    /** Whatever the scheduler prefers and whatever checkpoint writes fail, the run ends, and it ends as
        the sequential run does. A run that returns leaves no checkpoint if the clearing succeeded at the tick
        `built` at which the build finished. */
    method RunToEnd(prefer: nat -> nat, clock: nat -> real, stored: nat -> bool) returns (ghost built: nat)
      requires twins.Timeless() && Inv(twins, View()) && Answers(Now(), id)
      modifies this`tasks, this`queues, this`build, this`raised, this`checkpoint
      ensures Inv(twins, View())
      ensures match Answer(twins, id) case Some(r) => Now() == Returned(id, r) case None => Now() == Failed(id)
      ensures Now().Returned? && !old(build).Built? && stored(built) ==> checkpoint == None
    {
      var tick := 0;
      built := 0;
      while !raised && !Finished(Process(id, tasks, queues, build))
        invariant Inv(twins, View()) && Answers(Now(), id)
        invariant build.Built? && !old(build).Built? && stored(built) ==> checkpoint == None
        decreases Remaining(Now())
      {
        if !build.Built? {
          built := tick;
        }
        Advance(prefer(tick), clock(tick), stored(tick));
        tick := tick + 1;
      }
    }
  }

  lemma ResumedUnfinished(env: Envelope)
    ensures !Finished(Resumed(env))
  {
    assert Resumed(env).build.Idle?;
  }
}
