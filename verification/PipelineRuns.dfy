/** Resume equivalence and freedom from deadlock of the three-stage pipeline. */
module PipelineRuns {
  import opened Common
  import opened Ledger
  import opened Pipeline

  // ---------- flow of the one envelope and the one STOP ----------

  lemma FreshFlows(id: string)
    ensures Flows(Fresh(id))
  {
    var p := Fresh(id);
    assert !Past(p, 3) && !Past(p, 2) && !Past(p, 1) && !Past(p, 0);
  }

  lemma ResumedFlows(e: Envelope)
    ensures Flows(Resumed(e))
  {
    var p := Resumed(e);
    assert !Past(p, 3);
    assert Past(p, 2) <==> e.sequence == 2;
    assert Past(p, 1) <==> e.sequence >= 1;
    assert Past(p, 0);
  }

  lemma PastUnfolds(p: Process)
    requires Shape(p)
    ensures Past(p, 2) <==> Carries(p.queues[2]) || !p.build.Idle?
    ensures Past(p, 1) <==> Carries(p.queues[1]) || Holding(p.tasks[2]) || Past(p, 2)
    ensures Past(p, 0) <==> Carries(p.queues[0]) || Holding(p.tasks[1]) || Past(p, 1)
  {
  }

  lemma FlowsUnfolds(p: Process)
    requires Shape(p)
    ensures Flows(p) <==> Flow(p, 0) && Flow(p, 1) && Flow(p, 2)
  {
  }

  ghost predicate Advanced(p: Process, p': Process)
    requires Shape(p)
  {
    Flows(p') && Measure(p') < Measure(p)
  }

  lemma ReceiveFlows(w: Twins, p: Process, k: Stage)
    requires Flows(p) && k > 0 && p.tasks[k].Waiting? && p.queues[k - 1].Some?
    ensures Receive(w, p, k).Failed? || (Receive(w, p, k).Live? && Advanced(p, Receive(w, p, k).p))
  {
    var st := Receive(w, p, k);
    if st.Live? {
      var p' := st.p;
      PastUnfolds(p);
      PastUnfolds(p');
      FlowsUnfolds(p);
      FlowsUnfolds(p');
    }
  }

  lemma HeldFlows(p: Process, k: Stage, t: Task)
    requires Flows(p) && Holding(p.tasks[k]) && Holding(t)
    ensures Flows(Set(p, k, t))
    ensures forall j: Stage :: j != k ==> Weight(Set(p, k, t), j) == Weight(p, j)
  {
    var p' := Set(p, k, t);
    PastUnfolds(p);
    PastUnfolds(p');
    FlowsUnfolds(p);
    FlowsUnfolds(p');
  }

  lemma SendFlows(p: Process, k: Stage)
    requires Flows(p) && p.tasks[k].Sending? && p.queues[k].None?
    ensures Send(p, k).Live? && Advanced(p, Send(p, k).p)
  {
    var p' := Send(p, k).p;
    PastUnfolds(p);
    PastUnfolds(p');
    FlowsUnfolds(p);
    FlowsUnfolds(p');
  }

  lemma StopFlows(p: Process, k: Stage)
    requires Flows(p) && p.tasks[k].Stopping? && p.queues[k].None?
    ensures Advanced(p, Set(Put(p, k, Some(STOP)), k, Done))
  {
    var p' := Set(Put(p, k, Some(STOP)), k, Done);
    PastUnfolds(p);
    PastUnfolds(p');
    FlowsUnfolds(p);
    FlowsUnfolds(p');
  }

  lemma BuildFlows(w: Twins, p: Process)
    requires Flows(p) && Ready(p, 3)
    ensures match BuildStep(w, p) case Live(p') => Advanced(p, p') case Down => false case _ => true
  {
    var st := BuildStep(w, p);
    if st.Live? {
      var p' := st.p;
      PastUnfolds(p);
      PastUnfolds(p');
      FlowsUnfolds(p);
      FlowsUnfolds(p');
    }
  }

  /** Every step moves the envelope or the STOP by one place. */
  lemma TurnFlows(w: Twins, p: Process, k: nat, now: real)
    requires Flows(p) && !Finished(p) && k <= 3 && Ready(p, k)
    ensures match Step(w, p, k, now) case Live(p') => Advanced(p, p') && !Finished(p') case Down => false case _ => true
  {
    if k == 3 {
      BuildFlows(w, p);
    } else {
      UnfinishedStep(w, p, k, now);
      match p.tasks[k]
      case Waiting => ReceiveFlows(w, p, k);
      case Working(_) =>
        if Step(w, p, k, now).Live? {
          HeldFlows(p, k, Step(w, p, k, now).p.tasks[k]);
        }
      case Judging(e) => HeldFlows(p, k, Sending(e));
      case Sending(_) => SendFlows(p, k);
      case Stopping => StopFlows(p, k);
    }
  }

  /** A stage's step that leaves the process live leaves a coroutine to run. */
  lemma UnfinishedStep(w: Twins, p: Process, k: Stage, now: real)
    requires Shape(p) && Ready(p, k)
    ensures Step(w, p, k, now).Live? ==> !Finished(Step(w, p, k, now).p)
  {
    var st := Step(w, p, k, now);
    if st.Live? && !p.tasks[k].Stopping? {
      assert !st.p.tasks[k].Done?;
    }
  }

  ghost function Weight(p: Process, k: Stage): nat
    requires Shape(p)
  {
    match p.tasks[k]
    case Waiting => if Past(p, k) then 2 else 6
    case Working(_) => 5
    case Judging(_) => 4
    case Sending(_) => 3
    case Stopping => 1
    case Done => 0
  }

  /** How many steps the network can still take. */
  ghost function Measure(p: Process): nat
    requires Shape(p)
  {
    Weight(p, 0) + Weight(p, 1) + Weight(p, 2) + (if p.build.Idle? then 2 else if p.build.Building? then 1 else 0)
  }

  /** No deadlock: while a coroutine is unfinished, one of them can run. */
  lemma SomeoneReady(p: Process) returns (k: nat)
    requires Flows(p) && !Finished(p)
    ensures k <= 3 && Ready(p, k)
  {
    if j: Stage :| Holding(p.tasks[j]) {
      assert Flow(p, j);
      return j;
    }
    if p.build.Building? {
      return 3;
    }
    if j: Stage :| Carries(p.queues[j]) {
      assert Flow(p, j);
      if j < 2 {
        assert Flow(p, j + 1);
      }
      return j + 1;
    }
    assert Past(p, 3) by {
      assert Flow(p, 0) && Past(p, 0);
      assert Past(p, 1) && Past(p, 2);
    }
    assert Flow(p, 0) && Flow(p, 1) && Flow(p, 2);
    k := if !p.tasks[0].Done? then 0 else if !p.tasks[1].Done? then 1 else 2;
  }

  // ---------- what the envelopes hold ----------

  lemma HandoffShape(w: Twins, k: Stage, id: string)
    requires Handoff(w, k, id).Some?
    ensures var e := Handoff(w, k, id).value;
      e.sequence == k && e.correlationId == id && e.createdAt == 0.0 && w.ValidEnvelope(e, k) && w.Approved(e)
  {
  }

  /** Stage k turns `input` into `e`: its agent's answer conforms to the schema, is signed, and is approved. */
  ghost predicate HandsOn(w: Twins, k: Stage, name: string, role: string, input: Option<Envelope>, id: string, e: Envelope) {
    && w.agent(k, input) == Some(e.payload) && w.conforms(e.schemaId, e.payload)
    && w.approves(k, e.payload, e.signature, id)
    && e == Envelope(k, name + ".v1", e.payload, w.sign(e.schemaId, e.payload), role, id, 0.0)
  }

  lemma HandoffIff(w: Twins, k: Stage, id: string, e: Envelope)
    ensures Handoff(w, k, id) == Some(e) <==>
      && (k > 0 ==> Handoff(w, k - 1, id).Some?)
      && HandsOn(w, k, StageName(k), SourceRole(k), if k == 0 then None else Handoff(w, k - 1, id), id, e)
  {
  }

  /** What the pipeline computes, stage by stage. */
  lemma AnswerIff(w: Twins, id: string, r: Json)
    ensures Answer(w, id) == Some(r) <==> exists a, b, c ::
      && HandsOn(w, 0, "intake_to_architecture", "intake_specialist", None, id, a)
      && HandsOn(w, 1, "architecture_to_risk", "software_architect", Some(a), id, b)
      && HandsOn(w, 2, "risk_to_build_execution", "risk_compliance", Some(b), id, c)
      && w.build(c) == Some(r)
  {
    forall k: Stage, e ensures Handoff(w, k, id) == Some(e) <==>
      && (k > 0 ==> Handoff(w, k - 1, id).Some?)
      && HandsOn(w, k, StageName(k), SourceRole(k), if k == 0 then None else Handoff(w, k - 1, id), id, e)
    {
      HandoffIff(w, k, id, e);
    }
    if Answer(w, id) == Some(r) {
      var c := Handoff(w, 2, id).value;
      var b := Handoff(w, 1, id).value;
      var a := Handoff(w, 0, id).value;
      assert HandsOn(w, 2, StageName(2), SourceRole(2), Some(b), id, c);
    }
  }

  lemma GenuineValid(w: Twins, e: Envelope, k: Stage, id: string)
    requires Genuine(w, e, k, id)
    ensures w.ValidEnvelope(e, k) && e.correlationId == id && e.sequence == k
  {
    HandoffShape(w, k, id);
    assert e.schemaId == SchemaId(k);
  }

  /** A stage that fails makes the whole sequential run fail. */
  lemma NoHandoffNoAnswer(w: Twins, k: Stage, id: string)
    requires Handoff(w, k, id).None?
    ensures Answer(w, id).None?
  {
    if k == 0 {
      assert Handoff(w, 1, id).None?;
    }
    assert Handoff(w, 2, id).None?;
  }

  /** The agent's answer, and its failure, are those of the sequential run. */
  lemma WorkDrafts(w: Twins, input: Option<Envelope>, k: Stage, id: string, now: real)
    requires w.Timeless()
    requires if k == 0 then input.None? else input.Some? && Genuine(w, input.value, k - 1, id)
    ensures match w.agent(k, input)
      case None => Draft(w, k, id).None?
      case Some(payload) =>
        match w.CreateEnvelope(k, payload, id, now)
        case None => Draft(w, k, id).None?
        case Some(e) => Drafted(w, e, k, id)
  {
    if k > 0 {
      assert w.agent(k, Some(At(input.value, 0.0))) == w.agent(k, input);
    }
  }

  lemma DraftedApproved(w: Twins, e: Envelope, k: Stage, id: string)
    requires Drafted(w, e, k, id)
    ensures w.Approved(e) <==> Genuine(w, e, k, id)
    ensures !w.Approved(e) ==> Answer(w, id).None?
    ensures e.sequence == k && e.correlationId == id
  {
    if !w.Approved(e) {
      NoHandoffNoAnswer(w, k, id);
    }
  }

  lemma FaithfulSet(w: Twins, p: Process, k: Stage, t: Task)
    requires Faithful(w, p) && Contents(w, Set(p, k, t), k)
    ensures Faithful(w, Set(p, k, t))
  {
    var p' := Set(p, k, t);
    forall j: Stage ensures Contents(w, p', j) {
      assert Contents(w, p, j);
    }
  }

  lemma FaithfulPut(w: Twins, p: Process, k: Stage, item: Option<Item>)
    requires Faithful(w, p) && (Carries(item) ==> Genuine(w, item.value.env, k, p.id))
    ensures Faithful(w, Put(p, k, item))
  {
    var p' := Put(p, k, item);
    forall j: Stage ensures Contents(w, p', j) {
      assert Contents(w, p, j);
    }
  }

  lemma FaithfulReceive(w: Twins, p: Process, k: Stage)
    requires Faithful(w, p) && k > 0 && p.queues[k - 1].Some?
    ensures StatusFaithful(w, Receive(w, p, k))
  {
    assert Contents(w, p, k - 1);
    var p0 := Put(p, k - 1, None);
    FaithfulPut(w, p, k - 1, None);
    assert Contents(w, p0, k);
    match p.queues[k - 1].value {
      case STOP => FaithfulSet(w, p0, k, Stopping);
      case Packet(e) =>
        GenuineValid(w, e, k - 1, p.id);
        FaithfulSet(w, p0, k, Working(Some(e)));
    }
  }

  lemma FaithfulWork(w: Twins, p: Process, k: Stage, now: real)
    requires w.Timeless() && Faithful(w, p) && p.tasks[k].Working?
    ensures StatusFaithful(w, Work(w, p, k, now))
  {
    assert Contents(w, p, k);
    var input := p.tasks[k].input;
    if k > 0 {
      GenuineValid(w, input.value, k - 1, p.id);
    }
    WorkDrafts(w, input, k, p.id, now);
    match Work(w, p, k, now) {
      case Live(p') => FaithfulSet(w, p, k, p'.tasks[k]);
      case Failed(_) => NoHandoffNoAnswer(w, k, p.id);
    }
  }

  lemma FaithfulJudge(w: Twins, p: Process, k: Stage)
    requires Faithful(w, p) && p.tasks[k].Judging?
    ensures StatusFaithful(w, Judge(w, p, k))
  {
    assert Contents(w, p, k);
    var e := p.tasks[k].draft;
    DraftedApproved(w, e, k, p.id);
    if w.Approved(e) {
      FaithfulSet(w, p, k, Sending(e));
    }
  }

  lemma FaithfulSend(w: Twins, p: Process, k: Stage)
    requires Faithful(w, p) && (p.tasks[k].Sending? || p.tasks[k].Stopping?)
    ensures StatusFaithful(w, Send(p, k))
  {
    assert Contents(w, p, k);
    match p.tasks[k] {
      case Sending(e) =>
        FaithfulPut(w, p, k, Some(Packet(e)));
        FaithfulSet(w, Put(p, k, Some(Packet(e))), k, if k == 0 then Stopping else Waiting);
      case Stopping =>
        FaithfulPut(w, p, k, Some(STOP));
        FaithfulSet(w, Put(p, k, Some(STOP)), k, Done);
    }
  }

  /** The trailing STOP never reaches the build coroutine in place of an envelope. */
  lemma BuildNeverStopped(p: Process)
    requires Flows(p) && p.build.Idle?
    ensures p.queues[2] != Some(STOP)
  {
    PastUnfolds(p);
    assert Flow(p, 2);
  }

  lemma FaithfulBuild(w: Twins, p: Process)
    requires w.Timeless() && Flows(p) && Faithful(w, p) && Ready(p, 3)
    ensures StatusFaithful(w, BuildStep(w, p))
  {
    assert Contents(w, p, 2);
    match p.build {
      case Idle =>
        BuildNeverStopped(p);
        var e := p.queues[2].value.env;
        GenuineValid(w, e, 2, p.id);
        FaithfulPut(w, p, 2, None);
        var p' := Put(p, 2, None).(build := Building(e));
        forall j: Stage ensures Contents(w, p', j) {
          assert Contents(w, Put(p, 2, None), j);
        }
      case Building(e) =>
        assert w.build(At(e, 0.0)) == w.build(e);
        if w.build(e).Some? {
          var p' := p.(build := Built(w.build(e).value));
          forall j: Stage ensures Contents(w, p', j) {
            assert Contents(w, p, j);
          }
        }
    }
  }

  ghost predicate StatusFaithful(w: Twins, st: Status) {
    match st
    case Down => true
    case Live(p) => Faithful(w, p)
    case Failed(id) => Answer(w, id).None?
    case Returned(id, r) => Answer(w, id) == Some(r)
  }

  lemma FaithfulTurn(w: Twins, p: Process, k: nat, now: real)
    requires w.Timeless() && Flows(p) && Faithful(w, p) && k <= 3 && Ready(p, k)
    ensures StatusFaithful(w, Step(w, p, k, now))
  {
    if k == 3 {
      FaithfulBuild(w, p);
    } else {
      match p.tasks[k] {
        case Waiting => FaithfulReceive(w, p, k);
        case Working(_) => FaithfulWork(w, p, k, now);
        case Judging(_) => FaithfulJudge(w, p, k);
        case Sending(_) => FaithfulSend(w, p, k);
        case Stopping => FaithfulSend(w, p, k);
      }
    }
  }

  // ---------- whole executions ----------

  lemma FreshFaithful(w: Twins, id: string)
    ensures Faithful(w, Fresh(id))
  {
  }

  lemma ResumedFaithful(w: Twins, e: Envelope)
    requires Genuine(w, e, e.sequence, e.correlationId)
    ensures Faithful(w, Resumed(e))
  {
  }

  lemma NextKeeps(w: Twins, s: System, e: Event)
    requires w.Timeless() && Inv(w, s) && Enabled(s, e)
    ensures Inv(w, Next(w, s, e))
  {
    match e
    case Start(id) =>
      FreshFlows(id);
      FreshFaithful(w, id);
    case Resume =>
      var env := s.checkpoint.value;
      DraftedApproved(w, env, env.sequence, env.correlationId);
      if w.Approved(env) {
        ResumedFlows(env);
        ResumedFaithful(w, env);
      }
    case Turn(k, now, stored) =>
      TurnFlows(w, s.status.p, k, now);
      FaithfulTurn(w, s.status.p, k, now);
      CheckpointDrafted(w, s, k, stored);
    case Crash =>
  }

  lemma CheckpointDrafted(w: Twins, s: System, k: nat, stored: bool)
    requires Inv(w, s) && s.status.Live? && k <= 3
    ensures var c := Checkpoint(w, s.status.p, k, stored, s.checkpoint);
      c.Some? ==> Drafted(w, c.value, c.value.sequence, c.value.correlationId)
  {
    if k < 3 && s.status.p.tasks[k].Judging? {
      assert Contents(w, s.status.p, k);
      DraftedApproved(w, s.status.p.tasks[k].draft, k, s.status.p.id);
    }
  }

  lemma {:induction false} RunKeeps(w: Twins, s: System, es: seq<Event>, s': System)
    requires w.Timeless() && Inv(w, s) && Run(w, s, es, s')
    ensures Inv(w, s')
    decreases |es|
  {
    if es != [] {
      NextKeeps(w, s, es[0]);
      RunKeeps(w, Next(w, s, es[0]), es[1..], s');
    }
  }

  /** Resume equivalence. After any number of crashes, failed checkpoint writes and resumes, under any
      interleaving, an execution that returns gives the result of the sequential run for its
      correlation id, and one that raises does so only when that run raises. */
  lemma ResumeEquivalence(w: Twins, es: seq<Event>, s: System)
    requires w.Timeless() && Run(w, System(Down, None), es, s)
    ensures s.status.Returned? ==> Answer(w, s.status.id) == Some(s.status.result)
    ensures s.status.Failed? ==> Answer(w, s.status.id).None?
  {
    RunKeeps(w, System(Down, None), es, s);
  }

  /** The network never deadlocks, fresh or resumed. */
  lemma NeverDeadlocks(w: Twins, es: seq<Event>, s: System) returns (k: nat)
    requires w.Timeless() && Run(w, System(Down, None), es, s) && s.status.Live?
    ensures forall now: real, stored: bool :: Enabled(s, Turn(k, now, stored))
  {
    RunKeeps(w, System(Down, None), es, s);
    k := SomeoneReady(s.status.p);
  }

  predicate Turns(es: seq<Event>) { forall i :: 0 <= i < |es| ==> es[i].Turn? }

  ghost function Remaining(st: Status): nat
    requires st.Live? ==> Shape(st.p)
  {
    if st.Live? then Measure(st.p) + 1 else 0
  }

  predicate Answers(st: Status, id: string) {
    match st
    case Down => false
    case Live(p) => p.id == id
    case Failed(i) => i == id
    case Returned(i, _) => i == id
  }

  lemma TurnKeepsId(w: Twins, p: Process, k: nat, now: real)
    requires Shape(p) && k <= 3 && Ready(p, k) && !Step(w, p, k, now).Down?
    ensures Answers(Step(w, p, k, now), p.id)
  {
  }

  lemma TurnShrinks(w: Twins, p: Process, k: nat, now: real)
    requires Flows(p) && !Finished(p) && k <= 3 && Ready(p, k)
    ensures !Step(w, p, k, now).Down? && (Step(w, p, k, now).Live? ==> Shape(Step(w, p, k, now).p))
    ensures Remaining(Step(w, p, k, now)) < Remaining(Live(p))
  {
    TurnFlows(w, p, k, now);
  }

  lemma OneTurn(w: Twins, s: System, e: Event, id: string)
    requires w.Timeless() && Inv(w, s) && e.Turn? && Enabled(s, e) && Answers(s.status, id)
    ensures Inv(w, Next(w, s, e)) && Answers(Next(w, s, e).status, id)
    ensures Remaining(Next(w, s, e).status) < Remaining(s.status)
  {
    NextKeeps(w, s, e);
    TurnShrinks(w, s.status.p, e.k, e.now);
    TurnKeepsId(w, s.status.p, e.k, e.now);
  }

  /** Without a crash the run stays with its correlation id and ends within `Remaining` steps. */
  lemma {:induction false} TurnsEnd(w: Twins, s: System, es: seq<Event>, s': System, id: string)
    requires w.Timeless() && Inv(w, s) && Turns(es) && Run(w, s, es, s') && Answers(s.status, id)
    ensures Inv(w, s') && Answers(s'.status, id)
    ensures |es| + Remaining(s'.status) <= Remaining(s.status)
    decreases |es|
  {
    if es != [] {
      OneTurn(w, s, es[0], id);
      TurnsEnd(w, Next(w, s, es[0]), es[1..], s', id);
    }
  }

  /** What a crash and a resume from the checkpoint lead to. */
  lemma ResumePrepared(w: Twins, s: System)
    requires w.Timeless() && Inv(w, s) && s.checkpoint.Some?
    ensures Enabled(Next(w, s, Crash), Resume)
    ensures var s2 := Next(w, Next(w, s, Crash), Resume);
      Inv(w, s2) && Answers(s2.status, s.checkpoint.value.correlationId) && Remaining(s2.status) <= 21
  {
    NextKeeps(w, s, Crash);
    NextKeeps(w, Next(w, s, Crash), Resume);
  }

  lemma RunTwoThen(w: Twins, s: System, a: Event, b: Event, es: seq<Event>, s': System)
    requires Run(w, s, [a, b] + es, s')
    ensures Enabled(s, a) && Enabled(Next(w, s, a), b) && Run(w, Next(w, Next(w, s, a), b), es, s')
  {
    var all := [a, b] + es;
    assert all[1..] == [b] + es;
    assert ([b] + es)[1..] == es;
  }

  /** A crash with a checkpoint on disk, a resume from it and any crash-free schedule of at most 21 steps
      end with the result, or the failure, of the uninterrupted run under the checkpoint's id. */
  lemma CrashAndResume(w: Twins, es: seq<Event>, s: System, turns: seq<Event>, s': System)
    requires w.Timeless() && Run(w, System(Down, None), es, s) && s.checkpoint.Some?
    requires Turns(turns) && Run(w, s, [Crash, Resume] + turns, s')
    ensures |turns| <= 21 && Answers(s'.status, s.checkpoint.value.correlationId)
    ensures s'.status.Returned? ==> Answer(w, s.checkpoint.value.correlationId) == Some(s'.status.result)
    ensures s'.status.Failed? ==> Answer(w, s.checkpoint.value.correlationId).None?
    ensures s'.status.Live? ==> exists k :: Enabled(s', Turn(k, 0.0, true))
  {
    RunKeeps(w, System(Down, None), es, s);
    RunTwoThen(w, s, Crash, Resume, turns, s');
    ResumePrepared(w, s);
    TurnsEnd(w, Next(w, Next(w, s, Crash), Resume), turns, s', s.checkpoint.value.correlationId);
    if s'.status.Live? {
      var k := SomeoneReady(s'.status.p);
      assert Enabled(s', Turn(k, 0.0, true));
    }
  }

  // ---------- the checkpoint file ----------

  /** The turn in which the build finishes clears the file, if that succeeds; a build that raises leaves it. */
  lemma BuildClears(w: Twins, s: System, now: real, stored: bool)
    requires Enabled(s, Turn(3, now, stored)) && s.status.p.build.Building?
    ensures var s', r := Next(w, s, Turn(3, now, stored)), w.build(s.status.p.build.env);
      && (r.None? ==> s'.status.Failed? && s'.checkpoint == s.checkpoint)
      && (r.Some? ==> (s'.status.Returned? || (s'.status.Live? && s'.status.p.build.Built?)))
      && (r.Some? ==> s'.checkpoint == if stored then None else s.checkpoint)
  {
  }

  /** The turn writes a draft to the checkpoint file. */
  predicate Records(s: System, e: Event) {
    && Enabled(s, e) && e.Turn? && e.stored && e.k < 3 && s.status.p.tasks[e.k].Judging?
  }

  /** No event of the run does. */
  predicate Quiet(w: Twins, s: System, es: seq<Event>)
    decreases |es|
  {
    es == [] || (!Records(s, es[0]) && (Enabled(s, es[0]) ==> Quiet(w, Next(w, s, es[0]), es[1..])))
  }

  /** A cleared file stays cleared, and nothing can be resumed, until a stage records again. */
  lemma {:induction false} StaysCleared(w: Twins, s: System, es: seq<Event>, s': System)
    requires s.checkpoint.None? && Run(w, s, es, s') && Quiet(w, s, es)
    ensures s'.checkpoint.None? && !Enabled(s', Resume)
    decreases |es|
  {
    if es != [] {
      StaysCleared(w, Next(w, s, es[0]), es[1..], s');
    }
  }

  /** When the build has finished no stage is left that could record. */
  lemma BuiltIsQuiet(w: Twins, s: System, e: Event)
    requires s.status.Live? && Flows(s.status.p) && s.status.p.build.Built? && Enabled(s, e) && e.Turn?
    ensures !Records(s, e) && Next(w, s, e).checkpoint == s.checkpoint
    ensures Next(w, s, e).status.Live? ==> Next(w, s, e).status.p.build == s.status.p.build
    ensures !Next(w, s, e).status.Failed?
  {
    var p := s.status.p;
    PastUnfolds(p);
    assert Flow(p, 0) && Flow(p, 1) && Flow(p, 2);
  }

  /** From a finished build on, whatever turns the rest of the group takes, the cleared file stays cleared and
      the group does not raise. */
  lemma {:induction false} ClearedForGood(w: Twins, s: System, es: seq<Event>, s': System)
    requires w.Timeless() && Inv(w, s) && s.status.Live? && s.status.p.build.Built? && s.checkpoint.None?
    requires Run(w, s, es, s') && forall i :: 0 <= i < |es| ==> es[i].Turn?
    ensures s'.checkpoint.None? && !Enabled(s', Resume) && (s'.status.Live? || s'.status.Returned?)
    decreases |es|
  {
    if es != [] {
      BuiltIsQuiet(w, s, es[0]);
      NextKeeps(w, s, es[0]);
      var t := Next(w, s, es[0]);
      if t.status.Live? {
        ClearedForGood(w, t, es[1..], s');
      } else {
        TurnNeedsLive(w, t, es[1..], s');
      }
    }
  }

  lemma TurnNeedsLive(w: Twins, s: System, es: seq<Event>, s': System)
    requires !s.status.Live? && Run(w, s, es, s') && forall i :: 0 <= i < |es| ==> es[i].Turn?
    ensures es == [] && s' == s
  {
  }

  /** The id itself does not matter to agents and validators that do not look at it: then every
      execution of one business case gives the same result, wherever it was restarted. */
  lemma AnswerIgnoresId(w: Twins, id: string, id': string)
    requires w.Anonymous()
    ensures Answer(w, id) == Answer(w, id')
  {
    HandoffIgnoresId(w, 2, id, id');
    if Handoff(w, 2, id).Some? {
      assert w.build(Named(Handoff(w, 2, id).value, id')) == w.build(Handoff(w, 2, id).value);
    }
  }

  lemma {:induction false} HandoffIgnoresId(w: Twins, k: Stage, id: string, id': string)
    requires w.Anonymous()
    ensures Handoff(w, k, id).None? <==> Handoff(w, k, id').None?
    ensures Handoff(w, k, id).Some? ==> Handoff(w, k, id') == Some(Named(Handoff(w, k, id).value, id'))
    decreases k
  {
    if k > 0 {
      HandoffIgnoresId(w, k - 1, id, id');
      if Handoff(w, k - 1, id).Some? {
        var e := Handoff(w, k - 1, id).value;
        assert w.agent(k, Some(Named(e, id'))) == w.agent(k, Some(e));
      }
    }
  }
}
