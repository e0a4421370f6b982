/** `run_three_stage_pipeline` of core/handshake.py: four coroutines over three queues of capacity one,
    a checkpoint after every hand-off, crashes at any point, and restarts from the checkpoint. */
module Pipeline {
  import opened Common
  import opened Ledger

  /** 0 is intake_to_architecture, 1 architecture_to_risk, 2 risk_to_build_execution. */
  type Stage = k: nat | k < 3

  function StageName(k: Stage): string {
    if k == 0 then "intake_to_architecture" else if k == 1 then "architecture_to_risk" else "risk_to_build_execution"
  }

  function SchemaId(k: Stage): string { StageName(k) + ".v1" }

  function SourceRole(k: Stage): string {
    if k == 0 then "intake_specialist" else if k == 1 then "software_architect" else "risk_compliance"
  }

  datatype Envelope = Envelope(
    sequence: Stage, schemaId: string, payload: Json, signature: string, sourceRole: string,
    correlationId: string, createdAt: real)

  /** The agents, the schemas and the validation quorum of one business case. A `None` is an exception.
      The quorum sees every field of an envelope except its creation time. */
  datatype Twins = Twins(
    agent: (Stage, Option<Envelope>) -> Option<Json>,
    build: Envelope -> Option<Json>,
    conforms: (string, Json) -> bool,
    sign: (string, Json) -> string,
    approves: (Stage, Json, string, string) -> bool)
  {
    /** Agents do not look at the clock reading in the envelope. */
    ghost predicate Timeless() {
      && (forall k: Stage, e: Envelope, t: real :: agent(k, Some(At(e, t))) == agent(k, Some(e)))
      && (forall e: Envelope, t: real :: build(At(e, t)) == build(e))
    }

    /** Nor do agents and validators look at the correlation id. */
    ghost predicate Anonymous() {
      && (forall k: Stage, e: Envelope, id: string :: agent(k, Some(Named(e, id))) == agent(k, Some(e)))
      && (forall e: Envelope, id: string :: build(Named(e, id)) == build(e))
      && (forall k: Stage, p: Json, s: string, id: string, id': string :: approves(k, p, s, id) == approves(k, p, s, id'))
    }

    /** `create_envelope`: None when the payload fails its schema. */
    function CreateEnvelope(k: Stage, payload: Json, id: string, now: real): Option<Envelope> {
      if conforms(SchemaId(k), payload)
      then Some(Envelope(k, SchemaId(k), payload, sign(SchemaId(k), payload), SourceRole(k), id, now))
      else None
    }

    /** `validate_envelope` */
    predicate ValidEnvelope(e: Envelope, expected: Stage) {
      && e.sequence == expected
      && (exists k: Stage :: e.schemaId == SchemaId(k))
      && conforms(e.schemaId, e.payload)
      && e.signature == sign(e.schemaId, e.payload)
    }

    predicate Approved(e: Envelope) {
      approves(e.sequence, e.payload, e.signature, e.correlationId)
    }
  }

  function At(e: Envelope, t: real): Envelope { e.(createdAt := t) }

  function Named(e: Envelope, id: string): Envelope { e.(correlationId := id) }

  // ---------- the uninterrupted, sequential meaning ----------

  /** What stage k drafts, before the quorum has seen it. */
  function Draft(w: Twins, k: Stage, id: string): Option<Envelope>
    decreases k, 0
  {
    var input := if k == 0 then None else Handoff(w, k - 1, id);
    if k > 0 && input.None? then None
    else
      match w.agent(k, input)
      case None => None
      case Some(payload) => w.CreateEnvelope(k, payload, id, 0.0)
  }

  /** The envelope stage k hands on. */
  function Handoff(w: Twins, k: Stage, id: string): Option<Envelope>
    decreases k, 1
  {
    match Draft(w, k, id)
    case None => None
    case Some(e) => if w.Approved(e) then Some(e) else None
  }

  /** The result of running the stages one after the other. */
  function Answer(w: Twins, id: string): Option<Json> {
    match Handoff(w, 2, id)
    case None => None
    case Some(e) => w.build(e)
  }

  ghost predicate Drafted(w: Twins, e: Envelope, k: Stage, id: string) {
    Draft(w, k, id) == Some(At(e, 0.0))
  }

  ghost predicate Genuine(w: Twins, e: Envelope, k: Stage, id: string) {
    Handoff(w, k, id) == Some(At(e, 0.0))
  }

  // ---------- the coroutines ----------

  datatype Item = Packet(env: Envelope) | STOP

  /** Where a stage's coroutine is suspended: at `get`, in the agent, in the quorum, at `put` of the
      envelope (checkpoint recorded, transaction committed), or at `put` of STOP. */
  datatype Task =
    | Waiting
    | Working(input: Option<Envelope>)
    | Judging(draft: Envelope)
    | Sending(env: Envelope)
    | Stopping
    | Done

  datatype Build = Idle | Building(env: Envelope) | Built(result: Json)

  /** `tasks[k]` is the one writer of `queues[k]`: the stage's own coroutine or, after a resume at k,
      `seed_stop_task`. `tasks[k + 1]`, or the build coroutine for k == 2, is its one reader. */
  datatype Process = Process(id: string, tasks: seq<Task>, queues: seq<Option<Item>>, build: Build)

  predicate Shape(p: Process) { |p.tasks| == 3 && |p.queues| == 3 }

  datatype Status = Down | Live(p: Process) | Failed(id: string) | Returned(id: string, result: Json)

  datatype System = System(status: Status, checkpoint: Option<Envelope>)

  function Fresh(id: string): (p: Process)
    ensures Shape(p)
  {
    Process(id, [Working(None), Waiting, Waiting], [None, None, None], Idle)
  }

  /** The queue network of a resume from an envelope of stage k; a resume at the last stage has no seed STOP. */
  function Resumed(e: Envelope): (p: Process)
    ensures Shape(p)
  {
    var writer := if e.sequence == 2 then Done else Stopping;
    Process(e.correlationId,
      seq(3, i => if i < e.sequence then Done else if i == e.sequence then writer else Waiting),
      seq(3, i => if i == e.sequence then Some(Packet(e)) else None),
      Idle)
  }

  predicate Holding(t: Task) { t.Working? || t.Judging? || t.Sending? }

  /** Can the coroutine run: its queue operation does not block. 3 is the build coroutine. */
  predicate Ready(p: Process, k: nat)
    requires Shape(p) && k <= 3
  {
    if k == 3 then p.build.Building? || (p.build.Idle? && p.queues[2].Some?)
    else
      match p.tasks[k]
      case Waiting => k > 0 && p.queues[k - 1].Some?
      case Working(_) => true
      case Judging(_) => true
      case Sending(_) => p.queues[k].None?
      case Stopping => p.queues[k].None?
      case Done => false
  }

  predicate Finished(p: Process) {
    && (forall k :: 0 <= k < |p.tasks| ==> p.tasks[k].Done?)
    && p.build.Built?
  }

  /** The task group has left its `async with` when every coroutine has returned. */
  function Join(p: Process): Status {
    if Finished(p) then Returned(p.id, p.build.result) else Live(p)
  }

  function Set(p: Process, k: Stage, t: Task): (p': Process)
    requires Shape(p)
    ensures Shape(p')
  {
    p.(tasks := p.tasks[k := t])
  }

  function Put(p: Process, k: Stage, item: Option<Item>): (p': Process)
    requires Shape(p)
    ensures Shape(p')
  {
    p.(queues := p.queues[k := item])
  }

  /** `_q_get` and `validate_envelope` of the architect and risk coroutines. */
  function Receive(w: Twins, p: Process, k: Stage): Status
    requires Shape(p) && k > 0 && p.queues[k - 1].Some?
  {
    match p.queues[k - 1].value
    case STOP => Live(Set(Put(p, k - 1, None), k, Stopping))
    case Packet(e) =>
      if w.ValidEnvelope(e, k - 1) then Live(Set(Put(p, k - 1, None), k, Working(Some(e)))) else Failed(p.id)
  }

  /** The agent has answered: `create_envelope` keeps the correlation id of its input. */
  function Work(w: Twins, p: Process, k: Stage, now: real): Status
    requires Shape(p) && p.tasks[k].Working?
  {
    var input := p.tasks[k].input;
    match w.agent(k, input)
    case None => Failed(p.id)
    case Some(payload) =>
      match w.CreateEnvelope(k, payload, if input.Some? then input.value.correlationId else p.id, now)
      case None => Failed(p.id)
      case Some(e) => Live(Set(p, k, Judging(e)))
  }

  /** The quorum has answered; checkpoint and commit follow without a suspension point. */
  function Judge(w: Twins, p: Process, k: Stage): Status
    requires Shape(p) && p.tasks[k].Judging?
  {
    var e := p.tasks[k].draft;
    if w.Approved(e) then Live(Set(p, k, Sending(e))) else Failed(p.id)
  }

  /** A `put` completes; intake goes on to STOP, the others go back to their `get`. */
  function Send(p: Process, k: Stage): Status
    requires Shape(p) && (p.tasks[k].Sending? || p.tasks[k].Stopping?)
  {
    match p.tasks[k]
    case Sending(e) => Live(Set(Put(p, k, Some(Packet(e))), k, if k == 0 then Stopping else Waiting))
    case Stopping => Join(Set(Put(p, k, Some(STOP)), k, Done))
  }

  function BuildStep(w: Twins, p: Process): Status
    requires Shape(p) && Ready(p, 3)
  {
    match p.build
    case Idle =>
      (match p.queues[2].value
       case STOP => Failed(p.id)
       case Packet(e) =>
         if w.ValidEnvelope(e, 2) then Live(Put(p, 2, None).(build := Building(e))) else Failed(p.id))
    case Building(e) =>
      (match w.build(e)
       case None => Failed(p.id)
       case Some(r) => Join(p.(build := Built(r))))
  }

  function Step(w: Twins, p: Process, k: nat, now: real): Status
    requires Shape(p) && k <= 3 && Ready(p, k)
  {
    if k == 3 then BuildStep(w, p)
    else
      match p.tasks[k]
      case Waiting => Receive(w, p, k)
      case Working(_) => Work(w, p, k, now)
      case Judging(_) => Judge(w, p, k)
      case Sending(_) => Send(p, k)
      case Stopping => Send(p, k)
  }

  /** What the step leaves in the checkpoint file: a hand-off and a quorum halt both record the draft,
      a finished build clears the file; `stored` is whether the file operation succeeded. */
  function Checkpoint(w: Twins, p: Process, k: nat, stored: bool, old_: Option<Envelope>): Option<Envelope>
    requires Shape(p) && k <= 3
  {
    if !stored then old_
    else if k < 3 && p.tasks[k].Judging? then Some(p.tasks[k].draft)
    else if k == 3 && p.build.Building? && w.build(p.build.env).Some? then None
    else old_
  }

  datatype Event = Start(id: string) | Resume | Turn(k: nat, now: real, stored: bool) | Crash

  predicate Enabled(s: System, e: Event) {
    match e
    case Start(_) => !s.status.Live?
    case Resume => !s.status.Live? && s.checkpoint.Some?
    case Turn(k, _, _) => s.status.Live? && Shape(s.status.p) && k <= 3 && Ready(s.status.p, k)
    case Crash => true
  }

  /** One event. A resume puts the checkpointed envelope before the quorum again. */
  function Next(w: Twins, s: System, e: Event): System
    requires Enabled(s, e)
  {
    match e
    case Start(id) => s.(status := Live(Fresh(id)))
    case Resume =>
      var env := s.checkpoint.value;
      s.(status := if w.Approved(env) then Live(Resumed(env)) else Failed(env.correlationId))
    case Turn(k, now, stored) =>
      System(Step(w, s.status.p, k, now), Checkpoint(w, s.status.p, k, stored, s.checkpoint))
    case Crash => s.(status := Down)
  }

  ghost predicate Run(w: Twins, s: System, es: seq<Event>, s': System)
    decreases |es|
  {
    if es == [] then s == s' else Enabled(s, es[0]) && Run(w, Next(w, s, es[0]), es[1..], s')
  }

  // ---------- the invariant ----------

  predicate Carries(q: Option<Item>) { q.Some? && q.value.Packet? }

  /** The envelope has already left writer k. */
  ghost predicate Past(p: Process, k: nat)
    requires Shape(p) && k <= 3
    decreases 3 - k
  {
    if k == 3 then !p.build.Idle?
    else Carries(p.queues[k]) || Reading(p, k + 1) || Past(p, k + 1)
  }

  ghost predicate Reading(p: Process, k: nat)
    requires Shape(p) && k <= 3
  {
    k < 3 && Holding(p.tasks[k])
  }

  predicate Closing(t: Task) { t.Stopping? || t.Done? }

  /** The single envelope and the STOP behind it, seen from writer k and its queue. */
  ghost predicate Flow(p: Process, k: Stage)
    requires Shape(p)
  {
    && (Holding(p.tasks[k]) ==> !Past(p, k) && p.queues[k].None?)
    && (!Holding(p.tasks[k]) && !Past(p, k) ==> k > 0 && p.tasks[k].Waiting? && p.queues[k].None?)
    && (p.tasks[k].Waiting? ==> k > 0)
    && (Carries(p.queues[k]) ==> !Reading(p, k + 1) && !Past(p, k + 1))
    && (p.queues[k] == Some(STOP) ==> p.tasks[k].Done?)
    && (k < 2 ==> Handover(p, k))
  }

  /** Reader k + 1 is closing exactly when it has taken the STOP that writer k left. */
  ghost predicate Handover(p: Process, k: nat)
    requires Shape(p) && k < 2
  {
    && (Closing(p.tasks[k + 1]) <==> p.tasks[k].Done? && p.queues[k].None?)
    && (p.tasks[k].Done? ==> !(Carries(p.queues[k])))
  }

  /** Every envelope in the network is what the sequential run hands on. */
  ghost predicate Contents(w: Twins, p: Process, k: Stage)
    requires Shape(p)
  {
    && (Carries(p.queues[k]) ==> Genuine(w, p.queues[k].value.env, k, p.id))
    && match p.tasks[k]
       case Working(input) => (if k == 0 then input.None? else input.Some? && Genuine(w, input.value, k - 1, p.id))
       case Judging(e) => Drafted(w, e, k, p.id)
       case Sending(e) => Genuine(w, e, k, p.id)
       case _ => true
  }

  ghost predicate BuildContents(w: Twins, p: Process) {
    match p.build
    case Idle => true
    case Building(e) => Genuine(w, e, 2, p.id)
    case Built(r) => Answer(w, p.id) == Some(r)
  }

  ghost predicate Flows(p: Process) {
    Shape(p) && (forall k: Stage :: Flow(p, k))
  }

  ghost predicate Faithful(w: Twins, p: Process) {
    Shape(p) && (forall k: Stage :: Contents(w, p, k)) && BuildContents(w, p)
  }

  ghost predicate StatusInv(w: Twins, st: Status) {
    match st
    case Down => true
    case Live(p) => Flows(p) && Faithful(w, p) && !Finished(p)
    case Failed(id) => Answer(w, id).None?
    case Returned(id, r) => Answer(w, id) == Some(r)
  }

  ghost predicate Inv(w: Twins, s: System) {
    && StatusInv(w, s.status)
    && (s.checkpoint.Some? ==> Drafted(w, s.checkpoint.value, s.checkpoint.value.sequence, s.checkpoint.value.correlationId))
  }
}
