/**
 The job pipeline as a state machine: ingest handlers, the at-least-once queue
 with its receive limit and dead-letter queue, workers and the redrive tool, all
 interleaved. One event is one SQL statement, one transaction block, one lock
 command or one queue call. Events carry every choice the environment makes (which
 row a SELECT returned, whether a call failed), so Next is a function; an event that
 is not enabled changes nothing. Identifiers of every kind come from one counter,
 which is how the freshness of UUIDs is modelled.
 */
module JobMachine {
  import opened Domain

  type Id = nat
  type Pid = nat

  const MAX_RECEIVES := 3
  const DEFAULT_MAX_ATTEMPTS := 3
  const POLL_TRIES := 20

  // ---------------------------------------------------------------- tables

  datatype Failure = ValidationFailure | EnqueueFailure | OtherFailure

  datatype Content = Content(hash: string)

  datatype Job = Job(contentId: Id, hash: string, status: JobStatus,
                     attempts: nat, maxAttempts: nat, lastError: Option<Failure>)

  /** signals stands for reasons, scores and versions, which nothing here inspects. */
  datatype Envelope = Envelope(jobId: Id, contentId: Id, hash: string, decision: Decision,
                               confidence: real, needsReview: bool, latencyMs: int, signals: string)

  datatype DecisionRow = DecisionRow(id: Id, envelope: Envelope)

  datatype ReviewRow = ReviewRow(decisionId: Id, contentId: Id, jobId: Id, priority: int)

  datatype AuditEntry =
    | JobEnqueued(jobId: Id, hash: string)
    | JobFailed(jobId: Id, status: JobStatus, failure: Failure)
    | JobRedriven(jobId: Id)
    | DecisionCreated(decisionId: Id, decision: Decision, confidence: real, needsReview: bool)
    | ReviewEnqueued(decisionId: Id)

  datatype MetricsEvent = MetricsEvent(decision: Decision, latencyMs: int, auto: bool)

  datatype Tables = Tables(contents: map<Id, Content>, jobs: map<Id, Job>, decisions: seq<DecisionRow>,
                           reviews: seq<ReviewRow>, audit: seq<AuditEntry>, metrics: seq<MetricsEvent>)

  // ---------------------------------------------------------------- queues and handlers

  datatype Msg = Msg(jobId: Id, contentId: Id, hash: string, receives: nat)

  /** Where an ingest request stands in accept_image. */
  datatype Ingest =
    | LookUp(hash: string)
    | TakeLock(hash: string)
    | Poll(hash: string, tries: nat)
    | StoreObject(hash: string)
    | CommitRows(hash: string, contentId: Id, jobId: Id)
    | SendMessage(hash: string, contentId: Id, jobId: Id)
    | RecordSendFailure(hash: string, contentId: Id, jobId: Id)

  /** Where a worker stands in handle_message, process_job and mark_failed. */
  datatype Worker =
    | ReadStatus(mid: Id, msg: Msg)
    | CheckDecision(mid: Id, msg: Msg)
    | FetchStored(mid: Id, msg: Msg)
    | Begin(mid: Id, msg: Msg)
    | Compute(mid: Id, msg: Msg)
    | Persist(mid: Id, msg: Msg, envelope: Envelope)
    | FailRead(mid: Id, msg: Msg, failure: Failure)
    | FailWrite(mid: Id, msg: Msg, failure: Failure, verdict: JobStatus)
    | FailAudit(mid: Id, msg: Msg, failure: Failure, verdict: JobStatus)
    | Ack(mid: Id, msg: Msg)

  /** Where the redrive loop stands with one dead letter. */
  datatype Redrive =
    | Plan(mid: Id, msg: Msg)
    | Reset(mid: Id, msg: Msg)
    | AuditReset(mid: Id, msg: Msg)
    | Resend(mid: Id, msg: Msg)
    | Remove(mid: Id, msg: Msg)

  datatype Response = Response(jobId: Id, contentId: Id, hash: string, status: JobStatus, deduplicated: bool)

  /** The envelope process_job returned for a job. */
  datatype Outcome = Outcome(jobId: Id, envelope: Envelope)

  /** Attempt-relevant history of a job. */
  datatype Mark = Started(jobId: Id) | WasReset(jobId: Id)

  /** sent remembers every message ever sent: at-least-once delivery may repeat any of them. */
  datatype Queues = Queues(main: map<Id, Msg>, dlq: map<Id, Msg>, sent: map<Id, Msg>)

  /**
   The API side: lock keys, ingest handlers, and a history no event reads (jobs whose
   message was sent, jobs whose handler died before sending, answers given).
   */
  datatype Api = Api(locks: set<string>, ingests: map<Pid, Ingest>,
                     sends: seq<Id>, orphaned: set<Id>, responses: seq<Response>)

  /** returned and marks are history: values process_job returned, attempt events. */
  datatype State = State(db: Tables, nextId: Id, queues: Queues, api: Api,
                         workers: map<Pid, Worker>, redrives: map<Pid, Redrive>,
                         returned: seq<Outcome>, marks: seq<Mark>)

  const INIT := State(Tables(map[], map[], [], [], [], []), 0, Queues(map[], map[], map[]),
                      Api({}, map[], [], {}, []), map[], map[], [], [])

  // ---------------------------------------------------------------- queries

  predicate Decided(db: Tables, j: Id) {
    exists i | 0 <= i < |db.decisions| :: db.decisions[i].envelope.jobId == j
  }

  predicate IsDecisionOf(db: Tables, j: Id, i: nat) {
    i < |db.decisions| && db.decisions[i].envelope.jobId == j
  }

  predicate ContentExists(db: Tables, h: string) {
    exists c | c in db.contents :: db.contents[c].hash == h
  }

  predicate JobExists(db: Tables, h: string) {
    exists j | j in db.jobs :: db.jobs[j].hash == h
  }

  /** found is a possible answer when the jobs table is asked for a job of hash h. */
  predicate Answers(db: Tables, h: string, found: Option<Id>) {
    match found
    case None => !JobExists(db, h)
    case Some(j) => j in db.jobs && db.jobs[j].hash == h
  }

  predicate ValidationLogged(db: Tables, j: Id) {
    exists i | 0 <= i < |db.audit| ::
      db.audit[i].JobFailed? && db.audit[i].jobId == j && db.audit[i].failure == ValidationFailure
  }

  // ---------------------------------------------------------------- statements

  function InsertContentAndJob(db: Tables, c: Id, j: Id, h: string): Tables {
    db.(contents := db.contents[c := Content(h)],
        jobs := db.jobs[j := Job(c, h, Queued, 0, DEFAULT_MAX_ATTEMPTS, None)],
        audit := db.audit + [JobEnqueued(j, h)])
  }

  function SetSendFailed(db: Tables, j: Id): Tables {
    if j !in db.jobs then db
    else db.(jobs := db.jobs[j := db.jobs[j].(status := Failed, lastError := Some(EnqueueFailure))])
  }

  function StartAttempt(db: Tables, j: Id): Tables {
    if j !in db.jobs then db
    else db.(jobs := db.jobs[j := db.jobs[j].(status := Processing, attempts := db.jobs[j].attempts + 1)])
  }

  function FailureVerdict(job: Job): JobStatus {
    if job.attempts >= job.maxAttempts then Dead else Failed
  }

  function SetFailed(db: Tables, j: Id, verdict: JobStatus, f: Failure): Tables {
    if j !in db.jobs then db
    else db.(jobs := db.jobs[j := db.jobs[j].(status := verdict, lastError := Some(f))])
  }

  predicate Resettable(jobs: map<Id, Job>, j: Id) {
    j in jobs && jobs[j].status in {Dead, Failed}
  }

  /** What the reset makes of a row. */
  function Requeued(job: Job): Job { job.(status := Queued, attempts := 0, lastError := None) }

  function ResetJob(db: Tables, j: Id): Tables {
    if Resettable(db.jobs, j) then db.(jobs := db.jobs[j := Requeued(db.jobs[j])]) else db
  }

  function ReviewPriority(decision: Decision, confidence: real): int {
    var priority := if decision == BLOCK then 10 else 50;
    if confidence < 0.6 && 20 < priority then 20 else priority
  }

  function CreatedEntry(d: DecisionRow): AuditEntry {
    DecisionCreated(d.id, d.envelope.decision, d.envelope.confidence, d.envelope.needsReview)
  }

  function MetricsFor(d: DecisionRow): MetricsEvent {
    MetricsEvent(d.envelope.decision, d.envelope.latencyMs, !d.envelope.needsReview)
  }

  function ReviewFor(d: DecisionRow): ReviewRow {
    ReviewRow(d.id, d.envelope.contentId, d.envelope.jobId, ReviewPriority(d.envelope.decision, d.envelope.confidence))
  }

  function SetSucceeded(db: Tables, j: Id): Tables {
    if j !in db.jobs then db
    else db.(jobs := db.jobs[j := db.jobs[j].(status := Succeeded, lastError := None)])
  }

  /** A decision gets no second review row. */
  function InsertReview(reviews: seq<ReviewRow>, r: ReviewRow): seq<ReviewRow> {
    if exists i | 0 <= i < |reviews| :: reviews[i].decisionId == r.decisionId then reviews else reviews + [r]
  }

  /** The whole transaction of persist_envelope when the decision insert took effect. */
  function StoreDecision(db: Tables, d: DecisionRow): Tables {
    var done := SetSucceeded(db, d.envelope.jobId);
    var stored := done.(decisions := db.decisions + [d], metrics := db.metrics + [MetricsFor(d)]);
    if d.envelope.needsReview
    then stored.(audit := db.audit + [CreatedEntry(d), ReviewEnqueued(d.id)],
                 reviews := InsertReview(db.reviews, ReviewFor(d)))
    else stored.(audit := db.audit + [CreatedEntry(d)])
  }

  // ---------------------------------------------------------------- ingest

  datatype IngestEvent =
    | Arrive(hash: string)
    | LookedUp(found: Option<Id>)
    | LockTried
    | Polled(found: Option<Id>)
    | ObjectStored(ok: bool)
    | RowsCommitted(raced: Option<Id>)
    | MessageSent(ok: bool)
    | SendFailureRecorded
    | IngestCrashed

  function Reply(s: State, p: Pid, r: Response): (t: State)
    ensures p !in t.api.ingests && t.api.ingests - {p} == s.api.ingests - {p}
  {
    s.(api := s.api.(ingests := s.api.ingests - {p}, responses := s.api.responses + [r]))
  }

  function Duplicate(db: Tables, j: Id): Response
    requires j in db.jobs
  {
    Response(j, db.jobs[j].contentId, db.jobs[j].hash, db.jobs[j].status, true)
  }

  function GiveUp(s: State, p: Pid): (t: State)
    ensures p !in t.api.ingests && t.api.ingests - {p} == s.api.ingests - {p}
  {
    s.(api := s.api.(ingests := s.api.ingests - {p}))
  }

  function MoveIngest(s: State, p: Pid, pc: Ingest): (t: State)
    ensures t.api.ingests - {p} == s.api.ingests - {p}
  {
    s.(api := s.api.(ingests := s.api.ingests[p := pc]))
  }

  function IngestArrive(s: State, p: Pid, h: string): State {
    if p in s.api.ingests then s else MoveIngest(s, p, LookUp(h))
  }

  function IngestLookUp(s: State, p: Pid, h: string, found: Option<Id>): State {
    if !Answers(s.db, h, found) then s
    else if found.Some? then Reply(s, p, Duplicate(s.db, found.value))
    else MoveIngest(s, p, TakeLock(h))
  }

  function IngestTakeLock(s: State, p: Pid, h: string): State {
    if h in s.api.locks then MoveIngest(s, p, Poll(h, POLL_TRIES))
    else MoveIngest(s.(api := s.api.(locks := s.api.locks + {h})), p, StoreObject(h))
  }

  function IngestPoll(s: State, p: Pid, h: string, tries: nat, found: Option<Id>): State {
    if tries == 0 then GiveUp(s, p)
    else if !Answers(s.db, h, found) then s
    else if found.Some? then Reply(s, p, Duplicate(s.db, found.value))
    else MoveIngest(s, p, Poll(h, tries - 1))
  }

  function IngestStore(s: State, p: Pid, h: string, ok: bool): State {
    if ok then MoveIngest(s, p, CommitRows(h, s.nextId, s.nextId + 1)).(nextId := s.nextId + 2)
    else GiveUp(s, p)
  }

  /**
   On a unique violation the handler reads the winner inside the failed transaction:
   the read returns the row (raced is Some) or raises (raced is None).
   */
  function IngestCommit(s: State, p: Pid, h: string, c: Id, j: Id, raced: Option<Id>): State {
    if ContentExists(s.db, h) || JobExists(s.db, h) then
      if raced.None? then GiveUp(s, p)
      else if Answers(s.db, h, raced) then Reply(s, p, Duplicate(s.db, raced.value))
      else s
    else MoveIngest(s, p, SendMessage(h, c, j)).(db := InsertContentAndJob(s.db, c, j, h))
  }

  function SendTo(q: Queues, id: Id, m: Msg): Queues {
    q.(main := q.main[id := m], sent := q.sent[id := m])
  }

  function IngestSend(s: State, p: Pid, h: string, c: Id, j: Id, ok: bool): State {
    if ok then
      var m := Msg(j, c, h, 0);
      Reply(s.(queues := SendTo(s.queues, s.nextId, m), nextId := s.nextId + 1,
               api := s.api.(sends := s.api.sends + [j])),
            p, Response(j, c, h, Queued, false))
    else MoveIngest(s, p, RecordSendFailure(h, c, j))
  }

  function IngestRecordFailure(s: State, p: Pid, j: Id): State {
    GiveUp(s, p).(db := SetSendFailed(s.db, j))
  }

  function IngestCrash(s: State, p: Pid, pc: Ingest): State {
    if pc.SendMessage? || pc.RecordSendFailure?
    then GiveUp(s.(api := s.api.(orphaned := s.api.orphaned + {pc.jobId})), p)
    else GiveUp(s, p)
  }

  function NextIngest(s: State, p: Pid, e: IngestEvent): State {
    if e.Arrive? then IngestArrive(s, p, e.hash)
    else if p !in s.api.ingests then s
    else
      var pc := s.api.ingests[p];
      match e
      case Arrive(_) => s
      case LookedUp(found) => if pc.LookUp? then IngestLookUp(s, p, pc.hash, found) else s
      case LockTried => if pc.TakeLock? then IngestTakeLock(s, p, pc.hash) else s
      case Polled(found) => if pc.Poll? then IngestPoll(s, p, pc.hash, pc.tries, found) else s
      case ObjectStored(ok) => if pc.StoreObject? then IngestStore(s, p, pc.hash, ok) else s
      case RowsCommitted(raced) =>
        if pc.CommitRows? then IngestCommit(s, p, pc.hash, pc.contentId, pc.jobId, raced) else s
      case MessageSent(ok) =>
        if pc.SendMessage? then IngestSend(s, p, pc.hash, pc.contentId, pc.jobId, ok) else s
      case SendFailureRecorded => if pc.RecordSendFailure? then IngestRecordFailure(s, p, pc.jobId) else s
      case IngestCrashed => IngestCrash(s, p, pc)
  }

  // ---------------------------------------------------------------- workers

  datatype WorkerEvent =
    | Receive(mid: Id)
    | ReceiveStale(mid: Id)
    | StatusRead
    | DecisionChecked
    | StoredFetched(row: nat)
    | AttemptStarted
    | Computed(envelope: Envelope)
    | Rejected
    | Persisted(row: nat)
    | AttemptsRead
    | FailureWritten
    | FailureAudited
    | Deleted
    | Raised
    | WorkerCrashed

  function MoveWorker(s: State, w: Pid, pc: Worker): (t: State)
    ensures t.workers - {w} == s.workers - {w}
  {
    s.(workers := s.workers[w := pc])
  }

  function Leave(s: State, w: Pid): (t: State)
    ensures w !in t.workers && t.workers - {w} == s.workers - {w}
  {
    s.(workers := s.workers - {w})
  }

  function WorkerReceive(s: State, w: Pid, m: Id): State {
    if w in s.workers || m !in s.queues.main || s.queues.main[m].receives >= MAX_RECEIVES then s
    else
      var msg := s.queues.main[m].(receives := s.queues.main[m].receives + 1);
      MoveWorker(s, w, ReadStatus(m, msg)).(queues := s.queues.(main := s.queues.main[m := msg]))
  }

  /** At-least-once delivery: any message ever sent may be delivered again. */
  function WorkerReceiveStale(s: State, w: Pid, m: Id): State {
    if w in s.workers || m !in s.queues.sent then s else MoveWorker(s, w, ReadStatus(m, s.queues.sent[m]))
  }

  function WorkerReadStatus(s: State, w: Pid, m: Id, msg: Msg): State {
    if msg.jobId in s.db.jobs && s.db.jobs[msg.jobId].status == Succeeded
    then MoveWorker(s, w, Ack(m, msg))
    else MoveWorker(s, w, CheckDecision(m, msg))
  }

  function WorkerCheck(s: State, w: Pid, m: Id, msg: Msg): State {
    if Decided(s.db, msg.jobId) then MoveWorker(s, w, FetchStored(m, msg))
    else MoveWorker(s, w, Begin(m, msg))
  }

  function WorkerFetch(s: State, w: Pid, m: Id, msg: Msg, row: nat): State {
    if !IsDecisionOf(s.db, msg.jobId, row) then s
    else MoveWorker(s, w, Ack(m, msg)).(returned := s.returned + [Outcome(msg.jobId, s.db.decisions[row].envelope)])
  }

  function WorkerBegin(s: State, w: Pid, m: Id, msg: Msg): State {
    MoveWorker(s, w, Compute(m, msg)).(
      db := StartAttempt(s.db, msg.jobId), marks := s.marks + [Started(msg.jobId)])
  }

  function WorkerCompute(s: State, w: Pid, m: Id, msg: Msg, e: Envelope): State {
    if e.jobId == msg.jobId && e.contentId == msg.contentId && e.hash == msg.hash
    then MoveWorker(s, w, Persist(m, msg, e))
    else s
  }

  /** The insert takes no effect on a job that has a decision: a lost race returns the stored envelope. */
  function WorkerPersist(s: State, w: Pid, m: Id, msg: Msg, e: Envelope, row: nat): State {
    if Decided(s.db, e.jobId) then
      if !IsDecisionOf(s.db, e.jobId, row) then s
      else MoveWorker(s, w, Ack(m, msg)).(returned := s.returned + [Outcome(msg.jobId, s.db.decisions[row].envelope)])
    else
      MoveWorker(s, w, Ack(m, msg)).(
        db := StoreDecision(s.db, DecisionRow(s.nextId, e)),
        nextId := s.nextId + 1, returned := s.returned + [Outcome(msg.jobId, e)])
  }

  function AfterFailure(s: State, w: Pid, m: Id, msg: Msg, f: Failure): State {
    if f == ValidationFailure then MoveWorker(s, w, Ack(m, msg)) else Leave(s, w)
  }

  function WorkerFailRead(s: State, w: Pid, m: Id, msg: Msg, f: Failure): State {
    if msg.jobId in s.db.jobs
    then MoveWorker(s, w, FailWrite(m, msg, f, FailureVerdict(s.db.jobs[msg.jobId])))
    else AfterFailure(s, w, m, msg, f)
  }

  function WorkerFailWrite(s: State, w: Pid, m: Id, msg: Msg, f: Failure, verdict: JobStatus): State {
    MoveWorker(s, w, FailAudit(m, msg, f, verdict)).(db := SetFailed(s.db, msg.jobId, verdict, f))
  }

  function WorkerFailAudit(s: State, w: Pid, m: Id, msg: Msg, f: Failure, verdict: JobStatus): State {
    AfterFailure(s, w, m, msg, f).(
      db := s.db.(audit := s.db.audit + [JobFailed(msg.jobId, verdict, f)]))
  }

  function WorkerAck(s: State, w: Pid, m: Id): State {
    Leave(s, w).(queues := s.queues.(main := s.queues.main - {m}))
  }

  /** An exception: inside process_job it reaches mark_failed, elsewhere the message is left. */
  function WorkerRaise(s: State, w: Pid, pc: Worker): State {
    if pc.CheckDecision? || pc.FetchStored? || pc.Begin? || pc.Compute? || pc.Persist?
    then MoveWorker(s, w, FailRead(pc.mid, pc.msg, OtherFailure))
    else Leave(s, w)
  }

  function NextWorker(s: State, w: Pid, e: WorkerEvent): State {
    if e.Receive? then WorkerReceive(s, w, e.mid)
    else if e.ReceiveStale? then WorkerReceiveStale(s, w, e.mid)
    else if w !in s.workers then s
    else WorkerStep(s, w, s.workers[w], e)
  }

  function WorkerStep(s: State, w: Pid, pc: Worker, e: WorkerEvent): State {
    match e
    case Receive(_) => s
    case ReceiveStale(_) => s
    case StatusRead => if pc.ReadStatus? then WorkerReadStatus(s, w, pc.mid, pc.msg) else s
    case DecisionChecked => if pc.CheckDecision? then WorkerCheck(s, w, pc.mid, pc.msg) else s
    case StoredFetched(row) => if pc.FetchStored? then WorkerFetch(s, w, pc.mid, pc.msg, row) else s
    case AttemptStarted => if pc.Begin? then WorkerBegin(s, w, pc.mid, pc.msg) else s
    case Computed(env) => if pc.Compute? then WorkerCompute(s, w, pc.mid, pc.msg, env) else s
    case Rejected => if pc.Compute? then MoveWorker(s, w, FailRead(pc.mid, pc.msg, ValidationFailure)) else s
    case Persisted(row) => if pc.Persist? then WorkerPersist(s, w, pc.mid, pc.msg, pc.envelope, row) else s
    case AttemptsRead => if pc.FailRead? then WorkerFailRead(s, w, pc.mid, pc.msg, pc.failure) else s
    case FailureWritten =>
      if pc.FailWrite? then WorkerFailWrite(s, w, pc.mid, pc.msg, pc.failure, pc.verdict) else s
    case FailureAudited =>
      if pc.FailAudit? then WorkerFailAudit(s, w, pc.mid, pc.msg, pc.failure, pc.verdict) else s
    case Deleted => if pc.Ack? then WorkerAck(s, w, pc.mid) else s
    case Raised => WorkerRaise(s, w, pc)
    case WorkerCrashed => Leave(s, w)
  }

  // ---------------------------------------------------------------- redrive

  datatype RedriveEvent =
    | TakeDeadLetter(mid: Id, useDb: bool)
    | Planned
    | JobReset
    | ResetAudited
    | Resent
    | Removed
    | Skipped

  function MoveRedrive(s: State, q: Pid, pc: Redrive): (t: State)
    ensures t.redrives - {q} == s.redrives - {q}
  {
    s.(redrives := s.redrives[q := pc])
  }

  function StopRedrive(s: State, q: Pid): (t: State)
    ensures q !in t.redrives && t.redrives - {q} == s.redrives - {q}
  {
    s.(redrives := s.redrives - {q})
  }

  /** With --skip-db the status lookup and the reset are left out. */
  function RedriveTake(s: State, q: Pid, m: Id, useDb: bool): State {
    if q in s.redrives || m !in s.queues.dlq then s
    else MoveRedrive(s, q, if useDb then Plan(m, s.queues.dlq[m]) else Resend(m, s.queues.dlq[m]))
  }

  function RedrivePlan(s: State, q: Pid, m: Id, msg: Msg): State {
    if msg.jobId !in s.db.jobs || Resettable(s.db.jobs, msg.jobId) then MoveRedrive(s, q, Reset(m, msg))
    else if s.db.jobs[msg.jobId].status == Succeeded then StopRedrive(s, q)
    else MoveRedrive(s, q, Resend(m, msg))
  }

  function RedriveReset(s: State, q: Pid, m: Id, msg: Msg): State {
    if Resettable(s.db.jobs, msg.jobId)
    then MoveRedrive(s, q, AuditReset(m, msg)).(
           db := ResetJob(s.db, msg.jobId), marks := s.marks + [WasReset(msg.jobId)])
    else MoveRedrive(s, q, Resend(m, msg))
  }

  function RedriveAudit(s: State, q: Pid, m: Id, msg: Msg): State {
    MoveRedrive(s, q, Resend(m, msg)).(db := s.db.(audit := s.db.audit + [JobRedriven(msg.jobId)]))
  }

  function RedriveResend(s: State, q: Pid, m: Id, msg: Msg): State {
    var copy := msg.(receives := 0);
    MoveRedrive(s, q, Remove(m, msg)).(queues := SendTo(s.queues, s.nextId, copy), nextId := s.nextId + 1)
  }

  function RedriveRemove(s: State, q: Pid, m: Id): State {
    StopRedrive(s, q).(queues := s.queues.(dlq := s.queues.dlq - {m}))
  }

  /** Skipped covers the filter branches, an exception and a crash at any point. */
  function NextRedrive(s: State, q: Pid, e: RedriveEvent): State {
    if e.TakeDeadLetter? then RedriveTake(s, q, e.mid, e.useDb)
    else if q !in s.redrives then s
    else
      var pc := s.redrives[q];
      match e
      case TakeDeadLetter(_, _) => s
      case Planned => if pc.Plan? then RedrivePlan(s, q, pc.mid, pc.msg) else s
      case JobReset => if pc.Reset? then RedriveReset(s, q, pc.mid, pc.msg) else s
      case ResetAudited => if pc.AuditReset? then RedriveAudit(s, q, pc.mid, pc.msg) else s
      case Resent => if pc.Resend? then RedriveResend(s, q, pc.mid, pc.msg) else s
      case Removed => if pc.Remove? then RedriveRemove(s, q, pc.mid) else s
      case Skipped => StopRedrive(s, q)
  }

  // ---------------------------------------------------------------- the machine

  datatype Event =
    | OfIngest(p: Pid, ingest: IngestEvent)
    | OfWorker(w: Pid, worker: WorkerEvent)
    | OfRedrive(q: Pid, redrive: RedriveEvent)
    | LockLapsed(hash: string)
    | DeadLettered(mid: Id)

  function LapseLock(s: State, h: string): State {
    s.(api := s.api.(locks := s.api.locks - {h}))
  }

  function DeadLetter(s: State, m: Id): State {
    if m in s.queues.main && s.queues.main[m].receives >= MAX_RECEIVES
    then s.(queues := s.queues.(main := s.queues.main - {m}, dlq := s.queues.dlq[m := s.queues.main[m]]))
    else s
  }

  function Next(s: State, e: Event): State {
    match e
    case OfIngest(p, ie) => NextIngest(s, p, ie)
    case OfWorker(w, we) => NextWorker(s, w, we)
    case OfRedrive(q, re) => NextRedrive(s, q, re)
    case LockLapsed(h) => LapseLock(s, h)
    case DeadLettered(m) => DeadLetter(s, m)
  }

  function Run(s: State, es: seq<Event>): State
    decreases |es|
  {
    if es == [] then s else Run(Next(s, es[0]), es[1..])
  }
}
