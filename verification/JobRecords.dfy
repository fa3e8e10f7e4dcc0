/**
 What the records of a job say in every interleaving: each job is logged once when it is
 queued, its last error goes with its status, and only letters tried three times are dead.
 */
module JobRecords {
  import opened Domain
  import opened JobMachine
  import opened IdempotentIngest
  import opened NoLostWork

  // ---------------------------------------------------------------- receives

  /** No message counts a fourth receive, and every dead letter counts three. */
  ghost predicate Counted(q: Queues) {
    && (forall m | m in q.main :: q.main[m].receives <= 3)
    && (forall m | m in q.dlq :: q.dlq[m].receives == 3)
  }

  lemma IngestCounts(s: State, p: Pid, e: IngestEvent)
    requires Counted(s.queues)
    ensures Counted(NextIngest(s, p, e).queues)
  {
  }

  lemma WorkerCounts(s: State, w: Pid, e: WorkerEvent)
    requires Counted(s.queues)
    ensures Counted(NextWorker(s, w, e).queues)
  {
  }

  lemma RedriveCounts(s: State, q: Pid, e: RedriveEvent)
    requires Counted(s.queues)
    ensures Counted(NextRedrive(s, q, e).queues)
  {
  }

  // ---------------------------------------------------------------- the last error

  /** Waiting and done jobs show no error, failed and dead ones do. */
  ghost predicate ErrorsTell(db: Tables) {
    forall j | j in db.jobs ::
      && (db.jobs[j].status in {Queued, Succeeded} ==> db.jobs[j].lastError.None?)
      && (db.jobs[j].status in {Failed, Dead} ==> db.jobs[j].lastError.Some?)
  }

  lemma IngestKeepsErrors(s: State, p: Pid, e: IngestEvent)
    requires ErrorsTell(s.db)
    ensures ErrorsTell(NextIngest(s, p, e).db)
  {
  }

  lemma WorkerKeepsErrors(s: State, w: Pid, e: WorkerEvent)
    requires ErrorsTell(s.db) && Verdicts(s)
    ensures ErrorsTell(NextWorker(s, w, e).db)
  {
  }

  lemma RedriveKeepsErrors(s: State, q: Pid, e: RedriveEvent)
    requires ErrorsTell(s.db)
    ensures ErrorsTell(NextRedrive(s, q, e).db)
  {
  }

  // ---------------------------------------------------------------- the log of queued jobs

  ghost predicate IsEnqueued(e: AuditEntry, db: Tables) {
    e.JobEnqueued? ==> e.jobId in db.jobs && db.jobs[e.jobId].hash == e.hash
  }

  /** The log and the jobs table pair up: one "enqueued" entry for each job, with its hash. */
  ghost predicate EnqueuesLogged(db: Tables) {
    && (forall i | 0 <= i < |db.audit| :: IsEnqueued(db.audit[i], db))
    && (forall i, k | 0 <= i < k < |db.audit| && db.audit[i].JobEnqueued? && db.audit[k].JobEnqueued? ::
          db.audit[i].jobId != db.audit[k].jobId)
    && (forall j | j in db.jobs :: JobEnqueued(j, db.jobs[j].hash) in db.audit)
  }

  /** Nothing about queueing a job is logged, and no job appears. */
  ghost predicate LogsNoEnqueue(a: Tables, b: Tables) {
    && SameIdentity(a, b) && a.audit <= b.audit
    && forall i | |a.audit| <= i < |b.audit| :: !b.audit[i].JobEnqueued?
  }

  lemma StillLogged(a: Tables, b: Tables)
    requires EnqueuesLogged(a) && LogsNoEnqueue(a, b)
    ensures EnqueuesLogged(b)
  {
    forall j | j in b.jobs ensures JobEnqueued(j, b.jobs[j].hash) in b.audit {
      var i :| 0 <= i < |a.audit| && a.audit[i] == JobEnqueued(j, a.jobs[j].hash);
      assert b.audit[i] == a.audit[i];
    }
  }

  lemma InsertLogged(db: Tables, c: Id, j: Id, h: string)
    requires EnqueuesLogged(db) && j !in db.jobs
    ensures EnqueuesLogged(InsertContentAndJob(db, c, j, h))
  {
    var t := InsertContentAndJob(db, c, j, h);
    forall k | k in t.jobs ensures JobEnqueued(k, t.jobs[k].hash) in t.audit {
      if k == j { assert t.audit[|db.audit|] == JobEnqueued(j, h); }
      else { assert JobEnqueued(k, db.jobs[k].hash) in db.audit; }
    }
  }

  lemma IngestLogs(s: State, p: Pid, e: IngestEvent)
    ensures var t := NextIngest(s, p, e);
            || LogsNoEnqueue(s.db, t.db)
            || (&& p in s.api.ingests && s.api.ingests[p].CommitRows?
                && t.db == InsertContentAndJob(s.db, s.api.ingests[p].contentId, s.api.ingests[p].jobId,
                                               s.api.ingests[p].hash))
  {
  }

  lemma IngestKeepsLog(s: State, p: Pid, e: IngestEvent)
    requires EnqueuesLogged(s.db) && Handlers(s)
    ensures EnqueuesLogged(NextIngest(s, p, e).db)
  {
    IngestLogs(s, p, e);
    if LogsNoEnqueue(s.db, NextIngest(s, p, e).db) {
      StillLogged(s.db, NextIngest(s, p, e).db);
    } else {
      var pc := s.api.ingests[p];
      InsertLogged(s.db, pc.contentId, pc.jobId, pc.hash);
    }
  }

  lemma WorkerLogs(s: State, w: Pid, e: WorkerEvent)
    ensures var t := NextWorker(s, w, e);
            forall i | |s.db.audit| <= i < |t.db.audit| :: !t.db.audit[i].JobEnqueued?
  {
  }

  lemma RedriveLogs(s: State, q: Pid, e: RedriveEvent)
    ensures var t := NextRedrive(s, q, e);
            forall i | |s.db.audit| <= i < |t.db.audit| :: !t.db.audit[i].JobEnqueued?
  {
  }

  // ---------------------------------------------------------------- every run

  ghost predicate RecordInv(s: State) { Counted(s.queues) && ErrorsTell(s.db) && EnqueuesLogged(s.db) }

  lemma WorkerKeepsRecords(s: State, w: Pid, e: WorkerEvent)
    requires RecordInv(s) && Verdicts(s)
    ensures RecordInv(NextWorker(s, w, e))
  {
    WorkerCounts(s, w, e); WorkerKeepsErrors(s, w, e);
    WorkerKeepsIdentity(s, w, e); WorkerFrame(s, w, e); WorkerLogs(s, w, e);
    StillLogged(s.db, NextWorker(s, w, e).db);
  }

  lemma RedriveKeepsRecords(s: State, q: Pid, e: RedriveEvent)
    requires RecordInv(s)
    ensures RecordInv(NextRedrive(s, q, e))
  {
    RedriveCounts(s, q, e); RedriveKeepsErrors(s, q, e);
    RedriveKeepsIdentity(s, q, e); RedriveFrame(s, q, e); RedriveLogs(s, q, e);
    StillLogged(s.db, NextRedrive(s, q, e).db);
  }

  lemma NextKeepsRecords(s: State, e: Event)
    requires RecordInv(s) && Verdicts(s) && Handlers(s)
    ensures RecordInv(Next(s, e))
  {
    match e
    case OfIngest(p, ie) => IngestCounts(s, p, ie); IngestKeepsErrors(s, p, ie); IngestKeepsLog(s, p, ie);
    case OfWorker(w, we) => WorkerKeepsRecords(s, w, we);
    case OfRedrive(q, re) => RedriveKeepsRecords(s, q, re);
    case LockLapsed(h) =>
    case DeadLettered(m) =>
  }

  lemma {:induction false} RunKeepsRecords(s: State, es: seq<Event>)
    requires WorkInv(s) && RecordInv(s)
    ensures RecordInv(Run(s, es))
    decreases |es|
  {
    if es != [] {
      NextKeepsRecords(s, es[0]);
      NextKeepsWorkInv(s, es[0]);
      RunKeepsRecords(Next(s, es[0]), es[1..]);
    }
  }

  /** In every run. */
  lemma RecordsTell(es: seq<Event>)
    ensures RecordInv(Run(INIT, es))
  {
    RunKeepsRecords(INIT, es);
  }
}
