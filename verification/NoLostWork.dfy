/**
 No lost work. A committed job whose message was sent either still has a message in the
 main or the dead-letter queue, or is settled: decided, or rejected with the rejection in
 the audit log. A committed job whose message was not sent has its ingest handler still
 at work, or recorded as failed to enqueue, or was orphaned by an API crash in between.
 Redrive may delete a dead letter because a copy with a larger identifier outlives it;
 the ordering of identifiers is what stops two redrives from vouching for each other.
 */
module NoLostWork {
  import opened Domain
  import opened JobMachine
  import opened IdempotentIngest

  // ---------------------------------------------------------------- messages

  /** m was sent, and msg is a copy of it. */
  ghost predicate IsCopy(s: State, m: Id, msg: Msg) {
    m in s.queues.sent && msg.jobId == s.queues.sent[m].jobId
  }

  ghost predicate Copies(s: State) {
    && (forall m | m in s.queues.main :: IsCopy(s, m, s.queues.main[m]))
    && (forall m | m in s.queues.dlq :: IsCopy(s, m, s.queues.dlq[m]))
    && (forall w | w in s.workers :: IsCopy(s, s.workers[w].mid, s.workers[w].msg))
    && (forall q | q in s.redrives :: IsCopy(s, s.redrives[q].mid, s.redrives[q].msg))
  }

  ghost predicate SentBefore(s: State) { forall m | m in s.queues.sent :: m < s.nextId }

  ghost predicate SentJobs(s: State) {
    && SentBefore(s)
    && (forall m | m in s.queues.sent :: s.queues.sent[m].jobId in s.api.sends)
    && (forall w | w in s.workers && s.workers[w].Persist? :: s.workers[w].envelope.jobId == s.workers[w].msg.jobId)
    && (forall i | 0 <= i < |s.db.decisions| :: s.db.decisions[i].envelope.jobId in s.api.sends)
  }

  ghost predicate Queued(s: State, m: Id) { m in s.queues.main || m in s.queues.dlq }

  /** Some message for job j with an identifier above the given one is in a queue. */
  ghost predicate Witnessed(s: State, j: Id, above: int) {
    exists m: Id :: m > above && Queued(s, m) && m in s.queues.sent && s.queues.sent[m].jobId == j
  }

  ghost predicate Settled(db: Tables, j: Id) { Decided(db, j) || ValidationLogged(db, j) }

  ghost predicate Safe(s: State, j: Id, above: int) { Witnessed(s, j, above) || Settled(s.db, j) }

  // ---------------------------------------------------------------- the invariant

  ghost predicate SucceededDecided(db: Tables) {
    forall j | j in db.jobs && db.jobs[j].status == Succeeded :: Decided(db, j)
  }

  ghost predicate Verdicts(s: State) {
    forall w | w in s.workers && s.workers[w].FailWrite? :: s.workers[w].verdict in {Dead, Failed}
  }

  ghost predicate SendFailed(db: Tables, j: Id) {
    j in db.jobs && db.jobs[j].status == Failed && db.jobs[j].lastError == Some(EnqueueFailure)
  }

  ghost predicate BeingSent(s: State, j: Id) {
    exists p | p in s.api.ingests :: Committed(s.api.ingests[p]) && s.api.ingests[p].jobId == j
  }

  /** What is known of a committed job no message was sent for. */
  ghost predicate Unsent(s: State, j: Id) {
    BeingSent(s, j) || SendFailed(s.db, j) || j in s.api.orphaned
  }

  ghost predicate UnsentInv(s: State) {
    forall j | j in s.db.jobs && j !in s.api.sends :: Unsent(s, j)
  }

  ghost predicate SafeInv(s: State) {
    && (forall i | 0 <= i < |s.api.sends| :: Safe(s, s.api.sends[i], -1))
    && (forall w | w in s.workers && s.workers[w].Ack? :: Settled(s.db, s.workers[w].msg.jobId))
    && (forall q | q in s.redrives && s.redrives[q].Remove? ::
          Safe(s, s.redrives[q].msg.jobId, s.redrives[q].mid))
  }

  ghost predicate TrackInv(s: State) {
    && Copies(s) && SentJobs(s) && SucceededDecided(s.db) && Verdicts(s) && UnsentInv(s) && SafeInv(s)
  }

  ghost predicate WorkInv(s: State) { IngestInv(s) && TrackInv(s) }

  // ---------------------------------------------------------------- safety is monotone

  /** Decisions and audit entries are only ever added. */
  ghost predicate Appends(a: Tables, b: Tables) { a.decisions <= b.decisions && a.audit <= b.audit }

  lemma SettledStays(a: Tables, b: Tables, j: Id)
    requires Appends(a, b) && Settled(a, j)
    ensures Settled(b, j)
  {
    if Decided(a, j) {
      var i :| 0 <= i < |a.decisions| && a.decisions[i].envelope.jobId == j;
      assert b.decisions[i] == a.decisions[i];
    } else {
      var i :| 0 <= i < |a.audit| && a.audit[i].JobFailed? && a.audit[i].jobId == j
               && a.audit[i].failure == ValidationFailure;
      assert b.audit[i] == a.audit[i];
    }
  }

  /** From s to t messages may be added but none leaves both queues, except possibly m. */
  ghost predicate KeepsMessages(s: State, t: State, m: Option<Id>) {
    && Appends(s.db, t.db)
    && (forall k: Id | k in s.queues.sent :: k in t.queues.sent && t.queues.sent[k].jobId == s.queues.sent[k].jobId)
    && (forall k: Id | Queued(s, k) && m != Some(k) :: Queued(t, k))
  }

  lemma SafeStays(s: State, t: State, j: Id, above: int)
    requires KeepsMessages(s, t, None) && Safe(s, j, above)
    ensures Safe(t, j, above)
  {
    if Settled(s.db, j) {
      SettledStays(s.db, t.db, j);
    } else {
      var m: Id :| m > above && Queued(s, m) && m in s.queues.sent && s.queues.sent[m].jobId == j;
      assert Queued(t, m);
    }
  }

  /** Removing m is harmless when its job is safe above m. */
  lemma SafeDespite(s: State, t: State, m: Id, j: Id, above: int)
    requires KeepsMessages(s, t, Some(m)) && m in s.queues.sent
    requires Safe(s, s.queues.sent[m].jobId, m) && Safe(s, j, above)
    ensures Safe(t, j, above)
  {
    if Settled(s.db, j) {
      SettledStays(s.db, t.db, j);
    } else {
      var k: Id :| k > above && Queued(s, k) && k in s.queues.sent && s.queues.sent[k].jobId == j;
      if k == m {
        var n: Id :| n > m && Queued(s, n) && n in s.queues.sent && s.queues.sent[n].jobId == j;
        assert Queued(t, n);
      } else {
        assert Queued(t, k);
      }
    }
  }

  // ---------------------------------------------------------------- frames of the three kinds of handler

  lemma IngestLeavesRest(s: State, p: Pid, e: IngestEvent)
    ensures var t := NextIngest(s, p, e);
            && t.workers == s.workers && t.redrives == s.redrives
            && t.db.decisions == s.db.decisions && t.queues.dlq == s.queues.dlq
  {
  }

  lemma IngestFrame(s: State, p: Pid, e: IngestEvent)
    requires SentBefore(s)
    ensures var t := NextIngest(s, p, e);
            && KeepsMessages(s, t, None) && t.workers == s.workers && t.redrives == s.redrives
            && t.db.decisions == s.db.decisions && t.queues.dlq == s.queues.dlq
  {
    IngestLeavesRest(s, p, e);
  }

  lemma WorkerAppends(s: State, w: Pid, e: WorkerEvent)
    ensures Appends(s.db, NextWorker(s, w, e).db)
  {
  }

  lemma WorkerFrame(s: State, w: Pid, e: WorkerEvent)
    ensures var t := NextWorker(s, w, e);
            && Appends(s.db, t.db) && t.api == s.api && t.redrives == s.redrives
            && t.queues.sent == s.queues.sent && t.queues.dlq == s.queues.dlq
            && t.workers - {w} == s.workers - {w}
  {
    WorkerAppends(s, w, e);
  }

  lemma RedriveFrame(s: State, q: Pid, e: RedriveEvent)
    ensures var t := NextRedrive(s, q, e);
            && Appends(s.db, t.db) && t.db.decisions == s.db.decisions
            && t.api == s.api && t.workers == s.workers
            && t.redrives - {q} == s.redrives - {q}
  {
  }

  lemma OtherWorkers(s: State, t: State, w: Pid)
    requires t.workers - {w} == s.workers - {w}
    ensures forall x | x in t.workers && x != w :: x in s.workers && t.workers[x] == s.workers[x]
  {
    forall x | x in t.workers && x != w ensures x in s.workers && t.workers[x] == s.workers[x] {
      assert x in t.workers - {w} && (t.workers - {w})[x] == (s.workers - {w})[x];
    }
  }

  lemma OtherRedrives(s: State, t: State, q: Pid)
    requires t.redrives - {q} == s.redrives - {q}
    ensures forall x | x in t.redrives && x != q :: x in s.redrives && t.redrives[x] == s.redrives[x]
  {
    forall x | x in t.redrives && x != q ensures x in s.redrives && t.redrives[x] == s.redrives[x] {
      assert x in t.redrives - {q} && (t.redrives - {q})[x] == (s.redrives - {q})[x];
    }
  }

  // ---------------------------------------------------------------- copies

  lemma IngestKeepsCopies(s: State, p: Pid, e: IngestEvent)
    requires Copies(s) && SentBefore(s)
    ensures Copies(NextIngest(s, p, e))
  {
    IngestFrame(s, p, e);
    var t := NextIngest(s, p, e);
    assert t.queues == s.queues || exists m :: t.queues == SendTo(s.queues, s.nextId, m);
  }

  /** A worker keeps its message to the end and computes envelopes of its own job only. */
  lemma WorkerStaysOn(s: State, w: Pid, e: WorkerEvent)
    ensures var t := NextWorker(s, w, e);
            w in t.workers ==>
              if w in s.workers
              then t.workers[w].mid == s.workers[w].mid && t.workers[w].msg == s.workers[w].msg
                   && (t.workers[w].Persist? ==>
                         t.workers[w] == s.workers[w] || t.workers[w].envelope.jobId == t.workers[w].msg.jobId)
              else t.workers[w].ReadStatus?
                   && ((t.workers[w].mid in s.queues.main
                        && t.workers[w].msg.jobId == s.queues.main[t.workers[w].mid].jobId)
                       || (t.workers[w].mid in s.queues.sent
                           && t.workers[w].msg == s.queues.sent[t.workers[w].mid]))
  {
  }

  lemma WorkerMain(s: State, w: Pid, e: WorkerEvent)
    ensures var t := NextWorker(s, w, e);
            forall m | m in t.queues.main ::
              m in s.queues.main && t.queues.main[m].jobId == s.queues.main[m].jobId
  {
  }

  lemma WorkerKeepsCopies(s: State, w: Pid, e: WorkerEvent)
    requires Copies(s)
    ensures Copies(NextWorker(s, w, e))
  {
    WorkerFrame(s, w, e); WorkerStaysOn(s, w, e); WorkerMain(s, w, e);
    var t := NextWorker(s, w, e);
    OtherWorkers(s, t, w);
    forall x | x in t.workers ensures IsCopy(t, t.workers[x].mid, t.workers[x].msg) {
      if x in s.workers { assert IsCopy(s, s.workers[x].mid, s.workers[x].msg); }
    }
  }

  lemma RedriveHolds(s: State, q: Pid, e: RedriveEvent)
    ensures var t := NextRedrive(s, q, e);
            q in t.redrives ==>
              if q in s.redrives
              then t.redrives[q].mid == s.redrives[q].mid && t.redrives[q].msg == s.redrives[q].msg
              else t.redrives[q].mid in s.queues.dlq && t.redrives[q].msg == s.queues.dlq[t.redrives[q].mid]
  {
  }

  lemma RedriveTransfers(s: State, q: Pid, e: RedriveEvent)
    ensures var t := NextRedrive(s, q, e);
            t.queues == s.queues
            || (q in s.redrives && t.queues == SendTo(s.queues, s.nextId, s.redrives[q].msg.(receives := 0)))
            || (q in s.redrives && t.queues == s.queues.(dlq := s.queues.dlq - {s.redrives[q].mid}))
  {
  }

  lemma RedriveKeepsCopies(s: State, q: Pid, e: RedriveEvent)
    requires Copies(s) && SentBefore(s)
    ensures Copies(NextRedrive(s, q, e))
  {
    RedriveFrame(s, q, e); RedriveHolds(s, q, e); RedriveTransfers(s, q, e);
    OtherRedrives(s, NextRedrive(s, q, e), q);
    CopiesKept(s, NextRedrive(s, q, e), q);
  }

  /** One dead letter sent again, deleted or taken up. */
  lemma CopiesKept(s: State, t: State, q: Pid)
    requires Copies(s) && SentBefore(s) && t.workers == s.workers
    requires forall x | x in t.redrives && x != q :: x in s.redrives && t.redrives[x] == s.redrives[x]
    requires q in t.redrives ==>
               if q in s.redrives
               then t.redrives[q].mid == s.redrives[q].mid && t.redrives[q].msg == s.redrives[q].msg
               else t.redrives[q].mid in s.queues.dlq && t.redrives[q].msg == s.queues.dlq[t.redrives[q].mid]
    requires t.queues == s.queues
             || (q in s.redrives && t.queues == SendTo(s.queues, s.nextId, s.redrives[q].msg.(receives := 0)))
             || (q in s.redrives && t.queues == s.queues.(dlq := s.queues.dlq - {s.redrives[q].mid}))
    ensures Copies(t)
  {
  }

  // ---------------------------------------------------------------- jobs of messages

  lemma IngestKeepsSentJobs(s: State, p: Pid, e: IngestEvent)
    requires SentJobs(s)
    ensures SentJobs(NextIngest(s, p, e))
  {
    IngestFrame(s, p, e);
    var t := NextIngest(s, p, e);
    assert s.nextId <= t.nextId && s.api.sends <= t.api.sends;
    assert t.queues == s.queues || (s.nextId < t.nextId &&
             exists m :: t.queues == SendTo(s.queues, s.nextId, m) && t.api.sends == s.api.sends + [m.jobId]);
  }

  lemma WorkerDecisions(s: State, w: Pid, e: WorkerEvent)
    ensures var t := NextWorker(s, w, e);
            && s.nextId <= t.nextId
            && (t.db.decisions == s.db.decisions
                || (w in s.workers && s.workers[w].Persist?
                    && t.db.decisions == s.db.decisions + [DecisionRow(s.nextId, s.workers[w].envelope)]))
  {
  }

  lemma WorkerEnvelope(s: State, w: Pid, e: WorkerEvent)
    requires w in s.workers && s.workers[w].Persist? ==> s.workers[w].envelope.jobId == s.workers[w].msg.jobId
    ensures var t := NextWorker(s, w, e);
            w in t.workers && t.workers[w].Persist? ==> t.workers[w].envelope.jobId == t.workers[w].msg.jobId
  {
  }

  /** One more decision, of worker w, and no other message. */
  lemma SentJobsKept(s: State, t: State, w: Pid)
    requires SentJobs(s) && Copies(s)
    requires t.api == s.api && t.queues.sent == s.queues.sent && s.nextId <= t.nextId
    requires t.db.decisions == s.db.decisions
             || (w in s.workers && s.workers[w].Persist?
                 && t.db.decisions == s.db.decisions + [DecisionRow(s.nextId, s.workers[w].envelope)])
    requires forall x | x in t.workers && x != w :: x in s.workers && t.workers[x] == s.workers[x]
    requires w in t.workers && t.workers[w].Persist? ==> t.workers[w].envelope.jobId == t.workers[w].msg.jobId
    ensures SentJobs(t)
  {
  }

  lemma WorkerKeepsSentJobs(s: State, w: Pid, e: WorkerEvent)
    requires SentJobs(s) && Copies(s)
    ensures SentJobs(NextWorker(s, w, e))
  {
    WorkerFrame(s, w, e); WorkerDecisions(s, w, e); WorkerEnvelope(s, w, e);
    OtherWorkers(s, NextWorker(s, w, e), w);
    SentJobsKept(s, NextWorker(s, w, e), w);
  }

  lemma RedriveKeepsSentJobs(s: State, q: Pid, e: RedriveEvent)
    requires SentJobs(s) && Copies(s)
    ensures SentJobs(NextRedrive(s, q, e))
  {
    RedriveFrame(s, q, e);
    var t := NextRedrive(s, q, e);
    assert s.nextId <= t.nextId;
    assert t.queues.sent == s.queues.sent || (s.nextId < t.nextId && q in s.redrives &&
             t.queues.sent == s.queues.sent[s.nextId := s.redrives[q].msg.(receives := 0)]);
  }

  // ---------------------------------------------------------------- succeeded means decided

  lemma DecidedStays(a: Tables, b: Tables)
    requires a.decisions <= b.decisions
    ensures forall j: Id | Decided(a, j) :: Decided(b, j)
  {
    forall j: Id | Decided(a, j) ensures Decided(b, j) {
      var i :| 0 <= i < |a.decisions| && a.decisions[i].envelope.jobId == j;
      assert b.decisions[i].envelope.jobId == j;
    }
  }

  lemma IngestKeepsSucceeded(s: State, p: Pid, e: IngestEvent)
    requires SucceededDecided(s.db) && SentBefore(s)
    ensures SucceededDecided(NextIngest(s, p, e).db)
  {
    IngestFrame(s, p, e);
    DecidedStays(s.db, NextIngest(s, p, e).db);
  }

  lemma RedriveKeepsSucceeded(s: State, q: Pid, e: RedriveEvent)
    requires SucceededDecided(s.db)
    ensures SucceededDecided(NextRedrive(s, q, e).db)
  {
    RedriveFrame(s, q, e);
    DecidedStays(s.db, NextRedrive(s, q, e).db);
  }

  lemma StoreKeepsSucceeded(db: Tables, d: DecisionRow)
    requires SucceededDecided(db)
    ensures SucceededDecided(StoreDecision(db, d))
  {
    var after := StoreDecision(db, d);
    assert after.decisions == db.decisions + [d];
    DecidedStays(db, after);
    assert after.decisions[|db.decisions|].envelope.jobId == d.envelope.jobId;
    assert Decided(after, d.envelope.jobId);
  }

  lemma WorkerKeepsSucceeded(s: State, w: Pid, e: WorkerEvent)
    requires SucceededDecided(s.db) && Verdicts(s)
    ensures SucceededDecided(NextWorker(s, w, e).db) && Verdicts(NextWorker(s, w, e))
  {
    WorkerFrame(s, w, e);
    var t := NextWorker(s, w, e);
    OtherWorkers(s, t, w);
    assert w in t.workers && t.workers[w].FailWrite? ==> t.workers[w].verdict in {Dead, Failed};
    if e.Persisted? {
      if t.db != s.db { StoreKeepsSucceeded(s.db, DecisionRow(s.nextId, s.workers[w].envelope)); }
    } else {
      assert t.db.decisions == s.db.decisions;
      DecidedStays(s.db, t.db);
    }
  }

  // ---------------------------------------------------------------- jobs without a message

  lemma WorkerRows(s: State, w: Pid, e: WorkerEvent)
    ensures var t := NextWorker(s, w, e);
            forall j | j in s.db.jobs && (w in s.workers && s.workers[w].Persist? ==>
                         s.workers[w].envelope.jobId == s.workers[w].msg.jobId) ::
              j in t.db.jobs && (t.db.jobs[j] == s.db.jobs[j] || (w in s.workers && s.workers[w].msg.jobId == j))
  {
  }

  lemma RedriveRows(s: State, q: Pid, e: RedriveEvent)
    ensures var t := NextRedrive(s, q, e);
            forall j | j in s.db.jobs ::
              j in t.db.jobs && (t.db.jobs[j] == s.db.jobs[j] || (q in s.redrives && s.redrives[q].msg.jobId == j))
  {
  }

  /** The handler that is sending j moves on: still sending, recorded as failed, or dead. */
  lemma SenderMovesOn(s: State, p: Pid, e: IngestEvent, j: Id)
    requires p in s.api.ingests && Committed(s.api.ingests[p]) && s.api.ingests[p].jobId == j && j in s.db.jobs
    requires j !in NextIngest(s, p, e).api.sends
    ensures Unsent(NextIngest(s, p, e), j)
  {
    var t := NextIngest(s, p, e);
    if p in t.api.ingests {
      assert Committed(t.api.ingests[p]) && t.api.ingests[p].jobId == j;
    }
  }

  lemma OtherIngests(s: State, p: Pid, e: IngestEvent)
    ensures var t := NextIngest(s, p, e);
            && s.api.orphaned <= t.api.orphaned
            && t.api.ingests - {p} == s.api.ingests - {p}
  {
  }

  lemma IngestJobs(s: State, p: Pid, e: IngestEvent, j: Id)
    requires Handlers(s) && j in NextIngest(s, p, e).db.jobs
    ensures var t := NextIngest(s, p, e);
            if j in s.db.jobs then SendFailed(s.db, j) ==> SendFailed(t.db, j)
            else p in t.api.ingests && Committed(t.api.ingests[p]) && t.api.ingests[p].jobId == j
  {
  }

  lemma IngestRows(s: State, p: Pid, e: IngestEvent, j: Id)
    requires j in NextIngest(s, p, e).db.jobs && j !in NextIngest(s, p, e).api.sends
    requires j in s.db.jobs ==> Unsent(s, j)
    requires Handlers(s)
    ensures Unsent(NextIngest(s, p, e), j)
  {
    IngestJobs(s, p, e, j); OtherIngests(s, p, e);
    var t := NextIngest(s, p, e);
    if j in s.db.jobs && BeingSent(s, j) {
      var r :| r in s.api.ingests && Committed(s.api.ingests[r]) && s.api.ingests[r].jobId == j;
      if r == p { SenderMovesOn(s, p, e, j); }
      else { assert r in s.api.ingests - {p} && (t.api.ingests - {p})[r] == s.api.ingests[r]; }
    }
  }

  lemma IngestKeepsUnsent(s: State, p: Pid, e: IngestEvent)
    requires Handlers(s) && UnsentInv(s)
    ensures UnsentInv(NextIngest(s, p, e))
  {
    var t := NextIngest(s, p, e);
    assert s.api.sends <= t.api.sends;
    forall j | j in t.db.jobs && j !in t.api.sends ensures Unsent(t, j) { IngestRows(s, p, e, j); }
  }

  /** A step of a handler that works on sent jobs only. */
  lemma SentStepKeepsUnsent(s: State, t: State)
    requires UnsentInv(s) && t.api == s.api && t.db.jobs.Keys == s.db.jobs.Keys
    requires forall j | j in s.db.jobs && j !in s.api.sends :: t.db.jobs[j] == s.db.jobs[j]
    ensures UnsentInv(t)
  {
    forall j | j in t.db.jobs && j !in t.api.sends ensures Unsent(t, j) { assert Unsent(s, j); }
  }

  lemma WorkerKeepsUnsent(s: State, w: Pid, e: WorkerEvent)
    requires Copies(s) && SentJobs(s) && UnsentInv(s)
    ensures UnsentInv(NextWorker(s, w, e))
  {
    WorkerKeepsIdentity(s, w, e); WorkerRows(s, w, e);
    SentStepKeepsUnsent(s, NextWorker(s, w, e));
  }

  lemma RedriveKeepsUnsent(s: State, q: Pid, e: RedriveEvent)
    requires Copies(s) && SentJobs(s) && UnsentInv(s)
    ensures UnsentInv(NextRedrive(s, q, e))
  {
    RedriveKeepsIdentity(s, q, e); RedriveRows(s, q, e);
    SentStepKeepsUnsent(s, NextRedrive(s, q, e));
  }

  // ---------------------------------------------------------------- jobs with a message

  lemma QueuesKeepSafe(s: State, t: State)
    requires SafeInv(s) && KeepsMessages(s, t, None)
    requires t.api.sends == s.api.sends && t.workers == s.workers && t.redrives == s.redrives
    ensures SafeInv(t)
  {
    forall i | 0 <= i < |t.api.sends| ensures Safe(t, t.api.sends[i], -1) { SafeStays(s, t, s.api.sends[i], -1); }
    forall w | w in t.workers && t.workers[w].Ack? ensures Settled(t.db, t.workers[w].msg.jobId) {
      SettledStays(s.db, t.db, t.workers[w].msg.jobId);
    }
    forall q | q in t.redrives && t.redrives[q].Remove?
      ensures Safe(t, t.redrives[q].msg.jobId, t.redrives[q].mid)
    {
      SafeStays(s, t, s.redrives[q].msg.jobId, s.redrives[q].mid);
    }
  }

  lemma IngestKeepsSafe(s: State, p: Pid, e: IngestEvent)
    requires SafeInv(s) && SentBefore(s)
    ensures SafeInv(NextIngest(s, p, e))
  {
    var t := NextIngest(s, p, e);
    IngestFrame(s, p, e);
    if t.api.sends == s.api.sends {
      QueuesKeepSafe(s, t);
    } else {
      var j := s.api.ingests[p].jobId;
      QueuesKeepSafe(s, t.(api := t.api.(sends := s.api.sends)));
      assert t.api.sends == s.api.sends + [j];
      assert Queued(t, s.nextId) && t.queues.sent[s.nextId].jobId == j;
      assert Witnessed(t, j, -1);
      forall i | 0 <= i < |t.api.sends| ensures Safe(t, t.api.sends[i], -1) {
        if i < |s.api.sends| { SafeStays(s, t, s.api.sends[i], -1); }
      }
    }
  }

  /** The step by which a worker comes to its delete: it read, stored or recorded what settles the job. */
  lemma AckComes(s: State, w: Pid, e: WorkerEvent)
    requires w in s.workers && !s.workers[w].Ack?
    ensures var t, j := NextWorker(s, w, e), s.workers[w].msg.jobId;
            w in t.workers && t.workers[w].Ack? ==>
              && t.workers[w].msg.jobId == j
              && (|| (t.db == s.db && j in s.db.jobs && s.db.jobs[j].status == Succeeded)
                  || (t.db == s.db && Decided(s.db, j))
                  || (t.db == s.db && j !in s.db.jobs)
                  || (t.db == s.db && s.workers[w].Persist? && Decided(s.db, s.workers[w].envelope.jobId))
                  || (s.workers[w].Persist?
                      && t.db.decisions == s.db.decisions + [DecisionRow(s.nextId, s.workers[w].envelope)])
                  || (s.workers[w].FailAudit?
                      && t.db.audit == s.db.audit + [JobFailed(j, s.workers[w].verdict, ValidationFailure)]))
  {
    if e.StoredFetched? && IsDecisionOf(s.db, s.workers[w].msg.jobId, e.row) {
      assert Decided(s.db, s.workers[w].msg.jobId);
    }
  }

  /** A worker reaches its delete only with the job settled. */
  lemma AckIsSettled(s: State, w: Pid, e: WorkerEvent)
    requires SucceededDecided(s.db) && SentJobs(s) && Copies(s) && Sends(s)
    requires w in s.workers && !s.workers[w].Ack?
    ensures var t := NextWorker(s, w, e);
            w in t.workers && t.workers[w].Ack? ==> Settled(t.db, t.workers[w].msg.jobId)
  {
    AckComes(s, w, e);
    assert s.workers[w].msg.jobId in s.api.sends && s.workers[w].msg.jobId in s.db.jobs;
    AckSettles(s, NextWorker(s, w, e).db, s.workers[w]);
  }

  lemma AckSettles(s: State, db: Tables, pc: Worker)
    requires SucceededDecided(s.db) && (pc.Persist? ==> pc.envelope.jobId == pc.msg.jobId)
    ensures db == s.db && pc.msg.jobId in s.db.jobs && s.db.jobs[pc.msg.jobId].status == Succeeded ==>
              Settled(db, pc.msg.jobId)
    ensures db == s.db && pc.Persist? && Decided(s.db, pc.envelope.jobId) ==> Settled(db, pc.msg.jobId)
    ensures pc.Persist? && db.decisions == s.db.decisions + [DecisionRow(s.nextId, pc.envelope)] ==>
              Settled(db, pc.msg.jobId)
    ensures pc.FailAudit? && db.audit == s.db.audit + [JobFailed(pc.msg.jobId, pc.verdict, ValidationFailure)] ==>
              Settled(db, pc.msg.jobId)
  {
    if pc.Persist? && db.decisions == s.db.decisions + [DecisionRow(s.nextId, pc.envelope)] {
      assert db.decisions[|s.db.decisions|].envelope.jobId == pc.msg.jobId;
    }
    if pc.FailAudit? && db.audit == s.db.audit + [JobFailed(pc.msg.jobId, pc.verdict, ValidationFailure)] {
      assert db.audit[|s.db.audit|] == JobFailed(pc.msg.jobId, pc.verdict, ValidationFailure);
    }
  }

  lemma WorkerQueues(s: State, w: Pid, e: WorkerEvent)
    requires Copies(s) && SafeInv(s)
    ensures var t := NextWorker(s, w, e);
            KeepsMessages(s, t, None) || (w in s.workers && s.workers[w].Ack? && w !in t.workers
                                          && KeepsMessages(s, t, Some(s.workers[w].mid)))
  {
    WorkerFrame(s, w, e);
    WorkerTakes(s, w, e);
  }

  /** A worker's step drops no message but the one it acknowledges. */
  lemma WorkerTakes(s: State, w: Pid, e: WorkerEvent)
    ensures var t := NextWorker(s, w, e);
            || s.queues.main.Keys == t.queues.main.Keys
            || (w in s.workers && s.workers[w].Ack? && w !in t.workers
                && t.queues.main == s.queues.main - {s.workers[w].mid})
  {
  }

  lemma WorkerKeepsSafe(s: State, w: Pid, e: WorkerEvent)
    requires Sends(s) && SafeInv(s) && Copies(s) && SentJobs(s) && SucceededDecided(s.db)
    ensures SafeInv(NextWorker(s, w, e))
  {
    var t := NextWorker(s, w, e);
    WorkerFrame(s, w, e); WorkerQueues(s, w, e); OtherWorkers(s, t, w);
    forall j: Id, a: int | Safe(s, j, a) ensures Safe(t, j, a) {
      if KeepsMessages(s, t, None) { SafeStays(s, t, j, a); }
      else { SafeDespite(s, t, s.workers[w].mid, j, a); }
    }
    forall x | x in t.workers && t.workers[x].Ack? ensures Settled(t.db, t.workers[x].msg.jobId) {
      if x in s.workers && s.workers[x].Ack? && t.workers[x].msg == s.workers[x].msg {
        SettledStays(s.db, t.db, t.workers[x].msg.jobId);
      } else {
        WorkerStaysOn(s, w, e);
        AckIsSettled(s, w, e);
      }
    }
  }

  lemma RedriveQueues(s: State, q: Pid, e: RedriveEvent)
    requires SentBefore(s) && Copies(s)
    ensures var t := NextRedrive(s, q, e);
            if q in s.redrives && s.redrives[q].Remove? && e.Removed?
            then q !in t.redrives && KeepsMessages(s, t, Some(s.redrives[q].mid))
            else KeepsMessages(s, t, None)
  {
    RedriveFrame(s, q, e);
  }

  lemma CopyIsSafe(s: State, q: Pid, e: RedriveEvent)
    requires SentBefore(s) && Copies(s) && q in s.redrives && !s.redrives[q].Remove?
    ensures var t := NextRedrive(s, q, e);
            q in t.redrives && t.redrives[q].Remove? ==> Safe(t, t.redrives[q].msg.jobId, t.redrives[q].mid)
  {
    var t := NextRedrive(s, q, e);
    if q in t.redrives && t.redrives[q].Remove? {
      assert s.redrives[q].mid < s.nextId;
      assert Queued(t, s.nextId) && t.queues.sent[s.nextId].jobId == t.redrives[q].msg.jobId;
      assert Witnessed(t, t.redrives[q].msg.jobId, t.redrives[q].mid);
    }
  }

  lemma NewRedrive(s: State, q: Pid, e: RedriveEvent)
    requires q !in s.redrives
    ensures q in NextRedrive(s, q, e).redrives ==> !NextRedrive(s, q, e).redrives[q].Remove?
    ensures e.Removed? ==> NextRedrive(s, q, e) == s
  {
  }

  lemma NewRemoval(s: State, q: Pid, e: RedriveEvent)
    requires SentBefore(s) && Copies(s)
    ensures var t := NextRedrive(s, q, e);
            q in t.redrives && t.redrives[q].Remove? ==>
              t == s || Safe(t, t.redrives[q].msg.jobId, t.redrives[q].mid)
  {
    if q !in s.redrives { NewRedrive(s, q, e); }
    else if !s.redrives[q].Remove? { CopyIsSafe(s, q, e); }
  }

  lemma RedriveKeepsSafe(s: State, q: Pid, e: RedriveEvent)
    requires SafeInv(s) && SentBefore(s) && Copies(s)
    ensures SafeInv(NextRedrive(s, q, e))
  {
    var t := NextRedrive(s, q, e);
    RedriveFrame(s, q, e); RedriveQueues(s, q, e); OtherRedrives(s, t, q); NewRemoval(s, q, e);
    forall j: Id, a: int | Safe(s, j, a) ensures Safe(t, j, a) {
      if KeepsMessages(s, t, None) { SafeStays(s, t, j, a); }
      else { SafeDespite(s, t, s.redrives[q].mid, j, a); }
    }
    forall w | w in t.workers && t.workers[w].Ack? ensures Settled(t.db, t.workers[w].msg.jobId) {
      SettledStays(s.db, t.db, t.workers[w].msg.jobId);
    }
  }

  // ---------------------------------------------------------------- runs

  lemma QueueStepKeepsRest(s: State, t: State)
    requires Copies(s) && UnsentInv(s) && t.db == s.db && t.workers == s.workers && t.redrives == s.redrives
    requires t.api == s.api.(locks := t.api.locks) && t.queues.sent == s.queues.sent
    requires forall m | m in t.queues.main :: m in s.queues.main && t.queues.main[m] == s.queues.main[m]
    requires forall m | m in t.queues.dlq ::
               IsCopy(s, m, t.queues.dlq[m])
    ensures Copies(t) && UnsentInv(t)
  {
    forall j | j in t.db.jobs && j !in t.api.sends ensures Unsent(t, j) { assert Unsent(s, j); }
  }

  lemma IngestKeepsTrack(s: State, p: Pid, e: IngestEvent)
    requires Handlers(s) && TrackInv(s)
    ensures TrackInv(NextIngest(s, p, e))
  {
    IngestFrame(s, p, e);
    IngestKeepsCopies(s, p, e); IngestKeepsSentJobs(s, p, e);
    IngestKeepsSucceeded(s, p, e); IngestKeepsUnsent(s, p, e); IngestKeepsSafe(s, p, e);
  }

  lemma WorkerKeepsTrack(s: State, w: Pid, e: WorkerEvent)
    requires Sends(s) && TrackInv(s)
    ensures TrackInv(NextWorker(s, w, e))
  {
    WorkerKeepsCopies(s, w, e); WorkerKeepsSentJobs(s, w, e);
    WorkerKeepsSucceeded(s, w, e); WorkerKeepsUnsent(s, w, e); WorkerKeepsSafe(s, w, e);
  }

  lemma RedriveKeepsTrack(s: State, q: Pid, e: RedriveEvent)
    requires TrackInv(s)
    ensures TrackInv(NextRedrive(s, q, e))
  {
    RedriveFrame(s, q, e);
    RedriveKeepsCopies(s, q, e); RedriveKeepsSentJobs(s, q, e);
    RedriveKeepsSucceeded(s, q, e); RedriveKeepsUnsent(s, q, e); RedriveKeepsSafe(s, q, e);
  }

  lemma QueueStepKeepsTrack(s: State, e: Event)
    requires TrackInv(s) && (e.LockLapsed? || e.DeadLettered?)
    ensures TrackInv(Next(s, e))
  {
    QueueStepKeepsRest(s, Next(s, e));
    QueuesKeepSafe(s, Next(s, e));
  }

  lemma NextKeepsTrack(s: State, e: Event)
    requires Handlers(s) && Sends(s) && TrackInv(s)
    ensures TrackInv(Next(s, e))
  {
    match e
    case OfIngest(p, ie) => IngestKeepsTrack(s, p, ie);
    case OfWorker(w, we) => WorkerKeepsTrack(s, w, we);
    case OfRedrive(q, re) => RedriveKeepsTrack(s, q, re);
    case LockLapsed(h) => QueueStepKeepsTrack(s, e);
    case DeadLettered(m) => QueueStepKeepsTrack(s, e);
  }

  lemma NextKeepsWorkInv(s: State, e: Event)
    requires WorkInv(s)
    ensures WorkInv(Next(s, e))
  {
    NextKeepsIngestInv(s, e);
    NextKeepsTrack(s, e);
  }

  lemma {:induction false} RunKeepsWorkInv(s: State, es: seq<Event>)
    requires WorkInv(s)
    ensures WorkInv(Run(s, es))
    decreases |es|
  {
    if es != [] {
      NextKeepsWorkInv(s, es[0]);
      RunKeepsWorkInv(Next(s, es[0]), es[1..]);
    }
  }

  // ---------------------------------------------------------------- the theorems

  ghost predicate NoMessage(s: State, j: Id) {
    forall m | Queued(s, m) && m in s.queues.sent :: s.queues.sent[m].jobId != j
  }

  lemma Accounted(s: State, j: Id)
    requires UnsentInv(s) && SafeInv(s) && j in s.db.jobs && NoMessage(s, j)
    ensures Settled(s.db, j) || Unsent(s, j)
  {
    if j in s.api.sends {
      var i :| 0 <= i < |s.api.sends| && s.api.sends[i] == j;
      assert Safe(s, j, -1);
    }
  }

  /** A committed job with no message copy in either queue is accounted for. */
  lemma NoWorkIsLost(es: seq<Event>, j: Id)
    requires j in Run(INIT, es).db.jobs && NoMessage(Run(INIT, es), j)
    ensures var s := Run(INIT, es);
            || Decided(s.db, j) || ValidationLogged(s.db, j)
            || SendFailed(s.db, j) || BeingSent(s, j) || j in s.api.orphaned
  {
    RunKeepsWorkInv(INIT, es);
    Accounted(Run(INIT, es), j);
  }

  /** Whatever happened to its message, a job marked succeeded has a decision. */
  lemma SucceededHasDecision(es: seq<Event>, j: Id)
    requires j in Run(INIT, es).db.jobs && Run(INIT, es).db.jobs[j].status == Succeeded
    ensures Decided(Run(INIT, es).db, j)
  {
    RunKeepsWorkInv(INIT, es);
  }
}
