/** What one delivery and one upload leave in the tables and queues, column by column. */
module HandlerOutcomes {
  import opened Domain
  import opened JobMachine
  import opened JobHandlers
  import opened NoLostWork
  import E = ExactlyOnce
  import SerialRuns

  // ---------------------------------------------------------------- one delivery

  /** Message m is gone, or it stays with one more receive. */
  predicate Gone(s: State, t: State, m: Id)
    requires m in s.queues.main
  {
    t.queues == s.queues.(main := s.queues.main - {m})
  }

  predicate Kept(s: State, t: State, m: Id)
    requires m in s.queues.main
  {
    t.queues == s.queues.(main := s.queues.main[m := s.queues.main[m].(receives := s.queues.main[m].receives + 1)])
  }

  /** Job j, tried once more, has failed with f: dead when that was its last attempt. */
  predicate FailedWith(a: Tables, b: Tables, j: Id, f: Failure)
    requires j in a.jobs
  {
    var tries := a.jobs[j].attempts + 1;
    var status := if tries >= a.jobs[j].maxAttempts then Dead else Failed;
    b == a.(jobs := a.jobs[j := a.jobs[j].(status := status, attempts := tries, lastError := Some(f))],
            audit := a.audit + [JobFailed(j, status, f)])
  }

  /** Job j, tried once more, has its decision, under identifier id, with all its effects. */
  ghost predicate DecidedWith(a: Tables, b: Tables, j: Id, id: Id, e: Envelope)
    requires j in a.jobs
  {
    && b.jobs == a.jobs[j := a.jobs[j].(status := Succeeded, attempts := a.jobs[j].attempts + 1, lastError := None)]
    && b.contents == a.contents && b.decisions == a.decisions + [DecisionRow(id, e)]
    && |b.metrics| == |a.metrics| + 1 && a.metrics <= b.metrics
    && E.TellsMetrics(b.metrics[|a.metrics|], DecisionRow(id, e))
    && b.audit == a.audit + [DecisionCreated(id, e.decision, e.confidence, e.needsReview)]
                  + (if e.needsReview then [ReviewEnqueued(id)] else [])
    && (if e.needsReview
        then |b.reviews| == |a.reviews| + 1 && a.reviews <= b.reviews
             && E.TellsReview(b.reviews[|a.reviews|], DecisionRow(id, e))
        else b.reviews == a.reviews)
  }

  /** A job that is settled is left alone; else its analysis decides what is written and whether the message stays. */
  ghost predicate DeliveryTold(s: State, t: State, m: Id, a: Analysis)
    requires m in s.queues.main && s.queues.main[m].jobId in s.db.jobs
  {
    var j := s.queues.main[m].jobId;
    if s.db.jobs[j].status == Succeeded then t.db == s.db && Gone(s, t, m) && t.returned == s.returned
    else if Decided(s.db, j) then
      t.db == s.db && Gone(s, t, m) && t.nextId == s.nextId
      && |t.returned| == |s.returned| + 1 && E.Matches(s.db.decisions, t.returned[|s.returned|])
    else match a
      case Analysed(e) =>
        && DecidedWith(s.db, t.db, j, s.nextId, e) && Gone(s, t, m) && t.returned == s.returned + [Outcome(j, e)]
      case Invalid => FailedWith(s.db, t.db, j, ValidationFailure) && Gone(s, t, m) && t.returned == s.returned
      case Broke => FailedWith(s.db, t.db, j, OtherFailure) && Kept(s, t, m) && t.returned == s.returned
  }

  /** Storing a decision on a job that has just started an attempt. */
  lemma StoringTells(db: Tables, j: Id, id: Id, e: Envelope)
    requires j in db.jobs && e.jobId == j && forall i | 0 <= i < |db.reviews| :: db.reviews[i].decisionId != id
    ensures DecidedWith(db, StoreDecision(StartAttempt(db, j), DecisionRow(id, e)), j, id, e)
  {
    var d := DecisionRow(id, e);
    var t := StoreDecision(StartAttempt(db, j), d);
    assert t.jobs[j] == db.jobs[j].(status := Succeeded, attempts := db.jobs[j].attempts + 1, lastError := None);
    assert db.audit + [CreatedEntry(d), ReviewEnqueued(id)] == db.audit + [CreatedEntry(d)] + [ReviewEnqueued(id)];
    assert db.audit + [CreatedEntry(d)] + [] == db.audit + [CreatedEntry(d)];
  }

  lemma FailingTells(db: Tables, j: Id, f: Failure)
    requires j in db.jobs
    ensures FailedWith(db, FailedTables(StartAttempt(db, j), j, f), j, f)
  {
  }

  lemma SettledTells(s: State, m: Id, a: Analysis)
    requires m in s.queues.main && s.queues.main[m].jobId in s.db.jobs
    requires s.db.jobs[s.queues.main[m].jobId].status == Succeeded || Decided(s.db, s.queues.main[m].jobId)
    ensures DeliveryTold(s, Delivered(s, m, a), m, a)
  {
    var j := s.queues.main[m].jobId;
    if s.db.jobs[j].status != Succeeded {
      assert E.Matches(s.db.decisions, Outcome(j, s.db.decisions[RowOf(s.db.decisions, j)].envelope));
    }
  }

  lemma FreshTells(s: State, m: Id, a: Analysis)
    requires m in s.queues.main && s.queues.main[m].jobId in s.db.jobs && AnalysisOf(a, s.queues.main[m])
    requires s.db.jobs[s.queues.main[m].jobId].status != Succeeded && !Decided(s.db, s.queues.main[m].jobId)
    requires forall i | 0 <= i < |s.db.reviews| :: s.db.reviews[i].decisionId != s.nextId
    ensures DeliveryTold(s, Delivered(s, m, a), m, a)
  {
    var j := s.queues.main[m].jobId;
    assert !Decided(StartAttempt(s.db, j), j);
    match a
    case Analysed(e) => StoringTells(s.db, j, s.nextId, e);
    case Invalid => FailingTells(s.db, j, ValidationFailure);
    case Broke => FailingTells(s.db, j, OtherFailure);
  }

  /** What DeliveryTells needs of a state. */
  ghost predicate Fits(s: State, m: Id) {
    && m in s.queues.main && s.queues.main[m].jobId in s.db.jobs
    && forall i | 0 <= i < |s.db.reviews| :: s.db.reviews[i].decisionId != s.nextId
  }

  lemma DeliveryTells(s: State, m: Id, a: Analysis)
    requires Fits(s, m) && AnalysisOf(a, s.queues.main[m])
    ensures DeliveryTold(s, Delivered(s, m, a), m, a)
  {
    if s.db.jobs[s.queues.main[m].jobId].status == Succeeded || Decided(s.db, s.queues.main[m].jobId) {
      SettledTells(s, m, a);
    } else {
      FreshTells(s, m, a);
    }
  }

  lemma RunsFit(s: State, m: Id)
    requires WorkInv(s) && E.EffectInv(s) && m in s.queues.main
    ensures Fits(s, m)
  {
    assert IsCopy(s, m, s.queues.main[m]);
    forall i | 0 <= i < |s.db.reviews| ensures s.db.reviews[i].decisionId != s.nextId {
      E.HumansAreDecisions(s.db.decisions, i);
    }
  }

  lemma RunsKeep(es: seq<Event>, s: State)
    requires s == Run(INIT, es)
    ensures WorkInv(s) && E.EffectInv(s)
  {
    RunKeepsWorkInv(INIT, es);
    E.RunKeepsEffectInv(INIT, es);
  }

  /** After any run, handled on its own. */
  lemma DeliveryOutcomes(es: seq<Event>, s: State, m: Id, a: Analysis)
    requires s == Run(INIT, es) && m in s.queues.main && AnalysisOf(a, s.queues.main[m])
    ensures Fits(s, m) && DeliveryTold(s, Delivered(s, m, a), m, a)
  {
    RunsKeep(es, s);
    RunsFit(s, m);
    DeliveryTells(s, m, a);
  }

  // ---------------------------------------------------------------- an exception

  /** Inside process_job. */
  predicate Inside(pc: Worker) {
    pc.CheckDecision? || pc.FetchStored? || pc.Begin? || pc.Compute? || pc.Persist?
  }

  const RECORDING: seq<WorkerEvent> := [Raised] + ([AttemptsRead] + ([FailureWritten] + ([FailureAudited] + [])))

  /** An exception anywhere inside process_job is recorded by the counter as it then stands, and the message stays. */
  lemma RaisedIsRecorded(s: State, w: Pid)
    requires w in s.workers && Inside(s.workers[w]) && s.workers[w].msg.jobId in s.db.jobs
    ensures var t := Run(s, SerialRuns.Steps(w, RECORDING));
            var j := s.workers[w].msg.jobId;
            var status := if s.db.jobs[j].attempts >= s.db.jobs[j].maxAttempts then Dead else Failed;
            && t.queues == s.queues && t.workers == s.workers - {w}
            && t.db == s.db.(jobs := s.db.jobs[j := s.db.jobs[j].(status := status, lastError := Some(OtherFailure))],
                             audit := s.db.audit + [JobFailed(j, status, OtherFailure)])
  {
    var pc := s.workers[w];
    SerialRuns.RunWorker(s, w, Raised, [AttemptsRead] + ([FailureWritten] + ([FailureAudited] + [])));
    var s1 := NextWorker(s, w, Raised);
    assert s1 == s.(workers := s.workers[w := FailRead(pc.mid, pc.msg, OtherFailure)]);
    SerialRuns.FailureRuns(s1, w, pc.mid, pc.msg, OtherFailure);
    assert s1.workers - {w} == s.workers - {w};
  }

  // ---------------------------------------------------------------- waiting for another upload

  lemma {:induction false} PollsCount(s: State, p: Pid, h: string, tries: nat, n: nat)
    requires p in s.api.ingests && s.api.ingests[p] == Poll(h, tries) && !JobExists(s.db, h) && n <= tries
    ensures Run(s, SerialRuns.Requests(p, SerialRuns.Polls(n)))
            == s.(api := s.api.(ingests := s.api.ingests[p := Poll(h, tries - n)]))
    decreases n
  {
    if n == 0 {
      assert SerialRuns.Requests(p, SerialRuns.Polls(0)) == [];
      assert s.api.ingests[p := Poll(h, tries)] == s.api.ingests;
    } else {
      SerialRuns.RunIngest(s, p, Polled(None), SerialRuns.Polls(n - 1));
      PollsCount(NextIngest(s, p, Polled(None)), p, h, tries - 1, n - 1);
    }
  }

  /** An upload that lost the lock asks twenty times for the other one's job, and then gives up. */
  lemma WaitsTwentyPolls(s: State, p: Pid, h: string)
    requires p in s.api.ingests && s.api.ingests[p] == TakeLock(h) && h in s.api.locks && !JobExists(s.db, h)
    ensures var waiting := NextIngest(s, p, LockTried);
            && p in Run(waiting, SerialRuns.Requests(p, SerialRuns.Polls(20))).api.ingests
            && Run(waiting, SerialRuns.Requests(p, SerialRuns.Polls(21))) == SerialRuns.Without(waiting, p)
  {
    var waiting := NextIngest(s, p, LockTried);
    PollsCount(waiting, p, h, 20, 20);
    SerialRuns.PollingRuns(waiting, p, h, 20);
  }

  // ---------------------------------------------------------------- one upload

  /** Content row and job row of a new upload. */
  predicate RowsAdded(a: Tables, b: Tables, c: Id, j: Id, h: string, status: JobStatus, error: Option<Failure>) {
    b == a.(contents := a.contents[c := Content(h)], jobs := a.jobs[j := Job(c, h, status, 0, 3, error)],
            audit := a.audit + [JobEnqueued(j, h)])
  }

  /** A known hash is answered from its row; a held lock, no storage, a lost race refuse; else rows and a message. */
  ghost predicate UploadTold(s: State, t: State, r: IngestResult, h: string, stored: bool, sent: bool) {
    var c, j := s.nextId, s.nextId + 1;
    if JobExists(s.db, h) then
      && r.Accepted? && r.response.jobId in s.db.jobs && s.db.jobs[r.response.jobId].hash == h
      && r.response == Response(r.response.jobId, s.db.jobs[r.response.jobId].contentId, h,
                                s.db.jobs[r.response.jobId].status, true)
      && t == s.(api := s.api.(responses := s.api.responses + [r.response]))
    else if h in s.api.locks then r == Refused(ConcurrentIngest) && t == s
    else
      && t.api.locks == s.api.locks + {h} && t.queues.dlq == s.queues.dlq
      && if !stored then r == Refused(StorageFailed) && t.db == s.db && t.queues == s.queues
         else if ContentExists(s.db, h) then r == Refused(RaceUnresolved) && t.db == s.db && t.queues == s.queues
         else if sent then
           && r == Accepted(Response(j, c, h, Queued, false)) && RowsAdded(s.db, t.db, c, j, h, Queued, None)
           && t.queues.main == s.queues.main[s.nextId + 2 := Msg(j, c, h, 0)]
         else
           && r == Refused(EnqueueFailed) && RowsAdded(s.db, t.db, c, j, h, Failed, Some(EnqueueFailure))
           && t.queues == s.queues
  }

  lemma UploadOutcomes(s: State, h: string, stored: bool, sent: bool, known: Option<Id>)
    requires Answers(s.db, h, known)
    ensures var (t, r) := AcceptedImage(s, h, stored, sent, known); UploadTold(s, t, r, h, stored, sent)
  {
  }
}
