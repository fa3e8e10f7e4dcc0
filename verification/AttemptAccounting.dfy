/**
 The attempt counter. In every interleaving it equals the number of processing starts
 since the job was created or last reset. When no two handlers hold one job at once, the
 counter decides between the two failure statuses: a dead job has used up its attempts
 and a failed job has not.
 */
module AttemptAccounting {
  import opened Domain
  import opened JobMachine
  import opened IdempotentIngest
  import opened NoLostWork
  import opened JobStatusSoundness
  import opened ExactlyOnce

  // ---------------------------------------------------------------- counting starts

  /** Processing starts of job j since its last reset. */
  ghost function StartsSinceReset(marks: seq<Mark>, j: Id): nat {
    if marks == [] then 0
    else
      var last := marks[|marks| - 1];
      var before := StartsSinceReset(marks[..|marks| - 1], j);
      if last == Started(j) then before + 1 else if last == WasReset(j) then 0 else before
  }

  lemma StartsSnoc(marks: seq<Mark>, m: Mark, j: Id)
    ensures StartsSinceReset(marks + [m], j) ==
            if m == Started(j) then StartsSinceReset(marks, j) + 1
            else if m == WasReset(j) then 0 else StartsSinceReset(marks, j)
  {
    assert (marks + [m])[..|marks|] == marks;
  }

  lemma {:induction false} NoStarts(marks: seq<Mark>, j: Id)
    requires forall i | 0 <= i < |marks| :: marks[i].jobId != j
    ensures StartsSinceReset(marks, j) == 0
  {
    if marks != [] { NoStarts(marks[..|marks| - 1], j); }
  }

  ghost predicate Counted(s: State) {
    forall j | j in s.db.jobs :: s.db.jobs[j].attempts == StartsSinceReset(s.marks, j)
  }

  ghost predicate MarksSent(s: State) {
    forall i | 0 <= i < |s.marks| :: s.marks[i].jobId in s.api.sends
  }

  ghost predicate Limits(s: State) {
    forall j | j in s.db.jobs :: s.db.jobs[j].maxAttempts == DEFAULT_MAX_ATTEMPTS
  }

  ghost predicate CountInv(s: State) { Counted(s) && MarksSent(s) && Limits(s) }

  /** t adds the mark m (or none), counts it on its own job, and touches no other counter. */
  ghost predicate CountsMark(s: State, t: State, m: Option<Mark>) {
    && t.db.jobs.Keys == s.db.jobs.Keys && s.api.sends <= t.api.sends
    && t.marks == s.marks + (if m.Some? then [m.value] else [])
    && (m.Some? ==> m.value.jobId in s.api.sends)
    && forall j | j in s.db.jobs ::
         && t.db.jobs[j].maxAttempts == s.db.jobs[j].maxAttempts
         && t.db.jobs[j].attempts == if m == Some(Started(j)) then s.db.jobs[j].attempts + 1
                                     else if m == Some(WasReset(j)) then 0
                                     else s.db.jobs[j].attempts
  }

  lemma MarkKeepsCount(s: State, t: State, m: Option<Mark>)
    requires CountInv(s) && CountsMark(s, t, m)
    ensures CountInv(t)
  {
    forall j | j in t.db.jobs ensures t.db.jobs[j].attempts == StartsSinceReset(t.marks, j) {
      if m.Some? { StartsSnoc(s.marks, m.value, j); } else { assert t.marks == s.marks; }
    }
  }

  lemma CommitKeepsCount(s: State, p: Pid, h: string, c: Id, j: Id)
    requires CountInv(s) && Sends(s) && j !in s.db.jobs && !ContentExists(s.db, h) && !JobExists(s.db, h)
    ensures CountInv(IngestCommit(s, p, h, c, j, None))
  {
    NoStarts(s.marks, j);
  }

  predicate Commits(s: State, p: Pid, e: IngestEvent) {
    && e.RowsCommitted? && p in s.api.ingests && s.api.ingests[p].CommitRows?
    && !ContentExists(s.db, s.api.ingests[p].hash) && !JobExists(s.db, s.api.ingests[p].hash)
  }

  lemma IngestCounts(s: State, p: Pid, e: IngestEvent)
    requires !Commits(s, p, e)
    ensures CountsMark(s, NextIngest(s, p, e), None)
  {
  }

  lemma IngestKeepsCount(s: State, p: Pid, e: IngestEvent)
    requires CountInv(s) && Sends(s) && Handlers(s)
    ensures CountInv(NextIngest(s, p, e))
  {
    if Commits(s, p, e) {
      var pc := s.api.ingests[p];
      CommitKeepsCount(s, p, pc.hash, pc.contentId, pc.jobId);
    } else {
      IngestCounts(s, p, e);
      MarkKeepsCount(s, NextIngest(s, p, e), None);
    }
  }

  function WorkerMark(s: State, w: Pid, e: WorkerEvent): Option<Mark> {
    if w in s.workers && s.workers[w].Begin? && e.AttemptStarted? then Some(Started(s.workers[w].msg.jobId)) else None
  }

  lemma WorkerMarks(s: State, w: Pid, e: WorkerEvent)
    ensures var m := WorkerMark(s, w, e);
            NextWorker(s, w, e).marks == s.marks + (if m.Some? then [m.value] else [])
  {
  }

  lemma WorkerAttempts(s: State, w: Pid, e: WorkerEvent, j: Id)
    requires j in s.db.jobs
    ensures var t := NextWorker(s, w, e);
            && j in t.db.jobs && t.db.jobs[j].maxAttempts == s.db.jobs[j].maxAttempts
            && t.db.jobs[j].attempts ==
                 s.db.jobs[j].attempts + if WorkerMark(s, w, e) == Some(Started(j)) then 1 else 0
  {
  }

  lemma WorkerCounts(s: State, w: Pid, e: WorkerEvent)
    requires Copies(s) && SentJobs(s) && Sends(s)
    ensures CountsMark(s, NextWorker(s, w, e), WorkerMark(s, w, e))
  {
    WorkerKeepsIdentity(s, w, e); WorkerMarks(s, w, e);
    forall j | j in s.db.jobs
      ensures j in NextWorker(s, w, e).db.jobs
      ensures NextWorker(s, w, e).db.jobs[j].maxAttempts == s.db.jobs[j].maxAttempts
      ensures NextWorker(s, w, e).db.jobs[j].attempts ==
                s.db.jobs[j].attempts + if WorkerMark(s, w, e) == Some(Started(j)) then 1 else 0
    {
      WorkerAttempts(s, w, e, j);
    }
  }

  function RedriveMark(s: State, q: Pid, e: RedriveEvent): Option<Mark> {
    if q in s.redrives && s.redrives[q].Reset? && e.JobReset? && Resettable(s.db.jobs, s.redrives[q].msg.jobId)
    then Some(WasReset(s.redrives[q].msg.jobId)) else None
  }

  lemma RedriveCounts(s: State, q: Pid, e: RedriveEvent)
    requires Copies(s) && SentJobs(s) && Sends(s)
    ensures CountsMark(s, NextRedrive(s, q, e), RedriveMark(s, q, e))
  {
    if q in s.redrives { assert s.redrives[q].msg.jobId in s.api.sends && s.redrives[q].msg.jobId in s.db.jobs; }
  }

  lemma WorkerKeepsCount(s: State, w: Pid, e: WorkerEvent)
    requires WorkInv(s) && CountInv(s)
    ensures CountInv(NextWorker(s, w, e))
  {
    WorkerCounts(s, w, e);
    MarkKeepsCount(s, NextWorker(s, w, e), WorkerMark(s, w, e));
  }

  lemma RedriveKeepsCount(s: State, q: Pid, e: RedriveEvent)
    requires WorkInv(s) && CountInv(s)
    ensures CountInv(NextRedrive(s, q, e))
  {
    RedriveCounts(s, q, e);
    MarkKeepsCount(s, NextRedrive(s, q, e), RedriveMark(s, q, e));
  }

  lemma NextKeepsCount(s: State, e: Event)
    requires WorkInv(s) && CountInv(s)
    ensures CountInv(Next(s, e))
  {
    match e
    case OfIngest(p, ie) => IngestKeepsCount(s, p, ie);
    case OfWorker(w, we) => WorkerKeepsCount(s, w, we);
    case OfRedrive(q, re) => RedriveKeepsCount(s, q, re);
    case LockLapsed(h) =>
    case DeadLettered(m) =>
  }

  lemma {:induction false} RunKeepsCount(s: State, es: seq<Event>)
    requires WorkInv(s) && CountInv(s)
    ensures WorkInv(Run(s, es)) && CountInv(Run(s, es))
    decreases |es|
  {
    if es != [] {
      NextKeepsWorkInv(s, es[0]);
      NextKeepsCount(s, es[0]);
      RunKeepsCount(Next(s, es[0]), es[1..]);
    }
  }

  lemma AttemptsCountStarts(es: seq<Event>, j: Id)
    requires j in Run(INIT, es).db.jobs
    ensures Run(INIT, es).db.jobs[j].attempts == StartsSinceReset(Run(INIT, es).marks, j)
  {
    RunKeepsCount(INIT, es);
  }

  // ---------------------------------------------------------------- failed or dead

  predicate FairVerdict(job: Job) {
    && (job.status == Dead ==> job.attempts >= job.maxAttempts)
    && (job.status == Failed ==> job.attempts < job.maxAttempts)
  }

  lemma UnsentUnstarted(s: State, j: Id)
    requires CountInv(s) && j in s.db.jobs && j !in s.api.sends
    ensures s.db.jobs[j].attempts == 0
  {
    NoStarts(s.marks, j);
  }

  lemma IngestVerdicts(s: State, p: Pid, e: IngestEvent, j: Id)
    requires Handlers(s) && j in NextIngest(s, p, e).db.jobs
    ensures var row := NextIngest(s, p, e).db.jobs[j];
            if j !in s.db.jobs then row.status == Queued
            else row == s.db.jobs[j]
                 || (j !in s.api.sends && row.attempts == s.db.jobs[j].attempts
                     && row.maxAttempts == s.db.jobs[j].maxAttempts && row.status == Failed)
  {
  }

  ghost predicate FairJob(db: Tables, j: Id) { j in db.jobs ==> FairVerdict(db.jobs[j]) }

  /** mark_failed writes a verdict that no longer fits the counter it was read from. */
  predicate StaleWrite(s: State, e: Event, j: Id) {
    && e.OfWorker? && e.w in s.workers && s.workers[e.w].FailWrite? && e.worker.FailureWritten?
    && s.workers[e.w].msg.jobId == j && j in s.db.jobs && s.workers[e.w].verdict != FailureVerdict(s.db.jobs[j])
  }

  predicate NoStaleWrite(s: State, es: seq<Event>, j: Id)
    decreases |es|
  {
    es == [] || (!StaleWrite(s, es[0], j) && NoStaleWrite(Next(s, es[0]), es[1..], j))
  }

  ghost predicate AlwaysFair(s: State, es: seq<Event>, j: Id)
    decreases |es|
  {
    FairJob(s.db, j) && (es != [] ==> AlwaysFair(Next(s, es[0]), es[1..], j))
  }

  lemma WorkerFairIff(s: State, w: Pid, e: WorkerEvent, j: Id)
    requires Verdicts(s) && FairJob(s.db, j)
    ensures FairJob(NextWorker(s, w, e).db, j) <==> !StaleWrite(s, OfWorker(w, e), j)
  {
  }

  lemma IngestStaysFair(s: State, p: Pid, e: IngestEvent, j: Id)
    requires Handlers(s) && CountInv(s) && FairJob(s.db, j)
    ensures FairJob(NextIngest(s, p, e).db, j)
  {
    if j in NextIngest(s, p, e).db.jobs {
      IngestVerdicts(s, p, e, j);
      if j in s.db.jobs && j !in s.api.sends { UnsentUnstarted(s, j); }
    }
  }

  lemma RedriveStaysFair(s: State, q: Pid, e: RedriveEvent, j: Id)
    requires FairJob(s.db, j)
    ensures FairJob(NextRedrive(s, q, e).db, j)
  {
  }

  lemma FairStep(s: State, e: Event, j: Id)
    requires WorkInv(s) && CountInv(s) && FairJob(s.db, j)
    ensures FairJob(Next(s, e).db, j) <==> !StaleWrite(s, e, j)
  {
    match e
    case OfIngest(p, ie) => IngestStaysFair(s, p, ie, j);
    case OfWorker(w, we) => WorkerFairIff(s, w, we, j);
    case OfRedrive(q, re) => RedriveStaysFair(s, q, re, j);
    case LockLapsed(h) =>
    case DeadLettered(m) =>
  }

  lemma {:induction false} RunIsFairIff(s: State, es: seq<Event>, j: Id)
    requires WorkInv(s) && CountInv(s) && FairJob(s.db, j)
    ensures AlwaysFair(s, es, j) <==> NoStaleWrite(s, es, j)
    decreases |es|
  {
    if es != [] {
      FairStep(s, es[0], j);
      if !StaleWrite(s, es[0], j) {
        NextKeepsWorkInv(s, es[0]);
        NextKeepsCount(s, es[0]);
        RunIsFairIff(Next(s, es[0]), es[1..], j);
      }
    }
  }

  /** In every run: dead always means exhausted and failed means not, if and only if no verdict was written stale. */
  lemma AlwaysFairIff(es: seq<Event>, j: Id)
    ensures AlwaysFair(INIT, es, j) <==> NoStaleWrite(INIT, es, j)
  {
    RunIsFairIff(INIT, es, j);
  }

  // ---------------------------------------------------------------- a stale verdict happens

  function Starting(w: Pid): seq<Event> {
    [OfWorker(w, Receive(2)), OfWorker(w, StatusRead), OfWorker(w, DecisionChecked), OfWorker(w, AttemptStarted)]
  }

  function Judging(w: Pid): seq<Event> { [OfWorker(w, Raised), OfWorker(w, AttemptsRead)] }

  /** A worker takes the message of job 1 from the queue and starts an attempt. */
  lemma AfterStarting(s: State, w: Pid) returns (t: State)
    requires w !in s.workers && s.db.decisions == [] && 1 in s.db.jobs && s.db.jobs[1].status != Succeeded
    requires 2 in s.queues.main && s.queues.main[2].jobId == 1 && s.queues.main[2].receives < MAX_RECEIVES
    ensures t == Run(s, Starting(w)) && t.db == StartAttempt(s.db, 1)
    ensures var msg := s.queues.main[2].(receives := s.queues.main[2].receives + 1);
            t.queues.main == s.queues.main[2 := msg] && t.workers == s.workers[w := Compute(2, msg)]
  {
    var es, msg := Starting(w), s.queues.main[2].(receives := s.queues.main[2].receives + 1);
    RunFour(s, es[0], es[1], es[2], es[3]);
    var s1 := Next(s, es[0]);
    assert s1.workers == s.workers[w := ReadStatus(2, msg)] && s1.db == s.db;
    var s2 := Next(s1, es[1]);
    assert s2.workers == s.workers[w := CheckDecision(2, msg)] && s2.db == s.db;
    var s3 := Next(s2, es[2]);
    assert s3.workers == s.workers[w := Begin(2, msg)] && s3.db == s.db;
    t := Next(s3, es[3]);
  }

  /** A worker that computes for job 1 raises and reads the counter. */
  lemma AfterJudging(s: State, w: Pid, msg: Msg) returns (t: State)
    requires w in s.workers && s.workers[w] == Compute(2, msg) && msg.jobId == 1 && 1 in s.db.jobs
    ensures t == Run(s, Judging(w)) && t.db == s.db && t.queues == s.queues
    ensures t.workers == s.workers[w := FailWrite(2, msg, OtherFailure, FailureVerdict(s.db.jobs[1]))]
  {
    var es := Judging(w);
    var s1 := Next(s, es[0]);
    assert s1.workers == s.workers[w := FailRead(2, msg, OtherFailure)];
    t := Next(s1, es[1]);
    assert es[1..] == [es[1]] && Run(s1, es[1..]) == Run(t, []);
  }

  /** Job 1 stands at its n-th attempt. */
  predicate Attempting(s: State, n: nat) {
    1 in s.db.jobs && s.db.jobs[1] == Job(0, "h", Processing, n, 3, None) && s.db.decisions == []
  }

  lemma AfterFirstFails(s: State) returns (t: State)
    requires s.db.jobs == map[1 := Job(0, "h", Queued, 0, 3, None)] && s.db.decisions == []
    requires s.queues.main == map[2 := MESSAGE] && s.workers == map[]
    ensures t == Run(Run(s, Starting(1)), Judging(1)) && Attempting(t, 1)
    ensures t.queues.main == map[2 := MESSAGE.(receives := 1)]
    ensures t.workers == map[1 := FailWrite(2, MESSAGE.(receives := 1), OtherFailure, Failed)]
  {
    var u := AfterStarting(s, 1);
    t := AfterJudging(u, 1, MESSAGE.(receives := 1));
  }

  lemma AfterAnotherStart(s: State, w: Pid, n: nat, msg: Msg, judged: Worker) returns (t: State)
    requires Attempting(s, n) && w !in s.workers && 1 in s.workers && s.workers[1] == judged
    requires s.queues.main == map[2 := msg] && msg.jobId == 1 && msg.receives < MAX_RECEIVES
    ensures t == Run(s, Starting(w)) && Attempting(t, n + 1)
    ensures t.queues.main == map[2 := msg.(receives := msg.receives + 1)]
    ensures t.workers.Keys == s.workers.Keys + {w} && t.workers[1] == judged
  {
    t := AfterStarting(s, w);
  }

  lemma AfterTwoMore(s: State, w: Pid, x: Pid, judged: Worker) returns (t: State)
    requires Attempting(s, 1) && s.workers == map[1 := judged] && w != x && w != 1 && x != 1
    requires s.queues.main == map[2 := MESSAGE.(receives := 1)]
    ensures t == Run(Run(s, Starting(w)), Starting(x)) && Attempting(t, 3)
    ensures 1 in t.workers && t.workers[1] == judged
  {
    var u := AfterAnotherStart(s, w, 1, MESSAGE.(receives := 1), judged);
    t := AfterAnotherStart(u, x, 2, MESSAGE.(receives := 2), judged);
  }

  lemma AfterStaleWrite(s: State, msg: Msg) returns (t: State)
    requires Attempting(s, 3) && 1 in s.workers && s.workers[1] == FailWrite(2, msg, OtherFailure, Failed)
    requires msg.jobId == 1
    ensures t == Run(s, [OfWorker(1, FailureWritten)])
    ensures 1 in t.db.jobs && t.db.jobs[1] == Job(0, "h", Failed, 3, 3, Some(OtherFailure))
  {
    var e := OfWorker(1, FailureWritten);
    t := Next(s, e);
    assert [e][1..] == [] && Run(s, [e]) == Run(t, []);
  }

  lemma {:induction false} FairAtTheEnd(s: State, es: seq<Event>, j: Id)
    requires AlwaysFair(s, es, j)
    ensures FairJob(Run(s, es).db, j)
    decreases |es|
  {
    if es != [] { FairAtTheEnd(Next(s, es[0]), es[1..], j); }
  }

  /**
   One upload, delivered three times. Worker 1 starts, fails and reads the counter at one; two more attempts start;
   worker 1 writes "failed" while the counter is used up. Neither side of AlwaysFairIff holds of this run.
   */
  lemma StaleVerdictHappens() returns (es: seq<Event>)
    ensures var s := Run(INIT, es);
            1 in s.db.jobs && s.db.jobs[1] == Job(0, "h", Failed, 3, 3, Some(OtherFailure))
    ensures !AlwaysFair(INIT, es, 1) && !NoStaleWrite(INIT, es, 1)
  {
    var uploaded := AfterUpload();
    var judged := AfterFirstFails(uploaded);
    var three := AfterTwoMore(judged, 2, 3, judged.workers[1]);
    var last := AfterStaleWrite(three, MESSAGE.(receives := 1));
    var first, more := UPLOAD + Starting(1) + Judging(1), Starting(2) + Starting(3) + [OfWorker(1, FailureWritten)];
    RunSplits(INIT, UPLOAD + Starting(1), Judging(1));
    RunSplits(INIT, UPLOAD, Starting(1));
    RunSplits(judged, Starting(2) + Starting(3), [OfWorker(1, FailureWritten)]);
    RunSplits(judged, Starting(2), Starting(3));
    es := first + more;
    RunSplits(INIT, first, more);
    if AlwaysFair(INIT, es, 1) { FairAtTheEnd(INIT, es, 1); }
    AlwaysFairIff(es, 1);
  }

  // ---------------------------------------------------------------- handlers that do not overlap

  /** No two workers, and no worker and redrive, hold the same job. */
  ghost predicate OneHandlerPerJob(s: State) {
    && OneWorkerPerJob(s)
    && forall w, q | w in s.workers && q in s.redrives :: s.workers[w].msg.jobId != s.redrives[q].msg.jobId
  }

  ghost predicate HandlersNeverOverlap(s: State, es: seq<Event>)
    decreases |es|
  {
    OneHandlerPerJob(s) && (es != [] ==> HandlersNeverOverlap(Next(s, es[0]), es[1..]))
  }

  ghost predicate FairJobs(db: Tables) { forall j | j in db.jobs :: FairVerdict(db.jobs[j]) }

  /** A verdict about to be written still fits the counter. */
  ghost predicate FairWrites(s: State) {
    forall w | w in s.workers && s.workers[w].FailWrite? && s.workers[w].msg.jobId in s.db.jobs ::
      s.workers[w].verdict == FailureVerdict(s.db.jobs[s.workers[w].msg.jobId])
  }

  ghost predicate FairInv(s: State) { FairJobs(s.db) && FairWrites(s) }

  lemma IngestKeepsFair(s: State, p: Pid, e: IngestEvent)
    requires Handlers(s) && Copies(s) && SentJobs(s) && Sends(s) && CountInv(s) && FairInv(s)
    ensures FairInv(NextIngest(s, p, e))
  {
    var t := NextIngest(s, p, e);
    IngestFrame(s, p, e);
    forall j | j in t.db.jobs ensures FairVerdict(t.db.jobs[j]) {
      IngestVerdicts(s, p, e, j);
      if j in s.db.jobs && j !in s.api.sends { UnsentUnstarted(s, j); }
    }
    forall w | w in t.workers && t.workers[w].FailWrite? && t.workers[w].msg.jobId in t.db.jobs
      ensures t.workers[w].verdict == FailureVerdict(t.db.jobs[t.workers[w].msg.jobId])
    {
      IngestVerdicts(s, p, e, t.workers[w].msg.jobId);
    }
  }

  lemma WorkerWritesFair(s: State, w: Pid, e: WorkerEvent)
    requires FairInv(s)
    ensures FairJobs(NextWorker(s, w, e).db)
  {
  }

  lemma WorkerJudgesFair(s: State, w: Pid, e: WorkerEvent)
    requires FairInv(s)
    ensures var t := NextWorker(s, w, e);
            w in t.workers && t.workers[w].FailWrite? && t.workers[w].msg.jobId in t.db.jobs ==>
              t.workers[w].verdict == FailureVerdict(t.db.jobs[t.workers[w].msg.jobId])
  {
  }

  lemma WorkerKeepsFair(s: State, w: Pid, e: WorkerEvent)
    requires TrackInv(s) && Sends(s) && FairInv(s) && OneWorkerPerJob(s)
    ensures FairInv(NextWorker(s, w, e))
  {
    var t := NextWorker(s, w, e);
    WorkerWritesFair(s, w, e); WorkerJudgesFair(s, w, e);
    WorkerFrame(s, w, e); OtherWorkers(s, t, w); WorkerRows(s, w, e);
    forall x | x in t.workers && t.workers[x].FailWrite? && t.workers[x].msg.jobId in t.db.jobs
      ensures t.workers[x].verdict == FailureVerdict(t.db.jobs[t.workers[x].msg.jobId])
    {
      if x != w { assert t.workers[x].msg.jobId in s.db.jobs; }
    }
  }

  lemma RedriveKeepsFair(s: State, q: Pid, e: RedriveEvent)
    requires FairInv(s) && Limits(s) && OneHandlerPerJob(s)
    ensures FairInv(NextRedrive(s, q, e))
  {
    var t := NextRedrive(s, q, e);
    RedriveFrame(s, q, e); RedriveRows(s, q, e);
    assert t.db.jobs.Keys == s.db.jobs.Keys;
  }

  lemma NextKeepsFair(s: State, e: Event)
    requires WorkInv(s) && CountInv(s) && FairInv(s) && OneHandlerPerJob(s)
    ensures FairInv(Next(s, e))
  {
    match e
    case OfIngest(p, ie) => IngestKeepsFair(s, p, ie);
    case OfWorker(w, we) => WorkerKeepsFair(s, w, we);
    case OfRedrive(q, re) => RedriveKeepsFair(s, q, re);
    case LockLapsed(h) =>
    case DeadLettered(m) =>
  }

  lemma {:induction false} RunKeepsFair(s: State, es: seq<Event>)
    requires WorkInv(s) && CountInv(s) && FairInv(s) && HandlersNeverOverlap(s, es)
    ensures FairInv(Run(s, es))
    decreases |es|
  {
    if es != [] {
      NextKeepsFair(s, es[0]);
      NextKeepsWorkInv(s, es[0]);
      NextKeepsCount(s, es[0]);
      RunKeepsFair(Next(s, es[0]), es[1..]);
    }
  }

  /** Dead means the attempts are used up; failed means some are left. */
  lemma DeadMeansExhausted(es: seq<Event>, j: Id)
    requires HandlersNeverOverlap(INIT, es) && j in Run(INIT, es).db.jobs
    ensures var job := Run(INIT, es).db.jobs[j];
            && (job.status == Dead ==> job.attempts >= job.maxAttempts)
            && (job.status == Failed ==> job.attempts < job.maxAttempts)
  {
    RunKeepsFair(INIT, es);
  }
}
