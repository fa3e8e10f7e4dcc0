/**
 What the jobs table can be trusted for. The worker writes "processing", "failed" and
 "dead" without looking at the decisions, so a decided job can be left at "processing"
 for good (OverlapStrandsStatus). "Succeeded" means "decided" exactly as long as no such
 write hits a decided job (SucceededExactIff); once it has, nothing repairs the status.
 When no two workers hold the same job at once (duplicates, crashes, redeliveries and
 redrives allowed), no such write happens.
 */
module JobStatusSoundness {
  import opened Domain
  import opened JobMachine
  import opened IdempotentIngest
  import opened NoLostWork
  import ExactlyOnce

  // ---------------------------------------------------------------- the exact condition

  /** The status column tells whether j is decided. */
  ghost predicate Exact(db: Tables, j: Id) {
    j in db.jobs ==> (db.jobs[j].status == Succeeded <==> Decided(db, j))
  }

  /** An unguarded status write of a worker of j, with j already decided. */
  predicate BlindWrite(s: State, e: Event, j: Id) {
    && Decided(s.db, j) && e.OfWorker? && e.w in s.workers && s.workers[e.w].msg.jobId == j
    && ((s.workers[e.w].Begin? && e.worker.AttemptStarted?) || (s.workers[e.w].FailWrite? && e.worker.FailureWritten?))
  }

  predicate NoBlindWrite(s: State, es: seq<Event>, j: Id)
    decreases |es|
  {
    es == [] || (!BlindWrite(s, es[0], j) && NoBlindWrite(Next(s, es[0]), es[1..], j))
  }

  lemma IngestDecidedRow(s: State, p: Pid, e: IngestEvent, j: Id)
    requires Handlers(s) && j in s.db.jobs && j in s.api.sends
    ensures var t := NextIngest(s, p, e); j in t.db.jobs && t.db.jobs[j] == s.db.jobs[j]
  {
  }

  lemma WorkerDecidedRow(s: State, w: Pid, e: WorkerEvent, j: Id)
    requires j in s.db.jobs && Decided(s.db, j) && Verdicts(s)
    ensures var t := NextWorker(s, w, e);
            && j in t.db.jobs
            && (t.db.jobs[j].status == Succeeded <==>
                  s.db.jobs[j].status == Succeeded && !BlindWrite(s, OfWorker(w, e), j))
  {
    if BlindWrite(s, OfWorker(w, e), j) { assert NextWorker(s, w, e).db.jobs[j].status != Succeeded; }
  }

  lemma RedriveDecidedRow(s: State, q: Pid, e: RedriveEvent, j: Id)
    requires j in s.db.jobs
    ensures var t := NextRedrive(s, q, e);
            j in t.db.jobs && (t.db.jobs[j].status == Succeeded <==> s.db.jobs[j].status == Succeeded)
  {
  }

  /** What a step makes of the status of a job that is already decided. */
  lemma DecidedRow(s: State, e: Event, j: Id)
    requires WorkInv(s) && Decided(s.db, j)
    ensures var t := Next(s, e);
            && j in s.db.jobs && j in t.db.jobs && Decided(t.db, j)
            && (t.db.jobs[j].status == Succeeded <==> s.db.jobs[j].status == Succeeded && !BlindWrite(s, e, j))
  {
    DecidedOnlySent(s, j);
    NextAppends(s, e);
    DecidedStays(s.db, Next(s, e).db);
    match e
    case OfIngest(p, ie) => IngestDecidedRow(s, p, ie, j);
    case OfWorker(w, we) => WorkerDecidedRow(s, w, we, j);
    case OfRedrive(q, re) => RedriveDecidedRow(s, q, re, j);
    case LockLapsed(h) =>
    case DeadLettered(m) =>
  }

  lemma StoringSucceeds(db: Tables, d: DecisionRow, j: Id)
    requires !Decided(db, j) && Decided(StoreDecision(db, d), j) && j in StoreDecision(db, d).jobs
    ensures StoreDecision(db, d).jobs[j].status == Succeeded
  {
    StoreDecides(db, d, j);
  }

  lemma WorkerDeciding(s: State, w: Pid, e: WorkerEvent, j: Id)
    requires !Decided(s.db, j) && Decided(NextWorker(s, w, e).db, j) && j in NextWorker(s, w, e).db.jobs
    ensures NextWorker(s, w, e).db.jobs[j].status == Succeeded
  {
    if Stores(s, w, e) {
      StoringSucceeds(s.db, DecisionRow(s.nextId, s.workers[w].envelope), j);
    } else {
      QuietWorkerDecides(s, w, e);
      SameDecisions(s.db, NextWorker(s, w, e).db);
    }
  }

  /** The event that decides a job marks it succeeded. */
  lemma DecidingSucceeds(s: State, e: Event, j: Id)
    requires SentBefore(s) && !Decided(s.db, j) && Decided(Next(s, e).db, j) && j in Next(s, e).db.jobs
    ensures Next(s, e).db.jobs[j].status == Succeeded
  {
    match e
    case OfIngest(p, ie) => IngestFrame(s, p, ie); SameDecisions(s.db, NextIngest(s, p, ie).db);
    case OfWorker(w, we) => WorkerDeciding(s, w, we, j);
    case OfRedrive(q, re) => RedriveFrame(s, q, re); SameDecisions(s.db, NextRedrive(s, q, re).db);
    case LockLapsed(h) =>
    case DeadLettered(m) =>
  }

  /** Exactness is lost by a blind write and by nothing else, and never regained. */
  lemma ExactnessStep(s: State, e: Event, j: Id)
    requires WorkInv(s)
    ensures Exact(Next(s, e).db, j) <==> Exact(s.db, j) && !BlindWrite(s, e, j)
  {
    NextKeepsWorkInv(s, e);
    if Decided(s.db, j) {
      DecidedRow(s, e, j);
    } else if j in Next(s, e).db.jobs && Decided(Next(s, e).db, j) {
      DecidingSucceeds(s, e, j);
    }
  }

  lemma {:induction false} RunIsExactIff(s: State, es: seq<Event>, j: Id)
    requires WorkInv(s)
    ensures Exact(Run(s, es).db, j) <==> Exact(s.db, j) && NoBlindWrite(s, es, j)
    decreases |es|
  {
    if es != [] {
      ExactnessStep(s, es[0], j);
      NextKeepsWorkInv(s, es[0]);
      RunIsExactIff(Next(s, es[0]), es[1..], j);
    }
  }

  /** In every run: "succeeded" is exactly "has a decision" if and only if no blind write happened. */
  lemma SucceededExactIff(es: seq<Event>, j: Id)
    requires j in Run(INIT, es).db.jobs
    ensures (Run(INIT, es).db.jobs[j].status == Succeeded <==> Decided(Run(INIT, es).db, j))
            <==> NoBlindWrite(INIT, es, j)
  {
    RunIsExactIff(INIT, es, j);
  }

  /** And a job once succeeded is still succeeded if and only if no blind write has happened since. */
  lemma SucceededStaysIff(first: seq<Event>, more: seq<Event>, j: Id)
    requires j in Run(INIT, first).db.jobs && Run(INIT, first).db.jobs[j].status == Succeeded
    ensures var s := Run(INIT, first + more);
            && j in s.db.jobs
            && (s.db.jobs[j].status == Succeeded <==> NoBlindWrite(Run(INIT, first), more, j))
  {
    ExactlyOnce.RunSplits(INIT, first, more);
    RunKeepsWorkInv(INIT, first);
    RunKeepsDecided(Run(INIT, first), more, j);
    RunIsExactIff(Run(INIT, first), more, j);
  }

  // ---------------------------------------------------------------- overlap-free runs

  ghost predicate OneWorkerPerJob(s: State) {
    forall w, x | w in s.workers && x in s.workers && w != x ::
      s.workers[w].msg.jobId != s.workers[x].msg.jobId
  }

  ghost predicate WorkersNeverOverlap(s: State, es: seq<Event>)
    decreases |es|
  {
    OneWorkerPerJob(s) && (es != [] ==> WorkersNeverOverlap(Next(s, es[0]), es[1..]))
  }

  // ---------------------------------------------------------------- succeeded iff decided

  /** Past the status check and before the acknowledgement. */
  predicate InFlight(pc: Worker) { !pc.ReadStatus? && !pc.Ack? }

  ghost predicate DecidedSucceeded(db: Tables) {
    forall j | j in db.jobs && Decided(db, j) :: db.jobs[j].status == Succeeded
  }

  ghost predicate InFlightUndecided(s: State) {
    forall w | w in s.workers && InFlight(s.workers[w]) :: !Decided(s.db, s.workers[w].msg.jobId)
  }

  ghost predicate StatusInv(s: State) { DecidedSucceeded(s.db) && InFlightUndecided(s) }

  lemma DecidedOnlySent(s: State, j: Id)
    requires SentJobs(s) && Sends(s) && Decided(s.db, j)
    ensures j in s.api.sends && j in s.db.jobs
  {
  }

  lemma SameDecisions(a: Tables, b: Tables)
    requires a.decisions == b.decisions
    ensures forall j: Id :: Decided(a, j) <==> Decided(b, j)
  {
  }

  lemma IngestKeepsStatus(s: State, p: Pid, e: IngestEvent)
    requires WorkInv(s) && StatusInv(s)
    ensures StatusInv(NextIngest(s, p, e))
  {
    var t := NextIngest(s, p, e);
    IngestFrame(s, p, e); SameDecisions(s.db, t.db);
    forall j | j in t.db.jobs && Decided(t.db, j) ensures t.db.jobs[j].status == Succeeded {
      DecidedOnlySent(s, j);
      IngestDecidedRow(s, p, e, j);
    }
  }

  lemma RedriveKeepsStatus(s: State, q: Pid, e: RedriveEvent)
    requires StatusInv(s)
    ensures StatusInv(NextRedrive(s, q, e))
  {
    RedriveFrame(s, q, e); SameDecisions(s.db, NextRedrive(s, q, e).db);
  }

  lemma StoreDecides(db: Tables, d: DecisionRow, j: Id)
    ensures Decided(StoreDecision(db, d), j) <==> Decided(db, j) || j == d.envelope.jobId
  {
    var after := StoreDecision(db, d);
    assert after.decisions == db.decisions + [d];
    if Decided(db, j) {
      var i :| 0 <= i < |db.decisions| && db.decisions[i].envelope.jobId == j;
      assert after.decisions[i].envelope.jobId == j;
    }
    if j == d.envelope.jobId { assert after.decisions[|db.decisions|].envelope.jobId == j; }
  }

  /** The one worker event that decides a job. */
  predicate Stores(s: State, w: Pid, e: WorkerEvent) {
    w in s.workers && e.Persisted? && s.workers[w].Persist? && !Decided(s.db, s.workers[w].envelope.jobId)
  }

  lemma StoringKeepsStatus(s: State, w: Pid, e: WorkerEvent)
    requires OneWorkerPerJob(s) && SentJobs(s) && StatusInv(s) && Stores(s, w, e)
    ensures StatusInv(NextWorker(s, w, e))
  {
    var t := NextWorker(s, w, e);
    var env := s.workers[w].envelope;
    assert t.db == StoreDecision(s.db, DecisionRow(s.nextId, env));
    assert t.workers == s.workers[w := Ack(s.workers[w].mid, s.workers[w].msg)];
    forall j | j in t.db.jobs && Decided(t.db, j) ensures t.db.jobs[j].status == Succeeded {
      StoreDecides(s.db, DecisionRow(s.nextId, env), j);
    }
    forall x | x in t.workers && InFlight(t.workers[x]) ensures !Decided(t.db, t.workers[x].msg.jobId) {
      StoreDecides(s.db, DecisionRow(s.nextId, env), t.workers[x].msg.jobId);
    }
  }

  lemma QuietWorkerDecides(s: State, w: Pid, e: WorkerEvent)
    requires !Stores(s, w, e)
    ensures NextWorker(s, w, e).db.decisions == s.db.decisions
  {
  }

  lemma WorkerStarts(s: State, w: Pid, e: WorkerEvent)
    requires StatusInv(s) && (w in s.workers ==> s.workers[w].msg.jobId in s.db.jobs)
    ensures var t := NextWorker(s, w, e);
            w in t.workers && InFlight(t.workers[w]) ==>
              w in s.workers && !Decided(s.db, t.workers[w].msg.jobId)
  {
  }

  lemma QuietWorkerKeepsStatus(s: State, w: Pid, e: WorkerEvent)
    requires Copies(s) && SentJobs(s) && Sends(s) && StatusInv(s) && !Stores(s, w, e)
    ensures StatusInv(NextWorker(s, w, e))
  {
    var t := NextWorker(s, w, e);
    WorkerStarts(s, w, e); QuietWorkerDecides(s, w, e); SameDecisions(s.db, t.db);
    WorkerFrame(s, w, e); OtherWorkers(s, t, w);
    forall j | j in t.db.jobs && Decided(t.db, j) ensures t.db.jobs[j].status == Succeeded {
      DecidedOnlySent(s, j);
      DecidedRowKept(s, w, e, j);
    }
  }

  lemma DecidedRowKept(s: State, w: Pid, e: WorkerEvent, j: Id)
    requires StatusInv(s) && !Stores(s, w, e) && j in s.db.jobs && Decided(s.db, j)
    ensures j in NextWorker(s, w, e).db.jobs && NextWorker(s, w, e).db.jobs[j] == s.db.jobs[j]
  {
  }

  lemma NextKeepsStatus(s: State, e: Event)
    requires WorkInv(s) && OneWorkerPerJob(s) && StatusInv(s)
    ensures StatusInv(Next(s, e))
  {
    match e
    case OfIngest(p, ie) => IngestKeepsStatus(s, p, ie);
    case OfWorker(w, we) =>
      if Stores(s, w, we) { StoringKeepsStatus(s, w, we); } else { QuietWorkerKeepsStatus(s, w, we); }
    case OfRedrive(q, re) => RedriveKeepsStatus(s, q, re);
    case LockLapsed(h) =>
    case DeadLettered(m) =>
  }

  lemma {:induction false} RunKeepsStatus(s: State, es: seq<Event>)
    requires WorkInv(s) && StatusInv(s) && WorkersNeverOverlap(s, es)
    ensures WorkInv(Run(s, es)) && StatusInv(Run(s, es))
    decreases |es|
  {
    if es != [] {
      NextKeepsStatus(s, es[0]);
      NextKeepsWorkInv(s, es[0]);
      RunKeepsStatus(Next(s, es[0]), es[1..]);
    }
  }

  /** Workers that never overlap on a job never write blindly. */
  lemma {:induction false} OverlapFreeSees(s: State, es: seq<Event>, j: Id)
    requires WorkInv(s) && StatusInv(s) && WorkersNeverOverlap(s, es)
    ensures NoBlindWrite(s, es, j)
    decreases |es|
  {
    if es != [] {
      NextKeepsStatus(s, es[0]);
      NextKeepsWorkInv(s, es[0]);
      OverlapFreeSees(Next(s, es[0]), es[1..], j);
    }
  }

  /** Without overlapping workers, "succeeded" is exactly "has a decision". */
  lemma SucceededIffDecided(es: seq<Event>, j: Id)
    requires WorkersNeverOverlap(INIT, es) && j in Run(INIT, es).db.jobs
    ensures Run(INIT, es).db.jobs[j].status == Succeeded <==> Decided(Run(INIT, es).db, j)
  {
    OverlapFreeSees(INIT, es, j);
    SucceededExactIff(es, j);
  }

  lemma {:induction false} OverlapFreePrefix(s: State, first: seq<Event>, more: seq<Event>)
    requires WorkersNeverOverlap(s, first + more)
    ensures WorkersNeverOverlap(s, first) && WorkersNeverOverlap(Run(s, first), more)
    ensures Run(s, first + more) == Run(Run(s, first), more)
    decreases |first|
  {
    if first == [] {
      assert first + more == more;
    } else {
      assert (first + more)[1..] == first[1..] + more;
      OverlapFreePrefix(Next(s, first[0]), first[1..], more);
    }
  }

  lemma NextAppends(s: State, e: Event)
    requires SentBefore(s)
    ensures Appends(s.db, Next(s, e).db)
  {
    match e
    case OfIngest(p, ie) => IngestFrame(s, p, ie);
    case OfWorker(w, we) => WorkerFrame(s, w, we);
    case OfRedrive(q, re) => RedriveFrame(s, q, re);
    case LockLapsed(h) =>
    case DeadLettered(m) =>
  }

  lemma {:induction false} RunKeepsDecided(s: State, es: seq<Event>, j: Id)
    requires WorkInv(s) && Decided(s.db, j)
    ensures Decided(Run(s, es).db, j) && j in Run(s, es).db.jobs
    decreases |es|
  {
    if es == [] {
      DecidedOnlySent(s, j);
    } else {
      NextAppends(s, es[0]);
      DecidedStays(s.db, Next(s, es[0]).db);
      NextKeepsWorkInv(s, es[0]);
      RunKeepsDecided(Next(s, es[0]), es[1..], j);
    }
  }

  /** Once succeeded, succeeded for ever. */
  lemma SucceededIsAbsorbing(first: seq<Event>, more: seq<Event>, j: Id)
    requires WorkersNeverOverlap(INIT, first + more)
    requires j in Run(INIT, first).db.jobs && Run(INIT, first).db.jobs[j].status == Succeeded
    ensures var s := Run(INIT, first + more); j in s.db.jobs && s.db.jobs[j].status == Succeeded
  {
    OverlapFreePrefix(INIT, first, more);
    RunKeepsStatus(INIT, first);
    OverlapFreeSees(Run(INIT, first), more, j);
    SucceededStaysIff(first, more, j);
  }

  // ---------------------------------------------------------------- overlap breaks it

  const SOME: Envelope := Envelope(1, 0, "h", ALLOW, 0.91, false, 7, "")
  const MESSAGE: Msg := Msg(1, 0, "h", 0)

  /** One upload whose message is delivered to two workers at once. */
  const UPLOAD: seq<Event> := [
    OfIngest(0, Arrive("h")), OfIngest(0, LookedUp(None)), OfIngest(0, LockTried),
    OfIngest(0, ObjectStored(true)), OfIngest(0, RowsCommitted(None)), OfIngest(0, MessageSent(true))]

  const BOTH_START: seq<Event> := [
    OfWorker(1, Receive(2)), OfWorker(2, Receive(2)), OfWorker(1, StatusRead),
    OfWorker(2, StatusRead), OfWorker(1, DecisionChecked), OfWorker(2, DecisionChecked)]

  function Finish(w: Pid): seq<Event> {
    [OfWorker(w, AttemptStarted), OfWorker(w, Computed(SOME)), OfWorker(w, Persisted(0)), OfWorker(w, Deleted)]
  }

  lemma {:induction false} RunFour(s: State, a: Event, b: Event, c: Event, d: Event)
    ensures Run(s, [a, b, c, d]) == Next(Next(Next(Next(s, a), b), c), d)
  {
    assert [a, b, c, d][1..] == [b, c, d] && [b, c, d][1..] == [c, d] && [c, d][1..] == [d] && [d][1..] == [];
    var t := Next(Next(s, a), b);
    assert Run(t, [c, d]) == Run(Next(t, c), [d]) == Run(Next(Next(t, c), d), []);
  }

  lemma {:induction false} RunSix(s: State, a: Event, b: Event, c: Event, d: Event, e: Event, f: Event)
    ensures Run(s, [a, b, c, d, e, f]) == Next(Next(Next(Next(Next(Next(s, a), b), c), d), e), f)
  {
    assert [a, b, c, d, e, f][1..] == [b, c, d, e, f] && [b, c, d, e, f][1..] == [c, d, e, f];
    RunFour(Next(Next(s, a), b), c, d, e, f);
  }

  /** The requests that hand out identifiers 0 and 1. */
  lemma AfterStore() returns (s: State)
    ensures s == Next(Next(Next(Next(INIT, UPLOAD[0]), UPLOAD[1]), UPLOAD[2]), UPLOAD[3])
    ensures s == INIT.(nextId := 2, api := INIT.api.(locks := {"h"}, ingests := map[0 := CommitRows("h", 0, 1)]))
  {
    var s2 := Next(Next(INIT, UPLOAD[0]), UPLOAD[1]);
    assert s2 == INIT.(api := INIT.api.(ingests := map[0 := TakeLock("h")]));
    s := Next(Next(s2, UPLOAD[2]), UPLOAD[3]);
  }

  lemma AfterUpload() returns (s: State)
    ensures s == Run(INIT, UPLOAD)
    ensures s.db.jobs == map[1 := Job(0, "h", Queued, 0, 3, None)] && s.db.decisions == []
    ensures s.queues.main == map[2 := MESSAGE] && s.queues.dlq == map[]
    ensures s.workers == map[] && s.api.ingests == map[] && s.redrives == map[]
  {
    RunSix(INIT, UPLOAD[0], UPLOAD[1], UPLOAD[2], UPLOAD[3], UPLOAD[4], UPLOAD[5]);
    var s4 := AfterStore();
    var s5 := Next(s4, UPLOAD[4]);
    s := Next(s5, UPLOAD[5]);
  }

  lemma AfterBothStart(s: State) returns (t: State)
    requires s.db.jobs == map[1 := Job(0, "h", Queued, 0, 3, None)] && s.db.decisions == []
    requires s.queues.main == map[2 := MESSAGE] && s.workers == map[]
    ensures t == Run(s, BOTH_START) && t.db == s.db && t.api == s.api && t.redrives == s.redrives
    ensures t.queues == s.queues.(main := map[2 := MESSAGE.(receives := 2)])
    ensures t.workers == map[1 := Begin(2, MESSAGE.(receives := 1)), 2 := Begin(2, MESSAGE.(receives := 2))]
  {
    RunSix(s, BOTH_START[0], BOTH_START[1], BOTH_START[2], BOTH_START[3], BOTH_START[4], BOTH_START[5]);
    var s1 := Next(s, BOTH_START[0]);
    var s2 := Next(s1, BOTH_START[1]);
    assert s2.workers == map[1 := ReadStatus(2, MESSAGE.(receives := 1)), 2 := ReadStatus(2, MESSAGE.(receives := 2))];
    var s3 := Next(s2, BOTH_START[2]);
    var s4 := Next(s3, BOTH_START[3]);
    assert s4.workers
           == map[1 := CheckDecision(2, MESSAGE.(receives := 1)), 2 := CheckDecision(2, MESSAGE.(receives := 2))];
    assert s4.db == s.db && s4.api == s.api;
    var s5 := Next(s4, BOTH_START[4]);
    t := Next(s5, BOTH_START[5]);
  }

  /** A worker past its decision check finishes: it marks the job processing whatever others did. */
  lemma AfterFinish(s: State, w: Pid, m: Id, msg: Msg) returns (t: State)
    requires w in s.workers && s.workers[w] == Begin(m, msg) && msg.jobId == 1 && msg.contentId == 0 && msg.hash == "h"
    requires 1 in s.db.jobs
    requires s.db.decisions == [] || IsDecisionOf(s.db, 1, 0)
    ensures t == Run(s, Finish(w)) && t.api == s.api && t.redrives == s.redrives
    ensures t.queues == s.queues.(main := s.queues.main - {m}) && t.workers == s.workers - {w}
    ensures 1 in t.db.jobs && IsDecisionOf(t.db, 1, 0)
    ensures t.db.jobs[1].status == if s.db.decisions == [] then Succeeded else Processing
  {
    var es := Finish(w);
    RunFour(s, es[0], es[1], es[2], es[3]);
    var s1 := Next(s, es[0]);
    assert s1.db.decisions == s.db.decisions && s1.db.jobs[1].status == Processing;
    assert s1.workers == s.workers[w := Compute(m, msg)];
    var s2 := Next(s1, es[1]);
    assert s2.db == s1.db && s2.workers == s.workers[w := Persist(m, msg, SOME)];
    assert Decided(s2.db, 1) <==> s.db.decisions != [];
    var s3 := Next(s2, es[2]);
    assert s3.workers == s.workers[w := Ack(m, msg)] && IsDecisionOf(s3.db, 1, 0);
    t := Next(s3, es[3]);
  }

  lemma RunInParts(s: State, a: seq<Event>, b: seq<Event>, c: seq<Event>, d: seq<Event>)
    ensures Run(s, a + b + c + d) == Run(Run(Run(Run(s, a), b), c), d)
  {
    ExactlyOnce.RunSplits(s, a + b + c, d);
    ExactlyOnce.RunSplits(s, a + b, c);
    ExactlyOnce.RunSplits(s, a, b);
  }

  lemma AfterBothFinish(s: State, w: Pid, x: Pid, a: Msg, b: Msg) returns (t: State)
    requires w != x && s.workers == map[w := Begin(2, a), x := Begin(2, b)] && s.db.decisions == []
    requires a.jobId == b.jobId == 1 && a.contentId == b.contentId == 0 && a.hash == b.hash == "h" && 1 in s.db.jobs
    ensures t == Run(Run(s, Finish(w)), Finish(x)) && t.api == s.api && t.redrives == s.redrives
    ensures t.queues == s.queues.(main := s.queues.main - {2}) && t.workers == map[]
    ensures 1 in t.db.jobs && t.db.jobs[1].status == Processing && Decided(t.db, 1)
  {
    var u := AfterFinish(s, w, 2, a);
    t := AfterFinish(u, x, 2, b);
  }

  lemma BothStrand(s: State) returns (t: State)
    requires s.db.jobs == map[1 := Job(0, "h", Queued, 0, 3, None)] && s.db.decisions == []
    requires s.queues.main == map[2 := MESSAGE] && s.workers == map[]
    ensures t == Run(Run(Run(s, BOTH_START), Finish(1)), Finish(2)) && t.api == s.api && t.redrives == s.redrives
    ensures t.queues.main == map[] && t.queues.dlq == s.queues.dlq && t.workers == map[]
    ensures 1 in t.db.jobs && t.db.jobs[1].status == Processing && Decided(t.db, 1)
  {
    var started := AfterBothStart(s);
    t := AfterBothFinish(started, 1, 2, MESSAGE.(receives := 1), MESSAGE.(receives := 2));
  }

  /**
   Upload, two overlapping workers, both finish. Nobody is at work, nothing is queued, the
   job is decided, and its status is "processing": no handler is left to correct it.
   */
  lemma OverlapStrandsStatus() returns (es: seq<Event>)
    ensures var s := Run(INIT, es);
            && s.queues.main == map[] && s.queues.dlq == map[]
            && s.workers == map[] && s.api.ingests == map[] && s.redrives == map[]
            && 1 in s.db.jobs && s.db.jobs[1].status == Processing && Decided(s.db, 1)
  {
    var uploaded := AfterUpload();
    var both := BothStrand(uploaded);
    RunInParts(INIT, UPLOAD, BOTH_START, Finish(1), Finish(2));
    es := UPLOAD + BOTH_START + Finish(1) + Finish(2);
  }
}
