/** What an upload is told, and how far the ingest lock keeps uploads of one hash apart. */
module IngestAnswers {
  import opened Domain
  import opened JobMachine
  import opened IdempotentIngest
  import opened NoLostWork
  import opened JobStatusSoundness

  // ---------------------------------------------------------------- the status in an answer

  /** A repeated upload is told what the jobs table says at that moment; a new one is told "queued". */
  predicate Told(db: Tables, r: Response) {
    if r.deduplicated
    then r.jobId in db.jobs && r.status == db.jobs[r.jobId].status
         && r.contentId == db.jobs[r.jobId].contentId && r.hash == db.jobs[r.jobId].hash
    else r.status == Queued
  }

  lemma IngestTells(s: State, p: Pid, e: IngestEvent)
    ensures var t := NextIngest(s, p, e);
            || t.api.responses == s.api.responses
            || (|t.api.responses| == |s.api.responses| + 1 && s.api.responses <= t.api.responses
                && t.db == s.db && Told(s.db, t.api.responses[|s.api.responses|]))
  {
  }

  /** Every step that answers an upload answers from the table it read. */
  lemma AnswersTell(s: State, e: Event)
    ensures var t := Next(s, e);
            || t.api.responses == s.api.responses
            || (|t.api.responses| == |s.api.responses| + 1 && s.api.responses <= t.api.responses
                && t.db == s.db && Told(s.db, t.api.responses[|s.api.responses|]))
  {
    match e
    case OfIngest(p, ie) => IngestTells(s, p, ie);
    case OfWorker(w, we) => WorkerFrame(s, w, we);
    case OfRedrive(q, re) => RedriveFrame(s, q, re);
    case LockLapsed(h) =>
    case DeadLettered(m) =>
  }

  lemma OnlyOnceNew(s: State, e: Event, j: Id)
    requires WorkInv(s) && j in s.db.jobs && s.db.jobs[j].status == Succeeded
    requires |Next(s, e).api.responses| > |s.api.responses|
    requires Next(s, e).api.responses[|s.api.responses|].jobId == j
    ensures Next(s, e).api.responses[|s.api.responses|].deduplicated
  {
    NextKeepsWorkInv(s, e);
    AnswersTell(s, e);
    DecidedOnlySent(s, j);
    if !Next(s, e).api.responses[|s.api.responses|].deduplicated { NewIsUnsent(s, e); }
  }

  lemma NewIsUnsent(s: State, e: Event)
    requires WorkInv(s) && |Next(s, e).api.responses| > |s.api.responses|
    requires !Next(s, e).api.responses[|s.api.responses|].deduplicated
    ensures Next(s, e).api.responses[|s.api.responses|].jobId !in s.api.sends
  {
    AnswersTell(s, e);
    if e.OfIngest? { NewIsSent(s, e.p, e.ingest); } else { AnswersTell(s, e); OthersDoNotAnswer(s, e); }
  }

  lemma OthersDoNotAnswer(s: State, e: Event)
    requires !e.OfIngest?
    ensures Next(s, e).api.responses == s.api.responses
  {
    match e
    case OfWorker(w, we) => WorkerFrame(s, w, we);
    case OfRedrive(q, re) => RedriveFrame(s, q, re);
    case LockLapsed(h) =>
    case DeadLettered(m) =>
  }

  lemma NewIsSent(s: State, p: Pid, e: IngestEvent)
    requires Handlers(s) && |NextIngest(s, p, e).api.responses| > |s.api.responses|
    requires !NextIngest(s, p, e).api.responses[|s.api.responses|].deduplicated
    ensures NextIngest(s, p, e).api.responses[|s.api.responses|].jobId !in s.api.sends
  {
  }

  /** In every run: an upload whose job has succeeded is told just that. */
  lemma RepeatIsToldSucceeded(es: seq<Event>, e: Event, j: Id)
    requires j in Run(INIT, es).db.jobs && Run(INIT, es).db.jobs[j].status == Succeeded
    requires var s, t := Run(INIT, es), Run(INIT, es + [e]);
             |t.api.responses| > |s.api.responses| && t.api.responses[|s.api.responses|].hash == s.db.jobs[j].hash
    ensures var s, t := Run(INIT, es), Run(INIT, es + [e]);
            t.api.responses[|s.api.responses|]
            == Response(j, s.db.jobs[j].contentId, s.db.jobs[j].hash, Succeeded, true)
  {
    var s := Run(INIT, es);
    ExactlyOnce.RunSplits(INIT, es, [e]);
    assert [e][1..] == [] && Run(s, [e]) == Run(Next(s, e), []);
    RunKeepsWorkInv(INIT, es);
    NextKeepsWorkInv(s, e);
    AnswersTell(s, e);
    var r := Next(s, e).api.responses[|s.api.responses|];
    AnswerNamesJob(Next(s, e), |s.api.responses|, j);
    OnlyOnceNew(s, e, j);
  }

  lemma AnswerNamesJob(t: State, i: nat, j: Id)
    requires IngestInv(t) && i < |t.api.responses| && j in t.db.jobs && t.api.responses[i].hash == t.db.jobs[j].hash
    ensures t.api.responses[i].jobId == j
  {
  }

  // ---------------------------------------------------------------- the lock

  /** Past the lock, with hash h. */
  predicate Past(pc: Ingest, h: string) { (pc.StoreObject? || HoldsIds(pc)) && pc.hash == h }

  /** Past the lock, with nothing written yet. */
  predicate Before(pc: Ingest, h: string) { (pc.StoreObject? || pc.CommitRows?) && pc.hash == h }

  ghost predicate Exclusive(s: State, h: string) {
    && (forall p, q | p in s.api.ingests && q in s.api.ingests
                      && Past(s.api.ingests[p], h) && Past(s.api.ingests[q], h) :: p == q)
    && (forall p | p in s.api.ingests && Past(s.api.ingests[p], h) :: h in s.api.locks)
    && (forall p | p in s.api.ingests && Before(s.api.ingests[p], h) :: !ContentExists(s.db, h) && !JobExists(s.db, h))
    && (h !in s.api.locks ==> !ContentExists(s.db, h) && !JobExists(s.db, h))
  }

  /** Rows of hash h appear only by the commit of a handler of h. */
  lemma RowsOf(s: State, p: Pid, e: IngestEvent, h: string)
    requires Handlers(s)
    ensures var t := NextIngest(s, p, e);
            || (&& p in s.api.ingests && p in t.api.ingests && s.api.ingests[p].CommitRows?
                && s.api.ingests[p].hash == h && t.api.ingests[p].SendMessage? && t.api.ingests[p].hash == h)
            || ((ContentExists(t.db, h) <==> ContentExists(s.db, h)) && (JobExists(t.db, h) <==> JobExists(s.db, h)))
  {
    var t := NextIngest(s, p, e);
    IngestWrites(s, p, e);
    if SameIdentity(s.db, t.db) {
      SameRows(s.db, t.db, h);
    } else {
      var pc := s.api.ingests[p];
      if pc.hash != h { CommitKeepsOthers(s.db, pc.contentId, pc.jobId, pc.hash, h); }
    }
  }

  lemma IngestWrites(s: State, p: Pid, e: IngestEvent)
    ensures var t := NextIngest(s, p, e);
            || SameIdentity(s.db, t.db)
            || (&& p in s.api.ingests && p in t.api.ingests && s.api.ingests[p].CommitRows?
                && t.api.ingests[p].SendMessage? && t.api.ingests[p].hash == s.api.ingests[p].hash
                && t.db == InsertContentAndJob(s.db, s.api.ingests[p].contentId, s.api.ingests[p].jobId,
                                               s.api.ingests[p].hash))
  {
  }

  lemma CommitKeepsOthers(db: Tables, c: Id, j: Id, h: string, other: string)
    requires other != h
    ensures var t := InsertContentAndJob(db, c, j, h);
            && (c !in db.contents ==> (ContentExists(t, other) <==> ContentExists(db, other)))
            && (j !in db.jobs ==> (JobExists(t, other) <==> JobExists(db, other)))
  {
    var t := InsertContentAndJob(db, c, j, h);
    if c !in db.contents && ContentExists(db, other) {
      var x :| x in db.contents && db.contents[x].hash == other;
      assert x in t.contents && t.contents[x].hash == other;
    }
    if j !in db.jobs && JobExists(db, other) {
      var x :| x in db.jobs && db.jobs[x].hash == other;
      assert x in t.jobs && t.jobs[x].hash == other;
    }
  }

  lemma SameRows(a: Tables, b: Tables, h: string)
    requires SameIdentity(a, b)
    ensures (ContentExists(b, h) <==> ContentExists(a, h)) && (JobExists(b, h) <==> JobExists(a, h))
  {
    if JobExists(a, h) { var j :| j in a.jobs && a.jobs[j].hash == h; assert b.jobs[j].hash == h; }
    if JobExists(b, h) { var j :| j in b.jobs && b.jobs[j].hash == h; assert a.jobs[j].hash == h; }
  }

  /** How one handler gets past the lock, and that nobody else moves. */
  lemma IngestPasses(s: State, p: Pid, e: IngestEvent, h: string)
    ensures var t := NextIngest(s, p, e);
            && t.api.ingests - {p} == s.api.ingests - {p} && s.api.locks <= t.api.locks
            && (p in t.api.ingests && Past(t.api.ingests[p], h) ==>
                  p in s.api.ingests && if Past(s.api.ingests[p], h)
                                        then Before(t.api.ingests[p], h) ==> Before(s.api.ingests[p], h)
                                        else h !in s.api.locks && h in t.api.locks)
  {
  }

  lemma IngestKeepsExclusive(s: State, p: Pid, e: IngestEvent, h: string)
    requires Handlers(s) && Exclusive(s, h)
    ensures Exclusive(NextIngest(s, p, e), h)
  {
    var t := NextIngest(s, p, e);
    RowsOf(s, p, e, h); IngestPasses(s, p, e, h);
    ExclusiveKept(s, t, p, h);
  }

  /** Handler p moved, past the lock of h only if it took it, and rows of h came only from its commit. */
  lemma ExclusiveKept(s: State, t: State, p: Pid, h: string)
    requires Exclusive(s, h) && t.api.ingests - {p} == s.api.ingests - {p} && s.api.locks <= t.api.locks
    requires p in t.api.ingests && Past(t.api.ingests[p], h) ==>
               p in s.api.ingests && if Past(s.api.ingests[p], h)
                                     then Before(t.api.ingests[p], h) ==> Before(s.api.ingests[p], h)
                                     else h !in s.api.locks && h in t.api.locks
    requires || (&& p in s.api.ingests && p in t.api.ingests && s.api.ingests[p].CommitRows?
                 && s.api.ingests[p].hash == h && t.api.ingests[p].SendMessage? && t.api.ingests[p].hash == h)
             || ((ContentExists(t.db, h) <==> ContentExists(s.db, h)) && (JobExists(t.db, h) <==> JobExists(s.db, h)))
    ensures Exclusive(t, h)
  {
    forall q | q in t.api.ingests && q != p ensures q in s.api.ingests && t.api.ingests[q] == s.api.ingests[q] {
      assert q in t.api.ingests - {p} && (t.api.ingests - {p})[q] == (s.api.ingests - {p})[q];
    }
  }

  lemma NextKeepsExclusive(s: State, e: Event, h: string)
    requires Handlers(s) && Exclusive(s, h) && e != LockLapsed(h)
    ensures Exclusive(Next(s, e), h)
  {
    var t := Next(s, e);
    match e
    case OfIngest(p, ie) => IngestKeepsExclusive(s, p, ie, h);
    case OfWorker(w, we) => WorkerKeepsIdentity(s, w, we); SameRows(s.db, t.db, h);
    case OfRedrive(q, re) => RedriveKeepsIdentity(s, q, re); SameRows(s.db, t.db, h);
    case LockLapsed(_) =>
    case DeadLettered(m) =>
  }

  predicate NeverLapses(es: seq<Event>, h: string) { forall i | 0 <= i < |es| :: es[i] != LockLapsed(h) }

  lemma {:induction false} RunKeepsExclusive(s: State, es: seq<Event>, h: string)
    requires IngestInv(s) && Exclusive(s, h) && NeverLapses(es, h)
    ensures Exclusive(Run(s, es), h)
    decreases |es|
  {
    if es != [] {
      NextKeepsExclusive(s, es[0], h);
      NextKeepsIngestInv(s, es[0]);
      RunKeepsExclusive(Next(s, es[0]), es[1..], h);
    }
  }

  /**
   * While the lock of a hash does not lapse, at most one handler is past it, and a commit of that hash never finds
   * its rows there: lost races need a lapsed lock.
   */
  lemma LockKeepsApart(es: seq<Event>, h: string, p: Pid, q: Pid)
    requires NeverLapses(es, h)
    requires p in Run(INIT, es).api.ingests && Past(Run(INIT, es).api.ingests[p], h)
    ensures var s := Run(INIT, es);
            && (q in s.api.ingests && Past(s.api.ingests[q], h) ==> q == p)
            && (Before(s.api.ingests[p], h) ==> !ContentExists(s.db, h) && !JobExists(s.db, h))
  {
    RunKeepsExclusive(INIT, es, h);
  }
}
