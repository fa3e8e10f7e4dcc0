/**
 Idempotent ingest: however many requests for one hash are interleaved, and however
 often the ingest lock lapses, one content row and one job come out, every successful
 answer names them, and the API sends at most one message and says "new" at most once.
 */
module IdempotentIngest {
  import opened Domain
  import opened JobMachine

  // ---------------------------------------------------------------- what never changes

  /** No row appears or vanishes and no row's identity columns change. */
  ghost predicate SameIdentity(a: Tables, b: Tables) {
    && a.contents == b.contents
    && a.jobs.Keys == b.jobs.Keys
    && forall j | j in a.jobs :: b.jobs[j].contentId == a.jobs[j].contentId && b.jobs[j].hash == a.jobs[j].hash
  }

  lemma WorkerKeepsTables(s: State, w: Pid, e: WorkerEvent)
    ensures SameIdentity(s.db, NextWorker(s, w, e).db)
  {
  }

  lemma WorkerKeepsApi(s: State, w: Pid, e: WorkerEvent)
    ensures NextWorker(s, w, e).api == s.api && s.nextId <= NextWorker(s, w, e).nextId
  {
  }

  lemma WorkerKeepsIdentity(s: State, w: Pid, e: WorkerEvent)
    ensures var t := NextWorker(s, w, e);
            && SameIdentity(s.db, t.db)
            && t.api == s.api && s.nextId <= t.nextId
  {
    WorkerKeepsTables(s, w, e);
    WorkerKeepsApi(s, w, e);
  }

  lemma RedriveKeepsIdentity(s: State, q: Pid, e: RedriveEvent)
    ensures var t := NextRedrive(s, q, e);
            && SameIdentity(s.db, t.db)
            && t.api == s.api && s.nextId <= t.nextId
  {
  }

  // ---------------------------------------------------------------- the invariant

  predicate HoldsIds(pc: Ingest) { pc.CommitRows? || pc.SendMessage? || pc.RecordSendFailure? }

  predicate Committed(pc: Ingest) { pc.SendMessage? || pc.RecordSendFailure? }

  ghost predicate Unique(db: Tables) {
    && (forall j, k | j in db.jobs && k in db.jobs :: db.jobs[j].hash == db.jobs[k].hash ==> j == k)
    && (forall c, d | c in db.contents && d in db.contents :: db.contents[c].hash == db.contents[d].hash ==> c == d)
  }

  ghost predicate Paired(db: Tables) {
    && (forall j | j in db.jobs ::
          db.jobs[j].contentId in db.contents && db.contents[db.jobs[j].contentId].hash == db.jobs[j].hash)
    && (forall c | c in db.contents :: exists j :: j in db.jobs && db.jobs[j].contentId == c)
  }

  ghost predicate FreshIds(s: State) {
    && (forall j | j in s.db.jobs :: j < s.nextId)
    && (forall c | c in s.db.contents :: c < s.nextId)
    && (forall p | p in s.api.ingests && HoldsIds(s.api.ingests[p]) ::
          s.api.ingests[p].jobId < s.nextId && s.api.ingests[p].contentId < s.nextId)
  }

  ghost predicate Handlers(s: State) {
    && (forall p | p in s.api.ingests && s.api.ingests[p].CommitRows? ::
          s.api.ingests[p].jobId !in s.db.jobs && s.api.ingests[p].contentId !in s.db.contents)
    && (forall p | p in s.api.ingests && Committed(s.api.ingests[p]) ::
          && s.api.ingests[p].jobId in s.db.jobs && s.api.ingests[p].jobId !in s.api.sends
          && s.db.jobs[s.api.ingests[p].jobId].contentId == s.api.ingests[p].contentId
          && s.db.jobs[s.api.ingests[p].jobId].hash == s.api.ingests[p].hash)
    && (forall p, q | p in s.api.ingests && q in s.api.ingests
                      && HoldsIds(s.api.ingests[p]) && HoldsIds(s.api.ingests[q]) ::
          p == q || (&& s.api.ingests[p].jobId != s.api.ingests[q].jobId
                     && s.api.ingests[p].contentId != s.api.ingests[q].contentId))
  }

  ghost predicate Sends(s: State) {
    && (forall i | 0 <= i < |s.api.sends| :: s.api.sends[i] in s.db.jobs)
    && (forall i, k | 0 <= i < k < |s.api.sends| :: s.api.sends[i] != s.api.sends[k])
  }

  /** Every answer names the job of its hash; a "new" answer says queued and belongs to a message sent. */
  ghost predicate Answered(s: State) {
    && (forall i | 0 <= i < |s.api.responses| ::
          var r := s.api.responses[i];
          && r.jobId in s.db.jobs && s.db.jobs[r.jobId].contentId == r.contentId
          && s.db.jobs[r.jobId].hash == r.hash
          && (!r.deduplicated ==> r.jobId in s.api.sends && r.status == Queued))
    && (forall i, k | 0 <= i < k < |s.api.responses| ::
          !s.api.responses[i].deduplicated && !s.api.responses[k].deduplicated ==>
            s.api.responses[i].jobId != s.api.responses[k].jobId)
  }

  ghost predicate IngestInv(s: State) {
    Unique(s.db) && Paired(s.db) && FreshIds(s) && Handlers(s) && Sends(s) && Answered(s)
  }

  // ---------------------------------------------------------------- preservation

  /** A step that commits nothing and hands no handler new identifiers. */
  lemma QuietStep(s: State, t: State)
    requires IngestInv(s)
    requires SameIdentity(s.db, t.db) && t.api.responses == s.api.responses && t.api.sends == s.api.sends
    requires s.nextId <= t.nextId
    requires forall p | p in t.api.ingests && HoldsIds(t.api.ingests[p]) ::
               p in s.api.ingests && t.api.ingests[p] == s.api.ingests[p]
    ensures IngestInv(t)
  {
    assert Paired(t.db) by {
      forall c | c in t.db.contents ensures exists j :: j in t.db.jobs && t.db.jobs[j].contentId == c {
        var j :| j in s.db.jobs && s.db.jobs[j].contentId == c;
        assert j in t.db.jobs;
      }
    }
  }

  lemma StoreKeepsHandlers(s: State, p: Pid, h: string)
    requires FreshIds(s) && Handlers(s) && Sends(s) && p in s.api.ingests && !HoldsIds(s.api.ingests[p])
    ensures Handlers(IngestStore(s, p, h, true))
  {
    var t := IngestStore(s, p, h, true);
    assert t.api.ingests == s.api.ingests[p := CommitRows(h, s.nextId, s.nextId + 1)];
  }

  lemma StoreKeepsInv(s: State, p: Pid, h: string)
    requires IngestInv(s) && p in s.api.ingests && !HoldsIds(s.api.ingests[p])
    ensures IngestInv(IngestStore(s, p, h, true))
  {
    StoreKeepsHandlers(s, p, h);
    assert FreshIds(IngestStore(s, p, h, true));
  }

  lemma InsertKeepsTables(db: Tables, c: Id, j: Id, h: string)
    requires Unique(db) && Paired(db) && c !in db.contents && j !in db.jobs
    requires !ContentExists(db, h) && !JobExists(db, h)
    ensures Unique(InsertContentAndJob(db, c, j, h)) && Paired(InsertContentAndJob(db, c, j, h))
  {
    var after := InsertContentAndJob(db, c, j, h);
    forall d | d in after.contents ensures exists k :: k in after.jobs && after.jobs[k].contentId == d {
      if d == c {
        assert j in after.jobs && after.jobs[j].contentId == d;
      } else {
        var k :| k in db.jobs && db.jobs[k].contentId == d;
        assert k in after.jobs && after.jobs[k].contentId == d;
      }
    }
  }

  lemma CommitKeepsHandlers(s: State, p: Pid, h: string, c: Id, j: Id)
    requires Handlers(s) && Sends(s) && p in s.api.ingests && s.api.ingests[p] == CommitRows(h, c, j)
    requires !ContentExists(s.db, h) && !JobExists(s.db, h)
    ensures Handlers(IngestCommit(s, p, h, c, j, None))
  {
    var t := IngestCommit(s, p, h, c, j, None);
    assert t.db.jobs == s.db.jobs[j := Job(c, h, Queued, 0, DEFAULT_MAX_ATTEMPTS, None)];
    assert t.db.contents == s.db.contents[c := Content(h)];
    assert t.api.ingests == s.api.ingests[p := SendMessage(h, c, j)];
    assert t.api.sends == s.api.sends && j !in s.api.sends;
  }

  lemma CommitKeepsReplies(s: State, p: Pid, h: string, c: Id, j: Id)
    requires FreshIds(s) && Handlers(s) && Sends(s) && Answered(s)
    requires p in s.api.ingests && s.api.ingests[p] == CommitRows(h, c, j)
    requires !ContentExists(s.db, h) && !JobExists(s.db, h)
    ensures var t := IngestCommit(s, p, h, c, j, None); FreshIds(t) && Sends(t) && Answered(t)
  {
    var t := IngestCommit(s, p, h, c, j, None);
    assert forall k | k in s.db.jobs :: k in t.db.jobs && t.db.jobs[k] == s.db.jobs[k];
  }

  lemma CommitKeepsInv(s: State, p: Pid, h: string, c: Id, j: Id)
    requires IngestInv(s) && p in s.api.ingests && s.api.ingests[p] == CommitRows(h, c, j)
    requires !ContentExists(s.db, h) && !JobExists(s.db, h)
    ensures IngestInv(IngestCommit(s, p, h, c, j, None))
  {
    InsertKeepsTables(s.db, c, j, h);
    CommitKeepsHandlers(s, p, h, c, j);
    CommitKeepsReplies(s, p, h, c, j);
  }

  lemma SendKeepsHandlers(s: State, p: Pid, h: string, c: Id, j: Id)
    requires FreshIds(s) && Handlers(s) && p in s.api.ingests && s.api.ingests[p] == SendMessage(h, c, j)
    ensures var t := IngestSend(s, p, h, c, j, true); FreshIds(t) && Handlers(t)
  {
    var t := IngestSend(s, p, h, c, j, true);
    assert t.api.ingests == s.api.ingests - {p} && t.api.sends == s.api.sends + [j];
    assert forall q | q in t.api.ingests && Committed(t.api.ingests[q]) :: t.api.ingests[q].jobId != j;
  }

  lemma SendKeepsReplies(s: State, p: Pid, h: string, c: Id, j: Id)
    requires Handlers(s) && Sends(s) && Answered(s) && p in s.api.ingests && s.api.ingests[p] == SendMessage(h, c, j)
    ensures var t := IngestSend(s, p, h, c, j, true); Sends(t) && Answered(t)
  {
    var t := IngestSend(s, p, h, c, j, true);
    assert t.api.sends == s.api.sends + [j] && t.api.responses == s.api.responses + [Response(j, c, h, Queued, false)];
  }

  lemma SendKeepsInv(s: State, p: Pid, h: string, c: Id, j: Id)
    requires IngestInv(s) && p in s.api.ingests && s.api.ingests[p] == SendMessage(h, c, j)
    ensures IngestInv(IngestSend(s, p, h, c, j, true))
  {
    SendKeepsHandlers(s, p, h, c, j);
    SendKeepsReplies(s, p, h, c, j);
  }

  lemma SendFailureKeepsInv(s: State, p: Pid, h: string, c: Id, j: Id)
    requires IngestInv(s) && p in s.api.ingests && s.api.ingests[p] == SendMessage(h, c, j)
    ensures IngestInv(IngestSend(s, p, h, c, j, false))
  {
    var t := IngestSend(s, p, h, c, j, false);
    assert t.api.ingests == s.api.ingests[p := RecordSendFailure(h, c, j)];
    assert Handlers(t);
  }

  lemma ReplyKeepsInv(s: State, p: Pid, j: Id)
    requires IngestInv(s) && p in s.api.ingests && j in s.db.jobs
    ensures IngestInv(Reply(s, p, Duplicate(s.db, j)))
  {
    var t := Reply(s, p, Duplicate(s.db, j));
    assert t.api.ingests == s.api.ingests - {p};
    assert t.api.responses == s.api.responses + [Duplicate(s.db, j)];
  }

  lemma CommitStepKeepsInv(s: State, p: Pid, h: string, c: Id, j: Id, raced: Option<Id>)
    requires IngestInv(s) && p in s.api.ingests && s.api.ingests[p] == CommitRows(h, c, j)
    ensures IngestInv(IngestCommit(s, p, h, c, j, raced))
  {
    var t := IngestCommit(s, p, h, c, j, raced);
    if !ContentExists(s.db, h) && !JobExists(s.db, h) { CommitKeepsInv(s, p, h, c, j); }
    else if raced.None? { QuietStep(s, t); }
    else if Answers(s.db, h, raced) { ReplyKeepsInv(s, p, raced.value); }
  }

  lemma SelectKeepsInv(s: State, p: Pid, e: IngestEvent)
    requires IngestInv(s) && (e.LookedUp? || e.Polled?)
    ensures IngestInv(NextIngest(s, p, e))
  {
    var t := NextIngest(s, p, e);
    if p in s.api.ingests && t != s {
      if e.found.Some? && t.api.responses != s.api.responses { ReplyKeepsInv(s, p, e.found.value); }
      else { QuietStep(s, t); }
    }
  }

  predicate CommitsNothing(e: IngestEvent) {
    e.Arrive? || e.LockTried? || e.SendFailureRecorded? || e.IngestCrashed? || e == ObjectStored(false)
  }

  /** What the other handlers hold is untouched; handler p itself gains no identifiers. */
  ghost predicate GainsNothing(s: State, t: State, p: Pid) {
    && SameIdentity(s.db, t.db) && t.api.responses == s.api.responses && t.api.sends == s.api.sends
    && s.nextId <= t.nextId && t.api.ingests - {p} == s.api.ingests - {p}
    && (p in t.api.ingests && HoldsIds(t.api.ingests[p]) ==>
          p in s.api.ingests && t.api.ingests[p] == s.api.ingests[p])
  }

  lemma QuietEvent(s: State, p: Pid, e: IngestEvent)
    requires CommitsNothing(e)
    ensures GainsNothing(s, NextIngest(s, p, e), p)
  {
  }

  lemma QuietEventKeepsInv(s: State, p: Pid, e: IngestEvent)
    requires IngestInv(s) && CommitsNothing(e)
    ensures IngestInv(NextIngest(s, p, e))
  {
    QuietEvent(s, p, e);
    var t := NextIngest(s, p, e);
    forall q | q in t.api.ingests && HoldsIds(t.api.ingests[q])
      ensures q in s.api.ingests && t.api.ingests[q] == s.api.ingests[q]
    {
      if q != p {
        assert q in t.api.ingests - {p};
        assert (t.api.ingests - {p})[q] == (s.api.ingests - {p})[q];
      }
    }
    QuietStep(s, t);
  }

  lemma IngestKeepsInv(s: State, p: Pid, e: IngestEvent)
    requires IngestInv(s)
    ensures IngestInv(NextIngest(s, p, e))
  {
    if CommitsNothing(e) {
      QuietEventKeepsInv(s, p, e);
    } else if e.LookedUp? || e.Polled? {
      SelectKeepsInv(s, p, e);
    } else if NextIngest(s, p, e) != s {
      var pc := s.api.ingests[p];
      match e {
        case ObjectStored(_) => StoreKeepsInv(s, p, pc.hash);
        case RowsCommitted(raced) => CommitStepKeepsInv(s, p, pc.hash, pc.contentId, pc.jobId, raced);
        case MessageSent(ok) =>
          if ok { SendKeepsInv(s, p, pc.hash, pc.contentId, pc.jobId); }
          else { SendFailureKeepsInv(s, p, pc.hash, pc.contentId, pc.jobId); }
      }
    }
  }

  lemma NextKeepsIngestInv(s: State, e: Event)
    requires IngestInv(s)
    ensures IngestInv(Next(s, e))
  {
    match e
    case OfIngest(p, ie) => IngestKeepsInv(s, p, ie);
    case OfWorker(w, we) => WorkerKeepsIdentity(s, w, we); QuietStep(s, Next(s, e));
    case OfRedrive(q, re) => RedriveKeepsIdentity(s, q, re); QuietStep(s, Next(s, e));
    case LockLapsed(h) => QuietStep(s, Next(s, e));
    case DeadLettered(m) => QuietStep(s, Next(s, e));
  }

  lemma {:induction false} RunKeepsIngestInv(s: State, es: seq<Event>)
    requires IngestInv(s)
    ensures IngestInv(Run(s, es))
    decreases |es|
  {
    if es != [] {
      NextKeepsIngestInv(s, es[0]);
      RunKeepsIngestInv(Next(s, es[0]), es[1..]);
    }
  }

  // ---------------------------------------------------------------- the theorem

  /** All that ingest promises about one hash h, in whatever state a run ends. */
  lemma IngestIsIdempotent(es: seq<Event>, h: string)
    ensures var s := Run(INIT, es);
            && (forall c, d | c in s.db.contents && d in s.db.contents ::
                  s.db.contents[c].hash == h && s.db.contents[d].hash == h ==> c == d)
            && (forall j, k | j in s.db.jobs && k in s.db.jobs ::
                  s.db.jobs[j].hash == h && s.db.jobs[k].hash == h ==> j == k)
            && (ContentExists(s.db, h) <==> JobExists(s.db, h))
            && (forall j | j in s.db.jobs && s.db.jobs[j].hash == h ::
                  && s.db.jobs[j].contentId in s.db.contents && s.db.contents[s.db.jobs[j].contentId].hash == h
                  && (forall i | 0 <= i < |s.api.responses| && s.api.responses[i].hash == h ::
                        s.api.responses[i].jobId == j && s.api.responses[i].contentId == s.db.jobs[j].contentId)
                  && (forall i, k | 0 <= i < k < |s.api.sends| :: s.api.sends[i] != j || s.api.sends[k] != j))
            && (forall i, k | 0 <= i < k < |s.api.responses| ::
                  s.api.responses[i].hash == h && s.api.responses[k].hash == h ==>
                    s.api.responses[i].deduplicated || s.api.responses[k].deduplicated)
            && (forall i | 0 <= i < |s.api.responses| ::
                  s.api.responses[i].deduplicated || s.api.responses[i].status == Queued)
  {
    RunKeepsIngestInv(INIT, es);
    var s := Run(INIT, es);
    if ContentExists(s.db, h) {
      var c :| c in s.db.contents && s.db.contents[c].hash == h;
      var j :| j in s.db.jobs && s.db.jobs[j].contentId == c;
      assert s.db.jobs[j].hash == h;
    }
  }
}
