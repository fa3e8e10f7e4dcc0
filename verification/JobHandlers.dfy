/**
 The handlers as the source writes them: statement after statement over shared tables and
 queues. Each method is specified by a function on machine states, and each such function
 is shown to be a run of JobMachine with a single handler at work, so what is proved of
 every run (NoLostWork, ExactlyOnce, IdempotentIngest) holds of any sequence of calls.
 */
module JobHandlers {
  import opened Domain
  import opened JobMachine
  import H = Hashing
  import Text

  /** What validation, vision, classification and routing made of an image. */
  datatype Analysis = Analysed(envelope: Envelope) | Invalid | Broke

  datatype IngestError =
    | UnsupportedType | EmptyFile | TooLarge
    | ConcurrentIngest | StorageFailed | RaceUnresolved | EnqueueFailed

  datatype IngestResult = Accepted(response: Response) | Refused(error: IngestError)

  datatype Processing = Returned(envelope: Envelope) | Threw(failure: Failure)

  // ---------------------------------------------------------------- specifications

  /** The first row deciding job j. */
  function RowOf(ds: seq<DecisionRow>, j: Id): (i: nat)
    requires exists k | 0 <= k < |ds| :: ds[k].envelope.jobId == j
    ensures i < |ds| && ds[i].envelope.jobId == j
    ensures forall k | 0 <= k < i :: ds[k].envelope.jobId != j
  {
    if ds[0].envelope.jobId == j then 0
    else
      assert exists k | 0 <= k < |ds[1..]| :: ds[1..][k].envelope.jobId == j by {
        var k :| 0 <= k < |ds| && ds[k].envelope.jobId == j;
        assert ds[1..][k - 1].envelope.jobId == j;
      }
      1 + RowOf(ds[1..], j)
  }

  /** An analysis is of the message when its envelope carries the message's identifiers. */
  predicate AnalysisOf(a: Analysis, msg: Msg) {
    a.Analysed? ==>
      a.envelope.jobId == msg.jobId && a.envelope.contentId == msg.contentId && a.envelope.hash == msg.hash
  }

  function FailedTables(db: Tables, j: Id, f: Failure): Tables {
    if j !in db.jobs then db
    else
      var verdict := FailureVerdict(db.jobs[j]);
      var written := SetFailed(db, j, verdict, f);
      written.(audit := written.audit + [JobFailed(j, verdict, f)])
  }

  /** process_job on its own: the tables, the value returned or thrown, whether it started. */
  function Processed(s: State, msg: Msg, a: Analysis): (r: (State, Processing)) {
    var j := msg.jobId;
    if Decided(s.db, j) then
      var e := s.db.decisions[RowOf(s.db.decisions, j)].envelope;
      (s.(returned := s.returned + [Outcome(j, e)]), Returned(e))
    else
      var started := s.(db := StartAttempt(s.db, j), marks := s.marks + [Started(j)]);
      match a
      case Invalid => (started, Threw(ValidationFailure))
      case Broke => (started, Threw(OtherFailure))
      case Analysed(e) =>
        (started.(db := StoreDecision(started.db, DecisionRow(s.nextId, e)), nextId := s.nextId + 1,
                  returned := s.returned + [Outcome(j, e)]), Returned(e))
  }

  /** handle_message: success, or a recorded failure that is raised again. */
  function Handled(s: State, msg: Msg, a: Analysis): (State, Option<Failure>) {
    if msg.jobId in s.db.jobs && s.db.jobs[msg.jobId].status == Succeeded then (s, None)
    else
      var (t, p) := Processed(s, msg, a);
      match p
      case Returned(_) => (t, None)
      case Threw(f) => (t.(db := FailedTables(t.db, msg.jobId, f)), Some(f))
  }

  /** The receive call: one more receive on the message. */
  function Received(s: State, m: Id): State
    requires m in s.queues.main
  {
    s.(queues := s.queues.(main := s.queues.main[m := s.queues.main[m].(receives := s.queues.main[m].receives + 1)]))
  }

  function Dropped(s: State, m: Id): State { s.(queues := s.queues.(main := s.queues.main - {m})) }

  /** One pass of poll_sqs over message m: deleted on success or rejection, left otherwise. */
  function Delivered(s: State, m: Id, a: Analysis): State
    requires m in s.queues.main
  {
    var received := Received(s, m);
    var (t, failure) := Handled(received, received.queues.main[m], a);
    if failure == Some(OtherFailure) then t else Dropped(t, m)
  }

  /** The rest of accept_image once the ingest lock is held; raced is what the read after a lost race returned. */
  function Stored(s: State, h: string, stored: bool, raced: Option<Id>, sent: bool): (State, IngestResult)
    requires raced.Some? ==> Answers(s.db, h, raced)
  {
    var c, j := s.nextId, s.nextId + 1;
    var named := s.(nextId := s.nextId + 2);
    if !stored then (s, Refused(StorageFailed))
    else if ContentExists(s.db, h) || JobExists(s.db, h) then
      if raced.None? then (named, Refused(RaceUnresolved))
      else
        var r := Duplicate(s.db, raced.value);
        (named.(api := s.api.(responses := s.api.responses + [r])), Accepted(r))
    else Enqueued(named.(db := InsertContentAndJob(s.db, c, j, h)), c, j, h, sent)
  }

  /** The end of accept_image: send, or record that sending failed. */
  function Enqueued(s: State, c: Id, j: Id, h: string, sent: bool): (State, IngestResult) {
    if sent then
      var r := Response(j, c, h, Queued, false);
      (s.(nextId := s.nextId + 1, queues := SendTo(s.queues, s.nextId, Msg(j, c, h, 0)),
          api := s.api.(sends := s.api.sends + [j], responses := s.api.responses + [r])),
       Accepted(r))
    else (s.(db := SetSendFailed(s.db, j)), Refused(EnqueueFailed))
  }

  /** accept_image on its own, after the request checks. */
  function AcceptedImage(s: State, h: string, stored: bool, sent: bool, known: Option<Id>): (State, IngestResult)
    requires Answers(s.db, h, known)
  {
    if known.Some? then
      var r := Duplicate(s.db, known.value);
      (s.(api := s.api.(responses := s.api.responses + [r])), Accepted(r))
    else if h in s.api.locks then (s, Refused(ConcurrentIngest))
    else Stored(s.(api := s.api.(locks := s.api.locks + {h})), h, stored, None, sent)
  }

  /** The answer repeats the row of the job it names. */
  predicate RowAnswers(jobs: map<Id, Job>, r: Response) {
    && r.jobId in jobs && r.status == jobs[r.jobId].status
    && r.contentId == jobs[r.jobId].contentId && r.hash == jobs[r.jobId].hash
  }

  /** What the caller hands to accept_image, with the settings it reads. */
  datatype Upload = Upload(body: seq<H.byte>, caption: string, contentType: string)

  datatype Settings = Settings(allowed: set<string>, maxBytes: nat, policy: string)

  /** The checks before hashing, in their order. */
  function Rejection(u: Upload, cfg: Settings): Option<IngestError> {
    if u.contentType !in cfg.allowed then Some(UnsupportedType)
    else if u.body == [] then Some(EmptyFile)
    else if |u.body| > cfg.maxBytes then Some(TooLarge)
    else None
  }

  // ---------------------------------------------------------------- the handlers

  class Platform {
    var contents: map<Id, Content>
    var jobs: map<Id, Job>
    var decisions: seq<DecisionRow>
    var reviews: seq<ReviewRow>
    var audit: seq<AuditEntry>
    var metrics: seq<MetricsEvent>
    var main: map<Id, Msg>
    var dlq: map<Id, Msg>
    var locks: set<string>
    var nextId: Id
    ghost var sent: map<Id, Msg>
    ghost var sends: seq<Id>
    ghost var orphaned: set<Id>
    ghost var responses: seq<Response>
    ghost var returned: seq<Outcome>
    ghost var marks: seq<Mark>

    constructor ()
      ensures View() == INIT
    {
      contents, jobs, decisions, reviews, audit, metrics := map[], map[], [], [], [], [];
      main, dlq, locks, nextId := map[], map[], {}, 0;
      sent, sends, orphaned, responses, returned, marks := map[], [], {}, [], [], [];
    }

    ghost function Db(): Tables
      reads this
    {
      Tables(contents, jobs, decisions, reviews, audit, metrics)
    }

    /** The machine state between handlers. */
    ghost function View(): State
      reads this
    {
      State(Db(), nextId, Queues(main, dlq, sent), Api(locks, map[], sends, orphaned, responses),
            map[], map[], returned, marks)
    }

    /** persist_envelope: the transaction of one decision. */
    method PersistEnvelope(e: Envelope) returns (stored: Envelope)
      modifies this`jobs, this`decisions, this`reviews, this`audit, this`metrics, this`nextId
      ensures if Decided(old(Db()), e.jobId)
              then View() == old(View()) && stored == decisions[RowOf(decisions, e.jobId)].envelope
              else View() == old(View()).(db := StoreDecision(old(Db()), DecisionRow(old(nextId), e)),
                                          nextId := old(nextId) + 1) && stored == e
    {
      if exists i | 0 <= i < |decisions| :: decisions[i].envelope.jobId == e.jobId {
        stored := decisions[RowOf(decisions, e.jobId)].envelope;
        return;
      }
      var row := DecisionRow(nextId, e);
      nextId := nextId + 1;
      InsertDecision(row);
      stored := e;
    }

    /** The transaction once the insert of the decision took effect. */
    method InsertDecision(row: DecisionRow)
      modifies this`jobs, this`decisions, this`reviews, this`audit, this`metrics
      ensures Db() == StoreDecision(old(Db()), row)
    {
      var e := row.envelope;
      decisions := decisions + [row];
      if e.jobId in jobs {
        jobs := jobs[e.jobId := jobs[e.jobId].(status := Succeeded, lastError := None)];
      }
      audit := audit + [DecisionCreated(row.id, e.decision, e.confidence, e.needsReview)];
      metrics := metrics + [MetricsEvent(e.decision, e.latencyMs, !e.needsReview)];
      if e.needsReview {
        if !exists i | 0 <= i < |reviews| :: reviews[i].decisionId == row.id {
          reviews := reviews + [ReviewRow(row.id, e.contentId, e.jobId, ReviewPriority(e.decision, e.confidence))];
        }
        audit := audit + [ReviewEnqueued(row.id)];
        assert audit == old(audit) + [CreatedEntry(row), ReviewEnqueued(row.id)];
      }
    }

    /** process_job, with the analysis of the image as its one unknown. */
    method ProcessJob(msg: Msg, a: Analysis) returns (p: Processing)
      requires AnalysisOf(a, msg)
      modifies this`jobs, this`decisions, this`reviews, this`audit, this`metrics, this`nextId,
               this`returned, this`marks
      ensures (View(), p) == Processed(old(View()), msg, a)
    {
      if exists i | 0 <= i < |decisions| :: decisions[i].envelope.jobId == msg.jobId {
        var e := decisions[RowOf(decisions, msg.jobId)].envelope;
        returned := returned + [Outcome(msg.jobId, e)];
        return Returned(e);
      }
      if msg.jobId in jobs {
        jobs := jobs[msg.jobId := jobs[msg.jobId].(status := Processing, attempts := jobs[msg.jobId].attempts + 1)];
      }
      marks := marks + [Started(msg.jobId)];
      assert Db() == StartAttempt(old(Db()), msg.jobId);
      ghost var started := View();
      assert started == old(View()).(db := started.db, marks := started.marks);
      match a {
        case Invalid => p := Threw(ValidationFailure);
        case Broke => p := Threw(OtherFailure);
        case Analysed(e) =>
          var stored := PersistEnvelope(e);
          assert View() == started.(db := StoreDecision(started.db, DecisionRow(started.nextId, e)),
                                    nextId := started.nextId + 1) && stored == e;
          returned := returned + [Outcome(msg.jobId, stored)];
          p := Returned(stored);
      }
    }

    /** mark_failed: the attempt counter chooses between failed and dead. */
    method MarkFailed(j: Id, f: Failure)
      modifies this`jobs, this`audit
      ensures View() == old(View()).(db := FailedTables(old(Db()), j, f))
    {
      if j !in jobs { return; }
      var verdict := if jobs[j].attempts >= jobs[j].maxAttempts then Dead else Failed;
      jobs := jobs[j := jobs[j].(status := verdict, lastError := Some(f))];
      audit := audit + [JobFailed(j, verdict, f)];
    }

    method HandleMessage(msg: Msg, a: Analysis) returns (raised: Option<Failure>)
      requires AnalysisOf(a, msg)
      modifies this`jobs, this`decisions, this`reviews, this`audit, this`metrics, this`nextId,
               this`returned, this`marks
      ensures (View(), raised) == Handled(old(View()), msg, a)
    {
      if msg.jobId in jobs && jobs[msg.jobId].status == Succeeded { return None; }
      var p := ProcessJob(msg, a);
      match p {
        case Returned(_) => raised := None;
        case Threw(f) =>
          MarkFailed(msg.jobId, f);
          raised := Some(f);
      }
    }

    /** The body of poll_sqs for one received message. */
    method PollOnce(m: Id, a: Analysis)
      requires m in main && main[m].receives < MAX_RECEIVES && AnalysisOf(a, main[m])
      modifies this`main, this`jobs, this`decisions, this`reviews, this`audit, this`metrics, this`nextId,
               this`returned, this`marks
      ensures View() == Delivered(old(View()), m, a)
    {
      var msg := main[m].(receives := main[m].receives + 1);
      main := main[m := msg];
      assert View() == Received(old(View()), m);
      var raised := HandleMessage(msg, a);
      if raised != Some(OtherFailure) {
        main := main - {m};
      }
    }

    /** accept_image: the checks, the key of the stripped caption, and the rest under that key. */
    method AcceptImage(u: Upload, cfg: Settings, digest: seq<H.byte> -> string,
                       stored: bool, readable: bool, sendOk: bool)
      returns (r: IngestResult, ghost known: Option<Id>)
      modifies this
      ensures Rejection(u, cfg).Some? ==> View() == old(View()) && r == Refused(Rejection(u, cfg).value)
      ensures var h := digest(H.Preimage(u.body, u.caption, cfg.policy));
              Rejection(u, cfg).None? ==>
                Answers(old(Db()), h, known) && (View(), r) == AcceptedImage(old(View()), h, stored, sendOk, known)
      ensures r == Refused(UnsupportedType) <==> u.contentType !in cfg.allowed
      ensures r == Refused(EmptyFile) <==> u.contentType in cfg.allowed && |u.body| == 0
      ensures r == Refused(TooLarge) <==> u.contentType in cfg.allowed && |u.body| > 0 && |u.body| > cfg.maxBytes
      ensures r.Accepted? && r.response.deduplicated ==> RowAnswers(old(jobs), r.response)
    {
      known := None;
      if u.contentType !in cfg.allowed { return Refused(UnsupportedType), known; }
      if u.body == [] { return Refused(EmptyFile), known; }
      if |u.body| > cfg.maxBytes { return Refused(TooLarge), known; }
      var caption := Text.Strip(u.caption);
      var h := H.ContentHash(u.body, caption, cfg.policy, digest);
      H.ExtraStripIsHarmless(u.body, u.caption, cfg.policy);
      r, known := AcceptDigest(h, stored, readable, sendOk);
    }

    /** Everything after the key. Polling for a concurrent ingest sees no change, because no one else runs meanwhile. */
    method AcceptDigest(h: string, stored: bool, readable: bool, sendOk: bool)
      returns (r: IngestResult, ghost known: Option<Id>)
      modifies this
      ensures Answers(old(Db()), h, known)
      ensures (View(), r) == AcceptedImage(old(View()), h, stored, sendOk, known)
      ensures r.Accepted? && r.response.deduplicated <==> JobExists(old(Db()), h)
      ensures r.Accepted? && r.response.deduplicated ==> RowAnswers(old(jobs), r.response) && r.response.hash == h
    {
      known := None;
      if exists j | j in jobs :: jobs[j].hash == h {
        var j :| j in jobs && jobs[j].hash == h;
        known := Some(j);
        var hit := Response(j, jobs[j].contentId, jobs[j].hash, jobs[j].status, true);
        responses := responses + [hit];
        return Accepted(hit), known;
      }
      if h in locks { return Refused(ConcurrentIngest), known; }
      locks := locks + {h};
      ghost var raced;
      r, raced := StoreImage(h, stored, readable, sendOk);
    }

    /** The read after a lost race, in a failed transaction: it returns the winner's row or raises. */
    method ReadWinner(h: string, readable: bool) returns (r: IngestResult, ghost raced: Option<Id>)
      modifies this`responses
      ensures raced.Some? <==> readable && JobExists(Db(), h)
      ensures raced.None? ==> r == Refused(RaceUnresolved) && responses == old(responses)
      ensures raced.Some? ==> Answers(Db(), h, raced) && r == Accepted(Duplicate(Db(), raced.value))
                              && responses == old(responses) + [Duplicate(Db(), raced.value)]
      ensures r.Accepted? ==> RowAnswers(jobs, r.response) && r.response.hash == h && r.response.deduplicated
    {
      if readable && exists j | j in jobs :: jobs[j].hash == h {
        var j :| j in jobs && jobs[j].hash == h;
        raced := Some(j);
        var hit := Response(j, jobs[j].contentId, jobs[j].hash, jobs[j].status, true);
        responses := responses + [hit];
        return Accepted(hit), raced;
      }
      return Refused(RaceUnresolved), None;
    }

    /** The rest once the lock is held; readable says whether the read in a failed transaction returns or raises. */
    method StoreImage(h: string, stored: bool, readable: bool, sendOk: bool)
      returns (r: IngestResult, ghost raced: Option<Id>)
      modifies this
      ensures raced.Some? ==> stored && readable && Answers(old(Db()), h, raced)
      ensures stored && readable && JobExists(old(Db()), h) ==> raced.Some?
      ensures (View(), r) == Stored(old(View()), h, stored, raced, sendOk)
    {
      raced := None;
      if !stored { return Refused(StorageFailed), raced; }
      var contentId, jobId := nextId, nextId + 1;
      nextId := nextId + 2;
      if (exists c | c in contents :: contents[c].hash == h) || (exists j | j in jobs :: jobs[j].hash == h) {
        r, raced := ReadWinner(h, readable);
        return;
      }
      r := CommitAndEnqueue(h, contentId, jobId, sendOk);
    }

    method CommitAndEnqueue(h: string, contentId: Id, jobId: Id, sendOk: bool) returns (r: IngestResult)
      modifies this
      ensures var committed := old(View()).(db := InsertContentAndJob(old(Db()), contentId, jobId, h));
              (View(), r) == Enqueued(committed, contentId, jobId, h, sendOk)
    {
      contents := contents[contentId := Content(h)];
      jobs := jobs[jobId := Job(contentId, h, Queued, 0, DEFAULT_MAX_ATTEMPTS, None)];
      audit := audit + [JobEnqueued(jobId, h)];
      assert View() == old(View()).(db := InsertContentAndJob(old(Db()), contentId, jobId, h));
      r := Enqueue(contentId, jobId, h, sendOk);
    }

    /** The end of accept_image. */
    method Enqueue(contentId: Id, jobId: Id, h: string, sendOk: bool) returns (r: IngestResult)
      requires jobId in jobs
      modifies this
      ensures (View(), r) == Enqueued(old(View()), contentId, jobId, h, sendOk)
    {
      if !sendOk {
        jobs := jobs[jobId := jobs[jobId].(status := Failed, lastError := Some(EnqueueFailure))];
        return Refused(EnqueueFailed);
      }
      var msg := Msg(jobId, contentId, h, 0);
      main := main[nextId := msg];
      sent := sent[nextId := msg];
      nextId := nextId + 1;
      sends := sends + [jobId];
      var accepted := Response(jobId, contentId, h, Queued, false);
      responses := responses + [accepted];
      return Accepted(accepted);
    }
  }
}
