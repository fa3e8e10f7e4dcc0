/**
 Each handler of JobHandlers, run to completion on its own, is a run of JobMachine. Its
 effect therefore keeps every invariant proved of runs.
 */
module SerialRuns {
  import opened Domain
  import opened JobMachine
  import opened JobHandlers
  import opened NoLostWork
  import ExactlyOnce

  function Steps(w: Pid, es: seq<WorkerEvent>): seq<Event> {
    seq(|es|, i requires 0 <= i < |es| => OfWorker(w, es[i]))
  }

  function Requests(p: Pid, es: seq<IngestEvent>): seq<Event> {
    seq(|es|, i requires 0 <= i < |es| => OfIngest(p, es[i]))
  }

  lemma RunWorker(s: State, w: Pid, e: WorkerEvent, es: seq<WorkerEvent>)
    ensures Run(s, Steps(w, [e] + es)) == Run(NextWorker(s, w, e), Steps(w, es))
  {
    assert Steps(w, [e] + es)[1..] == Steps(w, es);
  }

  lemma RunIngest(s: State, p: Pid, e: IngestEvent, es: seq<IngestEvent>)
    ensures Run(s, Requests(p, [e] + es)) == Run(NextIngest(s, p, e), Requests(p, es))
  {
    assert Requests(p, [e] + es)[1..] == Requests(p, es);
  }

  // ---------------------------------------------------------------- one delivery

  /** What the worker does once its analysis is in. */
  function ToEnd(a: Analysis): seq<WorkerEvent> {
    match a
    case Analysed(e) => [Computed(e)] + ([Persisted(0)] + ([Deleted] + []))
    case Invalid => [Rejected] + ([AttemptsRead] + ([FailureWritten] + ([FailureAudited] + ([Deleted] + []))))
    case Broke => [Raised] + ([AttemptsRead] + ([FailureWritten] + ([FailureAudited] + [])))
  }

  /** From the decision check on. */
  function Checking(db: Tables, j: Id, a: Analysis): seq<WorkerEvent> {
    if Decided(db, j)
    then [DecisionChecked] + ([StoredFetched(RowOf(db.decisions, j))] + ([Deleted] + []))
    else [DecisionChecked] + ([AttemptStarted] + ToEnd(a))
  }

  /** From the status check on. */
  function Working(db: Tables, j: Id, a: Analysis): seq<WorkerEvent> {
    if j in db.jobs && db.jobs[j].status == Succeeded then [Deleted] + [] else Checking(db, j, a)
  }

  function Schedule(db: Tables, m: Id, j: Id, a: Analysis): seq<WorkerEvent> {
    [Receive(m)] + ([StatusRead] + Working(db, j, a))
  }

  lemma DeleteRuns(s: State, w: Pid, m: Id, msg: Msg)
    requires w in s.workers && s.workers[w] == Ack(m, msg)
    ensures Run(s, Steps(w, [Deleted] + [])) == Dropped(s, m).(workers := s.workers - {w})
  {
    RunWorker(s, w, Deleted, []);
    assert Steps(w, []) == [];
  }

  lemma AnalysedRuns(s: State, w: Pid, m: Id, msg: Msg, e: Envelope)
    requires w in s.workers && s.workers[w] == Compute(m, msg) && AnalysisOf(Analysed(e), msg)
    requires !Decided(s.db, msg.jobId)
    ensures Run(s, Steps(w, ToEnd(Analysed(e)))) ==
            Dropped(s, m).(db := StoreDecision(s.db, DecisionRow(s.nextId, e)), nextId := s.nextId + 1,
                           returned := s.returned + [Outcome(msg.jobId, e)], workers := s.workers - {w})
  {
    RunWorker(s, w, Computed(e), [Persisted(0)] + ([Deleted] + []));
    var s1 := NextWorker(s, w, Computed(e));
    RunWorker(s1, w, Persisted(0), [Deleted] + []);
    var s2 := NextWorker(s1, w, Persisted(0));
    DeleteRuns(s2, w, m, msg);
    assert s2.workers - {w} == s.workers - {w};
  }

  lemma FailureRuns(s: State, w: Pid, m: Id, msg: Msg, f: Failure)
    requires w in s.workers && s.workers[w] == FailRead(m, msg, f) && msg.jobId in s.db.jobs
    requires f == ValidationFailure || f == OtherFailure
    ensures var failed := s.(db := FailedTables(s.db, msg.jobId, f), workers := s.workers - {w});
            Run(s, Steps(w, [AttemptsRead] + ([FailureWritten] + ([FailureAudited] +
                              (if f == ValidationFailure then [Deleted] + [] else []))))) ==
            if f == ValidationFailure then Dropped(failed, m) else failed
  {
    var rest: seq<WorkerEvent> := if f == ValidationFailure then [Deleted] + [] else [];
    RunWorker(s, w, AttemptsRead, [FailureWritten] + ([FailureAudited] + rest));
    var s1 := NextWorker(s, w, AttemptsRead);
    RunWorker(s1, w, FailureWritten, [FailureAudited] + rest);
    var s2 := NextWorker(s1, w, FailureWritten);
    RunWorker(s2, w, FailureAudited, rest);
    var s3 := NextWorker(s2, w, FailureAudited);
    assert s3.db == FailedTables(s.db, msg.jobId, f) && s3.workers - {w} == s.workers - {w};
    if f == ValidationFailure { DeleteRuns(s3, w, m, msg); }
    else { assert Steps(w, rest) == [] && s3.workers == s.workers - {w}; }
  }

  lemma RejectedRuns(s: State, w: Pid, m: Id, msg: Msg, a: Analysis)
    requires w in s.workers && s.workers[w] == Compute(m, msg) && !a.Analysed? && msg.jobId in s.db.jobs
    ensures var f := if a.Invalid? then ValidationFailure else OtherFailure;
            var failed := s.(db := FailedTables(s.db, msg.jobId, f), workers := s.workers - {w});
            Run(s, Steps(w, ToEnd(a))) == if a.Invalid? then Dropped(failed, m) else failed
  {
    var f := if a.Invalid? then ValidationFailure else OtherFailure;
    var e: WorkerEvent := if a.Invalid? then Rejected else Raised;
    var tail: seq<WorkerEvent> := if a.Invalid? then [Deleted] + [] else [];
    RunWorker(s, w, e, [AttemptsRead] + ([FailureWritten] + ([FailureAudited] + tail)));
    var s1 := NextWorker(s, w, e);
    FailureRuns(s1, w, m, msg, f);
    assert s1.workers - {w} == s.workers - {w};
  }

  lemma CheckedRuns(s: State, w: Pid, m: Id, msg: Msg, a: Analysis)
    requires w in s.workers && s.workers[w] == CheckDecision(m, msg)
    requires AnalysisOf(a, msg) && msg.jobId in s.db.jobs
    ensures var (t, p) := Processed(s, msg, a);
            var u := t.(workers := s.workers - {w});
            Run(s, Steps(w, Checking(s.db, msg.jobId, a))) ==
              match p
              case Returned(_) => Dropped(u, m)
              case Threw(f) =>
                var failed := u.(db := FailedTables(u.db, msg.jobId, f));
                if f == ValidationFailure then Dropped(failed, m) else failed
  {
    var s1 := NextWorker(s, w, DecisionChecked);
    if Decided(s.db, msg.jobId) {
      var row := RowOf(s.db.decisions, msg.jobId);
      RunWorker(s, w, DecisionChecked, [StoredFetched(row)] + ([Deleted] + []));
      RunWorker(s1, w, StoredFetched(row), [Deleted] + []);
      var s2 := NextWorker(s1, w, StoredFetched(row));
      DeleteRuns(s2, w, m, msg);
      assert s2.workers - {w} == s.workers - {w};
    } else {
      RunWorker(s, w, DecisionChecked, [AttemptStarted] + ToEnd(a));
      RunWorker(s1, w, AttemptStarted, ToEnd(a));
      var s2 := NextWorker(s1, w, AttemptStarted);
      assert s2.workers - {w} == s.workers - {w};
      assert s2 == s.(db := StartAttempt(s.db, msg.jobId), marks := s.marks + [Started(msg.jobId)],
                      workers := s.workers[w := Compute(m, msg)]);
      if a.Analysed? { AnalysedRuns(s2, w, m, msg, a.envelope); } else { RejectedRuns(s2, w, m, msg, a); }
    }
  }

  lemma WorkingRuns(s: State, w: Pid, m: Id, msg: Msg, a: Analysis)
    requires w in s.workers && s.workers[w] == ReadStatus(m, msg) && AnalysisOf(a, msg) && msg.jobId in s.db.jobs
    ensures var (t, failure) := Handled(s, msg, a);
            var u := t.(workers := s.workers - {w});
            Run(s, Steps(w, [StatusRead] + Working(s.db, msg.jobId, a))) ==
            if failure == Some(OtherFailure) then u else Dropped(u, m)
  {
    RunWorker(s, w, StatusRead, Working(s.db, msg.jobId, a));
    var s1 := NextWorker(s, w, StatusRead);
    assert s1.workers - {w} == s.workers - {w} && s1 == s.(workers := s1.workers);
    if s.db.jobs[msg.jobId].status == Succeeded { DeleteRuns(s1, w, m, msg); }
    else { CheckedRuns(s1, w, m, msg, a); }
  }

  /** The poll loop's treatment of one message is a run with one worker. */
  lemma DeliveredIsRun(s: State, w: Pid, m: Id, a: Analysis)
    requires w !in s.workers && m in s.queues.main && s.queues.main[m].receives < MAX_RECEIVES
    requires AnalysisOf(a, s.queues.main[m]) && s.queues.main[m].jobId in s.db.jobs
    ensures Run(s, Steps(w, Schedule(s.db, m, s.queues.main[m].jobId, a))) == Delivered(s, m, a)
  {
    var msg := s.queues.main[m].(receives := s.queues.main[m].receives + 1);
    RunWorker(s, w, Receive(m), [StatusRead] + Working(s.db, msg.jobId, a));
    var s1 := NextWorker(s, w, Receive(m));
    WorkingRuns(s1, w, m, msg, a);
    assert s1.workers - {w} == s.workers;
    var received := Received(s, m);
    assert s1 == received.(workers := s1.workers);
    HandledIgnoresWorkers(received, s1.workers, msg, a);
  }

  lemma HandledIgnoresWorkers(s: State, ws: map<Pid, Worker>, msg: Msg, a: Analysis)
    ensures var (t, f) := Handled(s, msg, a);
            Handled(s.(workers := ws), msg, a) == (t.(workers := ws), f) && t.workers == s.workers
  {
  }

  // ---------------------------------------------------------------- one upload

  function Sending(sent: bool): seq<IngestEvent> {
    if sent then [MessageSent(true)] + [] else [MessageSent(false)] + ([SendFailureRecorded] + [])
  }

  function Committing(db: Tables, h: string, raced: Option<Id>, sent: bool): seq<IngestEvent> {
    [RowsCommitted(raced)] + (if ContentExists(db, h) || JobExists(db, h) then [] else Sending(sent))
  }

  /** From the moment the ingest lock is held. */
  function Storing(db: Tables, h: string, stored: bool, raced: Option<Id>, sent: bool): seq<IngestEvent> {
    [ObjectStored(stored)] + (if stored then Committing(db, h, raced, sent) else [])
  }

  /** From the moment the first lookup found nothing. */
  function Locking(s: State, h: string, stored: bool, sent: bool): seq<IngestEvent> {
    [LockTried] + (if h in s.api.locks then Polls(POLL_TRIES + 1) else Storing(s.db, h, stored, None, sent))
  }

  function Uploading(s: State, h: string, stored: bool, sent: bool, known: Option<Id>): seq<IngestEvent> {
    [Arrive(h)] + ([LookedUp(known)] + (if known.Some? then [] else Locking(s, h, stored, sent)))
  }

  function Polls(n: nat): seq<IngestEvent> {
    if n == 0 then [] else [Polled(None)] + Polls(n - 1)
  }

  lemma {:induction false} PollingRuns(s: State, p: Pid, h: string, tries: nat)
    requires p in s.api.ingests && s.api.ingests[p] == Poll(h, tries) && !JobExists(s.db, h)
    ensures Run(s, Requests(p, Polls(tries + 1))) == s.(api := s.api.(ingests := s.api.ingests - {p}))
    decreases tries
  {
    RunIngest(s, p, Polled(None), Polls(tries));
    var s1 := NextIngest(s, p, Polled(None));
    assert Requests(p, []) == [];
    if tries > 0 {
      PollingRuns(s1, p, h, tries - 1);
      assert s1.api.ingests - {p} == s.api.ingests - {p};
    }
  }

  lemma SendingRuns(s: State, p: Pid, h: string, c: Id, j: Id, sent: bool)
    requires p in s.api.ingests && s.api.ingests[p] == SendMessage(h, c, j)
    ensures var out := s.api.(ingests := s.api.ingests - {p});
            Run(s, Requests(p, Sending(sent))) ==
            if sent
            then s.(nextId := s.nextId + 1, queues := SendTo(s.queues, s.nextId, Msg(j, c, h, 0)),
                    api := out.(sends := s.api.sends + [j],
                                responses := s.api.responses + [Response(j, c, h, Queued, false)]))
            else s.(db := SetSendFailed(s.db, j), api := out)
  {
    var rest: seq<IngestEvent> := if sent then [] else [SendFailureRecorded] + [];
    RunIngest(s, p, MessageSent(sent), rest);
    var s1 := NextIngest(s, p, MessageSent(sent));
    assert Requests(p, []) == [];
    assert s1.api.ingests - {p} == s.api.ingests - {p};
    if !sent { RunIngest(s1, p, SendFailureRecorded, []); }
  }

  function Without(s: State, p: Pid): State { s.(api := s.api.(ingests := s.api.ingests - {p})) }

  /** The commit of handler p and what follows it, as one function. */
  function Committed(s: State, p: Pid, h: string, c: Id, j: Id, raced: Option<Id>, sent: bool): State
    requires raced.Some? ==> Answers(s.db, h, raced)
  {
    if ContentExists(s.db, h) || JobExists(s.db, h) then
      if raced.None? then Without(s, p) else Reply(s, p, Duplicate(s.db, raced.value))
    else Without(Enqueued(s.(db := InsertContentAndJob(s.db, c, j, h)), c, j, h, sent).0, p)
  }

  lemma CommittingRuns(s: State, p: Pid, h: string, c: Id, j: Id, raced: Option<Id>, sent: bool)
    requires p in s.api.ingests && s.api.ingests[p] == CommitRows(h, c, j) && (raced.Some? ==> Answers(s.db, h, raced))
    ensures Run(s, Requests(p, Committing(s.db, h, raced, sent))) == Committed(s, p, h, c, j, raced, sent)
  {
    var lost := ContentExists(s.db, h) || JobExists(s.db, h);
    RunIngest(s, p, RowsCommitted(raced), if lost then [] else Sending(sent));
    var t := NextIngest(s, p, RowsCommitted(raced));
    assert Requests(p, []) == [] && t.api.ingests - {p} == s.api.ingests - {p};
    if !lost { SendingRuns(t, p, h, c, j, sent); }
  }

  lemma StoredCommits(s: State, p: Pid, h: string, raced: Option<Id>, sent: bool, t: State)
    requires raced.Some? ==> Answers(s.db, h, raced)
    requires t == s.(nextId := s.nextId + 2, api := s.api.(ingests := t.api.ingests))
    requires t.api.ingests - {p} == s.api.ingests - {p}
    ensures Committed(t, p, h, s.nextId, s.nextId + 1, raced, sent) == Without(Stored(s, h, true, raced, sent).0, p)
  {
  }

  /** What follows the lock is a run from any state, lost races included. */
  lemma StoringRuns(s: State, p: Pid, h: string, stored: bool, raced: Option<Id>, sent: bool)
    requires p in s.api.ingests && s.api.ingests[p] == StoreObject(h) && (raced.Some? ==> Answers(s.db, h, raced))
    ensures Run(s, Requests(p, Storing(s.db, h, stored, raced, sent)))
            == Without(Stored(s, h, stored, raced, sent).0, p)
  {
    RunIngest(s, p, ObjectStored(stored), if stored then Committing(s.db, h, raced, sent) else []);
    var t := NextIngest(s, p, ObjectStored(stored));
    assert t.api.ingests - {p} == s.api.ingests - {p};
    if stored {
      CommittingRuns(t, p, h, s.nextId, s.nextId + 1, raced, sent);
      StoredCommits(s, p, h, raced, sent, t);
    } else {
      assert Requests(p, []) == [];
    }
  }

  lemma StoredIgnores(s: State, ingests: map<Pid, Ingest>, h: string, stored: bool, sent: bool)
    ensures var t := Stored(s.(api := s.api.(ingests := ingests)), h, stored, None, sent).0;
            && t == Stored(s, h, stored, None, sent).0.(api := t.api)
            && t.api == Stored(s, h, stored, None, sent).0.api.(ingests := ingests)
            && Stored(s, h, stored, None, sent).0.api.ingests == s.api.ingests
  {
  }

  lemma LockingRuns(s: State, p: Pid, h: string, stored: bool, sent: bool)
    requires p in s.api.ingests && s.api.ingests[p] == TakeLock(h) && !JobExists(s.db, h)
    ensures Run(s, Requests(p, Locking(s, h, stored, sent))) ==
            if h in s.api.locks then Without(s, p)
            else Without(Stored(s.(api := s.api.(locks := s.api.locks + {h})), h, stored, None, sent).0, p)
  {
    var s1 := NextIngest(s, p, LockTried);
    assert s1.api.ingests - {p} == s.api.ingests - {p};
    if h in s.api.locks {
      RunIngest(s, p, LockTried, Polls(POLL_TRIES + 1));
      PollingRuns(s1, p, h, POLL_TRIES);
    } else {
      RunIngest(s, p, LockTried, Storing(s.db, h, stored, None, sent));
      StoringRuns(s1, p, h, stored, None, sent);
      var held := s.(api := s.api.(locks := s.api.locks + {h}));
      StoredIgnores(held, s1.api.ingests, h, stored, sent);
      assert s1 == held.(api := held.api.(ingests := s1.api.ingests));
    }
  }

  lemma ArrivingRuns(s: State, p: Pid, h: string, found: Option<Id>, rest: seq<IngestEvent>)
    requires p !in s.api.ingests && Answers(s.db, h, found)
    ensures Run(s, Requests(p, [Arrive(h)] + ([LookedUp(found)] + rest))) ==
            Run(if found.Some? then s.(api := s.api.(responses := s.api.responses + [Duplicate(s.db, found.value)]))
                else s.(api := s.api.(ingests := s.api.ingests[p := TakeLock(h)])), Requests(p, rest))
  {
    RunIngest(s, p, Arrive(h), [LookedUp(found)] + rest);
    var s1 := NextIngest(s, p, Arrive(h));
    RunIngest(s1, p, LookedUp(found), rest);
    var s2 := NextIngest(s1, p, LookedUp(found));
    assert s2.api.ingests == if found.Some? then s.api.ingests else s.api.ingests[p := TakeLock(h)];
  }

  /** accept_image on its own is a run with one ingest handler. */
  lemma AcceptedIsRun(s: State, p: Pid, h: string, stored: bool, sent: bool, known: Option<Id>)
    requires p !in s.api.ingests && Answers(s.db, h, known)
    ensures Run(s, Requests(p, Uploading(s, h, stored, sent, known))) ==
            AcceptedImage(s, h, stored, sent, known).0
  {
    if known.Some? {
      ArrivingRuns(s, p, h, known, []);
      assert Requests(p, []) == [];
    } else {
      var ingests := s.api.ingests[p := TakeLock(h)];
      ArrivingRuns(s, p, h, None, Locking(s, h, stored, sent));
      assert ingests - {p} == s.api.ingests;
      LockingRuns(s.(api := s.api.(ingests := ingests)), p, h, stored, sent);
      StoredIgnores(s.(api := s.api.(locks := s.api.locks + {h})), ingests, h, stored, sent);
    }
  }

  // ---------------------------------------------------------------- what follows

  /** Handling a message keeps all that NoLostWork and ExactlyOnce say of a state. */
  lemma DeliveryKeepsEverything(s: State, m: Id, a: Analysis)
    requires WorkInv(s) && ExactlyOnce.EffectInv(s) && s.workers == map[]
    requires m in s.queues.main && s.queues.main[m].receives < MAX_RECEIVES && AnalysisOf(a, s.queues.main[m])
    ensures WorkInv(Delivered(s, m, a)) && ExactlyOnce.EffectInv(Delivered(s, m, a))
    ensures Settled(Delivered(s, m, a).db, s.queues.main[m].jobId) || m in Delivered(s, m, a).queues.main
  {
    assert s.queues.main[m].jobId in s.db.jobs by {
      assert IsCopy(s, m, s.queues.main[m]);
    }
    DeliveredIsRun(s, 0, m, a);
    var es := Steps(0, Schedule(s.db, m, s.queues.main[m].jobId, a));
    RunKeepsWorkInv(s, es);
    ExactlyOnce.RunKeepsEffectInv(s, es);
    DeletedIsSettled(s, m, a);
  }

  /** So does accepting an upload. */
  lemma UploadKeepsEverything(s: State, h: string, stored: bool, sent: bool, known: Option<Id>)
    requires WorkInv(s) && ExactlyOnce.EffectInv(s) && s.api.ingests == map[] && Answers(s.db, h, known)
    ensures var t := AcceptedImage(s, h, stored, sent, known).0; WorkInv(t) && ExactlyOnce.EffectInv(t)
  {
    AcceptedIsRun(s, 0, h, stored, sent, known);
    var es := Requests(0, Uploading(s, h, stored, sent, known));
    RunKeepsWorkInv(s, es);
    ExactlyOnce.RunKeepsEffectInv(s, es);
  }

  lemma DeletedIsSettled(s: State, m: Id, a: Analysis)
    requires SucceededDecided(s.db) && m in s.queues.main && s.queues.main[m].receives < MAX_RECEIVES
    requires AnalysisOf(a, s.queues.main[m]) && s.queues.main[m].jobId in s.db.jobs
    ensures Settled(Delivered(s, m, a).db, s.queues.main[m].jobId) || m in Delivered(s, m, a).queues.main
  {
    var j := s.queues.main[m].jobId;
    var t := Delivered(s, m, a);
    if s.db.jobs[j].status != Succeeded && !Decided(s.db, j) {
      match a
      case Analysed(e) => assert t.db.decisions[|s.db.decisions|].envelope.jobId == j;
      case Invalid =>
        var verdict := FailureVerdict(StartAttempt(s.db, j).jobs[j]);
        assert t.db.audit[|s.db.audit|] == JobFailed(j, verdict, ValidationFailure);
      case Broke =>
    }
  }
}
