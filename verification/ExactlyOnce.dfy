/**
 Exactly-once effects under duplicate and redelivered messages: a job gets at most one
 decision, decisions are never rewritten, and the audit log, the metrics table and the
 review queue each mirror the decisions table row for row. The mirrors are equalities of
 sequences, so a lost, repeated or reordered effect would break them.
 */
module ExactlyOnce {
  import opened Domain
  import opened JobMachine

  // ---------------------------------------------------------------- the mirrors

  /** The "decision created" entries of an audit log, oldest first. */
  ghost function Created(audit: seq<AuditEntry>): seq<AuditEntry> {
    if audit == [] then []
    else
      var e := audit[|audit| - 1];
      Created(audit[..|audit| - 1]) + if e.DecisionCreated? then [e] else []
  }

  /** The "review enqueued" entries of an audit log, oldest first. */
  ghost function Enqueued(audit: seq<AuditEntry>): seq<AuditEntry> {
    if audit == [] then []
    else
      var e := audit[|audit| - 1];
      Enqueued(audit[..|audit| - 1]) + if e.ReviewEnqueued? then [e] else []
  }

  /** The decisions that need a human, oldest first. */
  ghost function ForHumans(ds: seq<DecisionRow>): seq<DecisionRow> {
    if ds == [] then []
    else
      var d := ds[|ds| - 1];
      ForHumans(ds[..|ds| - 1]) + if d.envelope.needsReview then [d] else []
  }

  /** The "decision created" entry of a decision, field by field. */
  predicate TellsDecision(e: AuditEntry, d: DecisionRow) {
    && e.DecisionCreated? && e.decisionId == d.id && e.decision == d.envelope.decision
    && e.confidence == d.envelope.confidence && e.needsReview == d.envelope.needsReview
  }

  /** The metrics event of a decision: automatic means that no human sees it. */
  predicate TellsMetrics(m: MetricsEvent, d: DecisionRow) {
    m.decision == d.envelope.decision && m.latencyMs == d.envelope.latencyMs && (m.auto <==> !d.envelope.needsReview)
  }

  /** The review of a decision. A block is urgent, a doubtful verdict less so, all else can wait. */
  predicate TellsReview(r: ReviewRow, d: DecisionRow) {
    && r.decisionId == d.id && r.contentId == d.envelope.contentId && r.jobId == d.envelope.jobId
    && (r.priority == 10 <==> d.envelope.decision == BLOCK)
    && (r.priority == 20 <==> d.envelope.decision != BLOCK && d.envelope.confidence < 0.6)
    && (r.priority == 50 <==> d.envelope.decision != BLOCK && d.envelope.confidence >= 0.6)
  }

  ghost predicate AuditMirrors(db: Tables) {
    && |Created(db.audit)| == |db.decisions|
    && (forall i | 0 <= i < |db.decisions| :: TellsDecision(Created(db.audit)[i], db.decisions[i]))
    && |Enqueued(db.audit)| == |ForHumans(db.decisions)|
    && (forall i | 0 <= i < |ForHumans(db.decisions)| ::
          Enqueued(db.audit)[i] == ReviewEnqueued(ForHumans(db.decisions)[i].id))
  }

  ghost predicate MetricsMirror(db: Tables) {
    && |db.metrics| == |db.decisions|
    && forall i | 0 <= i < |db.decisions| :: TellsMetrics(db.metrics[i], db.decisions[i])
  }

  ghost predicate ReviewsMirror(db: Tables) {
    && |db.reviews| == |ForHumans(db.decisions)|
    && forall i | 0 <= i < |db.reviews| :: TellsReview(db.reviews[i], ForHumans(db.decisions)[i])
  }

  ghost predicate Mirrors(db: Tables) {
    AuditMirrors(db) && MetricsMirror(db) && ReviewsMirror(db)
  }

  ghost predicate OnePerJob(ds: seq<DecisionRow>) {
    forall i, k | 0 <= i < k < |ds| :: ds[i].envelope.jobId != ds[k].envelope.jobId && ds[i].id != ds[k].id
  }

  ghost predicate OlderThan(ds: seq<DecisionRow>, id: Id) {
    forall i | 0 <= i < |ds| :: ds[i].id < id
  }

  /** The envelope is one the decisions table holds. */
  ghost predicate IsStored(ds: seq<DecisionRow>, e: Envelope) {
    exists k | 0 <= k < |ds| :: ds[k].envelope == e
  }

  /** o is the stored envelope of its job. */
  ghost predicate Matches(ds: seq<DecisionRow>, o: Outcome) {
    IsStored(ds, o.envelope) && o.envelope.jobId == o.jobId
  }

  ghost predicate AllStored(s: State) {
    forall i | 0 <= i < |s.returned| :: Matches(s.db.decisions, s.returned[i])
  }

  /** A worker about to persist holds an envelope of its own job. */
  ghost predicate OwnEnvelopes(s: State) {
    forall w | w in s.workers && s.workers[w].Persist? :: s.workers[w].envelope.jobId == s.workers[w].msg.jobId
  }

  ghost predicate EffectInv(s: State) {
    OnePerJob(s.db.decisions) && Mirrors(s.db) && OlderThan(s.db.decisions, s.nextId) && AllStored(s) && OwnEnvelopes(s)
  }

  // ---------------------------------------------------------------- snoc laws

  lemma AuditSnoc(audit: seq<AuditEntry>, e: AuditEntry)
    ensures Created(audit + [e]) == Created(audit) + if e.DecisionCreated? then [e] else []
    ensures Enqueued(audit + [e]) == Enqueued(audit) + if e.ReviewEnqueued? then [e] else []
  {
    assert (audit + [e])[..|audit|] == audit;
  }

  lemma HumansSnoc(ds: seq<DecisionRow>, d: DecisionRow)
    ensures ForHumans(ds + [d]) == ForHumans(ds) + if d.envelope.needsReview then [d] else []
  {
    assert (ds + [d])[..|ds|] == ds;
  }

  lemma {:induction false} HumansAreDecisions(ds: seq<DecisionRow>, k: nat)
    requires k < |ForHumans(ds)|
    ensures exists i | 0 <= i < |ds| :: ds[i] == ForHumans(ds)[k]
  {
    var init := ds[..|ds| - 1];
    if k < |ForHumans(init)| {
      HumansAreDecisions(init, k);
      var i :| 0 <= i < |init| && init[i] == ForHumans(init)[k];
      assert ds[i] == ForHumans(ds)[k];
    } else {
      assert ds[|ds| - 1] == ForHumans(ds)[k];
    }
  }

  lemma {:induction false} HumansNeedReview(ds: seq<DecisionRow>, k: nat)
    requires k < |ForHumans(ds)|
    ensures ForHumans(ds)[k].envelope.needsReview
  {
    if k < |ForHumans(ds[..|ds| - 1])| { HumansNeedReview(ds[..|ds| - 1], k); }
  }

  // ---------------------------------------------------------------- frames

  /** Nothing that mirrors a decision moves: at most one unrelated audit entry is added. */
  ghost predicate NoEffect(a: Tables, b: Tables) {
    && b.decisions == a.decisions && b.metrics == a.metrics && b.reviews == a.reviews
    && (b.audit == a.audit
        || (|b.audit| == |a.audit| + 1 && b.audit[..|a.audit|] == a.audit
            && !b.audit[|a.audit|].DecisionCreated? && !b.audit[|a.audit|].ReviewEnqueued?))
  }

  ghost predicate Stored(s: State, t: State, e: Envelope) {
    && !Decided(s.db, e.jobId)
    && t.db == StoreDecision(s.db, DecisionRow(s.nextId, e))
    && t.nextId == s.nextId + 1 && t.returned == s.returned + [Outcome(e.jobId, e)]
  }

  ghost predicate Idle(s: State, t: State) {
    && NoEffect(s.db, t.db) && s.nextId <= t.nextId
    && (t.returned == s.returned
        || exists o :: Matches(s.db.decisions, o) && t.returned == s.returned + [o])
  }

  lemma IngestEffects(s: State, p: Pid, e: IngestEvent)
    ensures Idle(s, NextIngest(s, p, e))
  {
  }

  lemma RedriveEffects(s: State, q: Pid, e: RedriveEvent)
    ensures Idle(s, NextRedrive(s, q, e))
  {
  }

  lemma PersistEffects(s: State, w: Pid, m: Id, msg: Msg, e: Envelope, row: nat)
    requires e.jobId == msg.jobId
    ensures var t := WorkerPersist(s, w, m, msg, e, row); Idle(s, t) || Stored(s, t, e)
  {
    if IsDecisionOf(s.db, e.jobId, row) {
      assert Matches(s.db.decisions, Outcome(msg.jobId, s.db.decisions[row].envelope));
    }
  }

  lemma WorkerEffects(s: State, w: Pid, e: WorkerEvent)
    requires OwnEnvelopes(s)
    ensures var t := NextWorker(s, w, e);
            Idle(s, t) || exists env :: Stored(s, t, env)
  {
    if w in s.workers {
      var pc := s.workers[w];
      if e.Persisted? && pc.Persist? {
        PersistEffects(s, w, pc.mid, pc.msg, pc.envelope, e.row);
      } else if e.StoredFetched? && pc.FetchStored? && IsDecisionOf(s.db, pc.msg.jobId, e.row) {
        assert Matches(s.db.decisions, Outcome(pc.msg.jobId, s.db.decisions[e.row].envelope));
      }
    }
  }

  // ---------------------------------------------------------------- preservation

  lemma WorkerKeepsOwnEnvelopes(s: State, v: Pid, e: WorkerEvent)
    requires OwnEnvelopes(s)
    ensures OwnEnvelopes(NextWorker(s, v, e))
  {
    var t := NextWorker(s, v, e);
    assert forall w | w in t.workers && w != v :: w in s.workers && t.workers[w] == s.workers[w];
  }

  lemma NextKeepsOwnEnvelopes(s: State, e: Event)
    requires OwnEnvelopes(s)
    ensures OwnEnvelopes(Next(s, e))
  {
    if e.OfWorker? { WorkerKeepsOwnEnvelopes(s, e.w, e.worker); }
  }

  lemma IdleKeepsInv(s: State, t: State)
    requires EffectInv(s) && Idle(s, t) && OwnEnvelopes(t)
    ensures EffectInv(t)
  {
    if t.db.audit != s.db.audit {
      var n := |s.db.audit|;
      AuditSnoc(s.db.audit, t.db.audit[n]);
      assert t.db.audit == s.db.audit + [t.db.audit[n]];
    }
  }

  lemma StoredReviews(db: Tables, d: DecisionRow)
    requires ReviewsMirror(db) && OlderThan(db.decisions, d.id)
    ensures ReviewsMirror(StoreDecision(db, d))
  {
    forall k | 0 <= k < |db.reviews| ensures db.reviews[k].decisionId != d.id {
      HumansAreDecisions(db.decisions, k);
    }
    HumansSnoc(db.decisions, d);
    ReviewIsTold(d);
    if d.envelope.needsReview { assert StoreDecision(db, d).reviews == db.reviews + [ReviewFor(d)]; }
  }

  lemma ReviewIsTold(d: DecisionRow)
    ensures TellsReview(ReviewFor(d), d)
  {
  }

  lemma StoredAudit(db: Tables, d: DecisionRow)
    requires AuditMirrors(db)
    ensures AuditMirrors(StoreDecision(db, d))
  {
    HumansSnoc(db.decisions, d);
    AuditSnoc(db.audit, CreatedEntry(d));
    AuditSnoc(db.audit + [CreatedEntry(d)], ReviewEnqueued(d.id));
    assert db.audit + [CreatedEntry(d), ReviewEnqueued(d.id)]
           == (db.audit + [CreatedEntry(d)]) + [ReviewEnqueued(d.id)];
  }

  lemma StoredRows(ds: seq<DecisionRow>, d: DecisionRow, e: Envelope)
    ensures IsStored(ds, e) ==> IsStored(ds + [d], e)
    ensures IsStored(ds + [d], d.envelope)
  {
    assert (ds + [d])[|ds|] == d;
    if IsStored(ds, e) {
      var k :| 0 <= k < |ds| && ds[k].envelope == e;
      assert (ds + [d])[k].envelope == e;
    }
  }

  lemma StoredKeepsInv(s: State, t: State, e: Envelope)
    requires EffectInv(s) && Stored(s, t, e) && OwnEnvelopes(t)
    ensures EffectInv(t)
  {
    var d := DecisionRow(s.nextId, e);
    StoredReviews(s.db, d);
    StoredAudit(s.db, d);
    assert t.db.decisions == s.db.decisions + [d];
    assert OnePerJob(t.db.decisions);
    forall i | 0 <= i < |t.returned| ensures Matches(t.db.decisions, t.returned[i]) {
      StoredRows(s.db.decisions, d, t.returned[i].envelope);
    }
  }

  lemma NextKeepsEffectInv(s: State, e: Event)
    requires EffectInv(s)
    ensures EffectInv(Next(s, e)) && s.db.decisions <= Next(s, e).db.decisions
  {
    var t := Next(s, e);
    NextKeepsOwnEnvelopes(s, e);
    match e
    case OfIngest(p, ie) => IngestEffects(s, p, ie); IdleKeepsInv(s, t);
    case OfWorker(w, we) =>
      WorkerEffects(s, w, we);
      if Idle(s, t) { IdleKeepsInv(s, t); }
      else { var env :| Stored(s, t, env); StoredKeepsInv(s, t, env); }
    case OfRedrive(q, re) => RedriveEffects(s, q, re); IdleKeepsInv(s, t);
    case LockLapsed(h) => IdleKeepsInv(s, t);
    case DeadLettered(m) => IdleKeepsInv(s, t);
  }

  lemma {:induction false} RunKeepsEffectInv(s: State, es: seq<Event>)
    requires EffectInv(s)
    ensures EffectInv(Run(s, es)) && s.db.decisions <= Run(s, es).db.decisions
    decreases |es|
  {
    if es != [] {
      NextKeepsEffectInv(s, es[0]);
      RunKeepsEffectInv(Next(s, es[0]), es[1..]);
    }
  }

  lemma {:induction false} RunSplits(s: State, first: seq<Event>, more: seq<Event>)
    ensures Run(s, first + more) == Run(Run(s, first), more)
    decreases |first|
  {
    if first == [] {
      assert first + more == more;
    } else {
      assert (first + more)[1..] == first[1..] + more;
      RunSplits(Next(s, first[0]), first[1..], more);
    }
  }

  // ---------------------------------------------------------------- the theorems

  lemma EffectsExactlyOnce(es: seq<Event>)
    ensures var s := Run(INIT, es);
            OnePerJob(s.db.decisions) && Mirrors(s.db) && AllStored(s)
  {
    RunKeepsEffectInv(INIT, es);
  }

  /** A stored decision is still there, unchanged and in its place, however a run goes on. */
  lemma DecisionsAreFinal(es: seq<Event>, more: seq<Event>)
    ensures Run(INIT, es).db.decisions <= Run(INIT, es + more).db.decisions
  {
    RunKeepsEffectInv(INIT, es);
    RunKeepsEffectInv(Run(INIT, es), more);
    RunSplits(INIT, es, more);
  }
}
