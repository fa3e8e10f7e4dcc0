/** What a dry run promises about the real one, and what the real one leaves behind. */
module RedrivePrediction {
  import opened Domain
  import opened Redrive
  import M = JobMachine

  // ---------------------------------------------------------------- messages, once read

  /** What a message says apart from the tables; kept is a reason to leave it whatever its job's status. */
  datatype Letter = Letter(raw: Raw, message: DlqMessage, raises: bool, target: Option<JobId>, kept: Option<Reason>)

  function KeptFor(cfg: Config, m: DlqMessage): Option<Reason> {
    var a := PlanRedrive(cfg, m, None);
    if Stays(a) then a.reason else None
  }

  function LetterOf(cfg: Config, raw: Raw): Letter {
    var m := ParseDlqMessage(raw);
    Letter(raw, m, Raises(cfg, m), Target(cfg, m), KeptFor(cfg, m))
  }

  function Plan(l: Letter, jobs: map<JobId, M.Job>): Action {
    if l.kept.Some? then Action(false, l.kept)
    else match StatusOf(jobs, l.target)
      case None => Action(true, None)
      case Some(Succeeded) => Action(false, Some(JobAlreadySucceeded))
      case Some(Queued) => Action(false, Some(JobStatusQueued))
      case Some(Processing) => Action(false, Some(JobStatusProcessing))
      case Some(_) => Action(true, None)
  }

  function Delivered(dryRun: bool, p: Progress, l: Letter): Progress {
    if p.aborted || l.raises then p.(aborted := true)
    else Advanced(dryRun, p, l.raw, l.message, l.target, Plan(l, p.store.jobs))
  }

  lemma HandledIsDelivered(cfg: Config, dryRun: bool, p: Progress, raw: Raw)
    ensures Handled(cfg, dryRun, p, raw) == Delivered(dryRun, p, LetterOf(cfg, raw))
  {
    LetterPlans(cfg, p.store.jobs, raw);
  }

  lemma LetterPlans(cfg: Config, jobs: map<JobId, M.Job>, raw: Raw)
    ensures Plan(LetterOf(cfg, raw), jobs) == PlanFor(cfg, jobs, raw)
  {
  }

  function Letters(cfg: Config, rs: seq<Raw>): (ls: seq<Letter>)
    ensures |ls| == |rs|
  {
    seq(|rs|, i requires 0 <= i < |rs| => LetterOf(cfg, rs[i]))
  }

  ghost predicate Delivers(dryRun: bool, store: Store, trace: seq<Progress>, ls: seq<Letter>) {
    && |trace| == |ls| + 1 && trace[0] == Progress(store, 0, 0, 0, [], false)
    && forall k {:trigger Delivered(dryRun, trace[k], ls[k])} ::
         0 <= k < |ls| ==> trace[k + 1] == Delivered(dryRun, trace[k], ls[k])
  }

  lemma RunDelivers(cfg: Config, dryRun: bool, store: Store, trace: seq<Progress>, rs: seq<Raw>)
    requires IsRun(cfg, dryRun, store, trace, rs)
    ensures Delivers(dryRun, store, trace, Letters(cfg, rs))
  {
    var ls := Letters(cfg, rs);
    forall k {:trigger Delivered(dryRun, trace[k], ls[k])} | 0 <= k < |ls|
      ensures trace[k + 1] == Delivered(dryRun, trace[k], ls[k])
    {
      HandledIsDelivered(cfg, dryRun, trace[k], rs[k]);
    }
  }

  // ---------------------------------------------------------------- read off the table as it was at the start

  /** The letters taken before the database refuses a job id, if it ever does. */
  function Taken(ls: seq<Letter>): (d: seq<Letter>)
    ensures d <= ls
  {
    if ls == [] then []
    else
      var n := |ls| - 1;
      var d := Taken(ls[..n]);
      if |d| < n || ls[n].raises then d else ls
  }

  /** The letters whose plan is to move, in order. */
  function Movers(jobs: map<JobId, M.Job>, ls: seq<Letter>): seq<Letter> {
    if ls == [] then []
    else
      var n := |ls| - 1;
      Movers(jobs, ls[..n]) + if Stays(Plan(ls[n], jobs)) then [] else [ls[n]]
  }

  function SentAll(ls: seq<Letter>): seq<Sent> { seq(|ls|, i requires 0 <= i < |ls| => SentFor(ls[i].message)) }

  function RawAll(ls: seq<Letter>): seq<Raw> { seq(|ls|, i requires 0 <= i < |ls| => ls[i].raw) }

  /** The dead or failed job a letter would revive, if there is one. */
  function DeadTarget(jobs: map<JobId, M.Job>, l: Letter): Option<JobId> {
    if l.kept.None? && l.target.Some? && M.Resettable(jobs, l.target.value) then l.target else None
  }

  /** The distinct dead or failed jobs named by these letters. */
  ghost function DeadJobs(jobs: map<JobId, M.Job>, ls: seq<Letter>): set<JobId> {
    set j | j in jobs && exists i :: 0 <= i < |ls| && DeadTarget(jobs, ls[i]) == Some(j)
  }

  function Revived(jobs: map<JobId, M.Job>, js: set<JobId>): map<JobId, M.Job> {
    map j | j in jobs :: if j in js then M.Requeued(jobs[j]) else jobs[j]
  }

  // ---------------------------------------------------------------- one letter further

  predicate AllResettable(jobs: map<JobId, M.Job>, js: set<JobId>) { forall j :: j in js ==> M.Resettable(jobs, j) }

  predicate Clears(jobs: map<JobId, M.Job>, j: Option<JobId>, a: Action) {
    a.reset && j.Some? && M.Resettable(jobs, j.value)
  }

  /** Reviving jobs makes no plan move or stay that did not, and only the first letter for a dead job clears it. */
  lemma PlanIsStable(jobs: map<JobId, M.Job>, js: set<JobId>, l: Letter)
    requires AllResettable(jobs, js)
    ensures var before, now, t := Plan(l, jobs), Plan(l, Revived(jobs, js)), DeadTarget(jobs, l);
            && (Stays(now) <==> Stays(before)) && (Stays(now) ==> now == before && !now.reset)
            && (now.reset ==> before.reset)
            && (Clears(Revived(jobs, js), l.target, now) <==> t.Some? && t.value !in js)
            && (t.Some? ==> before.reset)
  {
  }

  lemma DeadJobsGrow(jobs: map<JobId, M.Job>, ls: seq<Letter>, l: Letter, longer: seq<Letter>)
    requires longer == ls + [l]
    ensures var t := DeadTarget(jobs, l);
            DeadJobs(jobs, longer) == DeadJobs(jobs, ls) + if t.Some? then {t.value} else {}
    ensures AllResettable(jobs, DeadJobs(jobs, ls))
  {
    var t := DeadTarget(jobs, l);
    assert longer[|ls|] == l;
    forall j | j in DeadJobs(jobs, ls) ensures j in DeadJobs(jobs, longer) {
      var i :| 0 <= i < |ls| && DeadTarget(jobs, ls[i]) == Some(j);
      assert longer[i] == ls[i];
    }
    forall j | j in DeadJobs(jobs, longer) && Some(j) != t ensures j in DeadJobs(jobs, ls) {
      var i :| 0 <= i < |longer| && DeadTarget(jobs, longer[i]) == Some(j);
      assert ls[i] == longer[i];
    }
  }

  // ---------------------------------------------------------------- what a real run does

  /** after is before with one "redriven" entry for each of these jobs, in some order. */
  ghost predicate LogsResets(before: seq<M.AuditEntry>, js: set<JobId>, after: seq<M.AuditEntry>) {
    && before <= after && |after| == |before| + |js|
    && forall j | j in js :: M.JobRedriven(j) in after[|before|..]
  }

  lemma OneMoreLogged(before: seq<M.AuditEntry>, js: set<JobId>, after: seq<M.AuditEntry>, j: JobId)
    requires LogsResets(before, js, after) && j !in js
    ensures LogsResets(before, js + {j}, after + [M.JobRedriven(j)])
  {
    assert (after + [M.JobRedriven(j)])[|before|..] == after[|before|..] + [M.JobRedriven(j)];
  }

  ghost predicate RealOutcome(store: Store, js: set<JobId>, sent: seq<Sent>, gone: multiset<Raw>, moved: nat,
                              p: Progress)
  {
    && p.moved == moved && p.reset == |js|
    && p.store.jobs == Revived(store.jobs, js) && LogsResets(store.audit, js, p.store.audit)
    && p.store.main == store.main + sent && p.store.dlq == store.dlq - gone
  }

  lemma RealAdvance(store: Store, js: set<JobId>, sent: seq<Sent>, gone: multiset<Raw>, moved: nat, p: Progress,
                    raw: Raw, m: DlqMessage, j: Option<JobId>, a: Action, t: Option<JobId>)
    requires RealOutcome(store, js, sent, gone, moved, p) && !Stays(a)
    requires Clears(p.store.jobs, j, a) <==> t.Some? && t.value !in js
    requires t.Some? ==> t == j
    ensures RealOutcome(store, js + if t.Some? then {t.value} else {}, sent + [SentFor(m)], gone + multiset{raw},
                        moved + 1, Advanced(false, p, raw, m, j, a))
  {
    if t.Some? {
      if t.value in js {
        assert js + {t.value} == js;
      } else {
        assert Revived(store.jobs, js)[t.value := M.Requeued(store.jobs[t.value])]
               == Revived(store.jobs, js + {t.value});
        OneMoreLogged(store.audit, js, p.store.audit, t.value);
      }
    } else {
      assert js + {} == js;
    }
  }

  /** The outcome of moving exactly the letters ms. */
  ghost predicate MovedExactly(store: Store, ms: seq<Letter>, p: Progress) {
    RealOutcome(store, DeadJobs(store.jobs, ms), SentAll(ms), multiset(RawAll(ms)), |ms|, p)
  }

  lemma OneMoreSent(ms: seq<Letter>, l: Letter, more: seq<Letter>)
    requires more == ms + [l]
    ensures SentAll(more) == SentAll(ms) + [SentFor(l.message)]
    ensures multiset(RawAll(more)) == multiset(RawAll(ms)) + multiset{l.raw}
  {
    assert RawAll(more) == RawAll(ms) + [l.raw];
  }

  lemma RealMove(store: Store, ms: seq<Letter>, p: Progress, l: Letter, more: seq<Letter>)
    requires MovedExactly(store, ms, p) && !p.aborted && !l.raises
    requires !Stays(Plan(l, store.jobs)) && more == ms + [l]
    ensures MovedExactly(store, more, Delivered(false, p, l))
    ensures Delivered(false, p, l).skipped == p.skipped && !Delivered(false, p, l).aborted
  {
    var js := DeadJobs(store.jobs, ms);
    DeadJobsGrow(store.jobs, ms, l, more);
    PlanIsStable(store.jobs, js, l);
    OneMoreSent(ms, l, more);
    RealAdvance(store, js, SentAll(ms), multiset(RawAll(ms)), |ms|, p, l.raw, l.message, l.target,
                Plan(l, p.store.jobs), DeadTarget(store.jobs, l));
  }

  lemma TakenGrows(ls: seq<Letter>, l: Letter, longer: seq<Letter>)
    requires longer == ls + [l]
    ensures Taken(longer) == if Taken(ls) != ls || l.raises then Taken(ls) else longer
  {
    assert longer[..|ls|] == ls;
  }

  ghost predicate RealSoFar(store: Store, ls: seq<Letter>, p: Progress) {
    && MovedExactly(store, Movers(store.jobs, Taken(ls)), p)
    && p.moved + p.skipped == |Taken(ls)| && (p.aborted <==> Taken(ls) != ls)
  }

  lemma RealSkip(store: Store, ms: seq<Letter>, p: Progress, l: Letter)
    requires MovedExactly(store, ms, p) && !p.aborted && !l.raises && Stays(Plan(l, store.jobs))
    ensures MovedExactly(store, ms, Delivered(false, p, l))
    ensures Delivered(false, p, l).skipped == p.skipped + 1 && !Delivered(false, p, l).aborted
  {
    DeadJobsGrow(store.jobs, ms, l, ms + [l]);
    PlanIsStable(store.jobs, DeadJobs(store.jobs, ms), l);
  }

  lemma RealOneMore(store: Store, ls: seq<Letter>, p: Progress, l: Letter, longer: seq<Letter>, q: Progress)
    requires RealSoFar(store, ls, p) && longer == ls + [l] && q == Delivered(false, p, l)
    ensures RealSoFar(store, longer, q)
  {
    TakenGrows(ls, l, longer);
    if !p.aborted && !l.raises { RealTaken(store, ls, p, l, longer, q); }
  }

  lemma RealTaken(store: Store, ls: seq<Letter>, p: Progress, l: Letter, longer: seq<Letter>, q: Progress)
    requires MovedExactly(store, Movers(store.jobs, ls), p) && p.moved + p.skipped == |ls| && !p.aborted && !l.raises
    requires longer == ls + [l] && q == Delivered(false, p, l)
    ensures MovedExactly(store, Movers(store.jobs, longer), q) && q.moved + q.skipped == |longer| && !q.aborted
  {
    var ms, more := Movers(store.jobs, ls), Movers(store.jobs, longer);
    assert longer[..|ls|] == ls;
    if Stays(Plan(l, store.jobs)) {
      assert more == ms;
      RealSkip(store, ms, p, l);
    } else {
      RealMove(store, ms, p, l, more);
    }
  }

  lemma StepBack(dryRun: bool, store: Store, trace: seq<Progress>, ls: seq<Letter>)
    requires Delivers(dryRun, store, trace, ls) && ls != []
    ensures var n := |ls| - 1;
            && Delivers(dryRun, store, trace[..n + 1], ls[..n])
            && trace[n + 1] == Delivered(dryRun, trace[n], ls[n]) && ls == ls[..n] + [ls[n]]
  {
    var n := |ls| - 1;
    var shorter, before := trace[..n + 1], ls[..n];
    forall k {:trigger Delivered(dryRun, shorter[k], before[k])} | 0 <= k < n
      ensures shorter[k + 1] == Delivered(dryRun, shorter[k], before[k])
    {
      assert trace[k + 1] == Delivered(dryRun, trace[k], ls[k]);
    }
    assert trace[n + 1] == Delivered(dryRun, trace[n], ls[n]);
  }

  lemma {:induction false} RealDelivery(store: Store, trace: seq<Progress>, ls: seq<Letter>)
    requires Delivers(false, store, trace, ls)
    ensures RealSoFar(store, ls, trace[|ls|])
    decreases |ls|
  {
    if ls == [] {
      assert Revived(store.jobs, {}) == store.jobs && DeadJobs(store.jobs, []) == {};
    } else {
      var n := |ls| - 1;
      StepBack(false, store, trace, ls);
      RealDelivery(store, trace[..n + 1], ls[..n]);
      RealOneMore(store, ls[..n], trace[n], ls[n], ls, trace[n + 1]);
    }
  }

  /**
   * A real run puts the planned messages, and no others, on the main queue in order, takes exactly those off the
   * dead-letter queue, and revives exactly the dead or failed jobs they name, each counted once.
   */
  lemma RealRunDoes(cfg: Config, store: Store, trace: seq<Progress>, rs: seq<Raw>)
    requires IsRun(cfg, false, store, trace, rs)
    ensures var p, d := trace[|rs|], Taken(Letters(cfg, rs));
            var ms := Movers(store.jobs, d);
            var js := DeadJobs(store.jobs, ms);
            && p.store.main == store.main + SentAll(ms) && p.store.dlq == store.dlq - multiset(RawAll(ms))
            && p.store.jobs == Revived(store.jobs, js) && LogsResets(store.audit, js, p.store.audit)
            && p.moved == |ms| && p.reset == |js| && p.moved + p.skipped == |d| && (p.aborted <==> |d| < |rs|)
  {
    RunDelivers(cfg, false, store, trace, rs);
    RealDelivery(store, trace, Letters(cfg, rs));
  }

  // ---------------------------------------------------------------- conservation

  /** A moved message as it would come back after dying again; its body, and so its fields, are the old ones. */
  function DiedAgain(raw: Raw, messageId: string, receipt: string): Raw {
    var sent := SentFor(ParseDlqMessage(raw));
    Raw(messageId, receipt, sent.body, raw.fields, sent.jobId, sent.contentHash)
  }

  /** Moving a message loses nothing that redrive reads from it, so the same plan applies to it again. */
  lemma MovedReadsTheSame(cfg: Config, jobs: map<JobId, M.Job>, raw: Raw, messageId: string, receipt: string)
    ensures ParseDlqMessage(DiedAgain(raw, messageId, receipt))
            == ParseDlqMessage(raw).(messageId := messageId, receipt := receipt)
    ensures PlanFor(cfg, jobs, DiedAgain(raw, messageId, receipt)) == PlanFor(cfg, jobs, raw)
  {
    assert ParseDlqMessage(DiedAgain(raw, messageId, receipt))
           == ParseDlqMessage(raw).(messageId := messageId, receipt := receipt);
  }

  ghost predicate Within(kept: seq<Raw>, rs: seq<Raw>) { multiset(kept) <= multiset(rs) }

  lemma Kept(kept: seq<Raw>, rs: seq<Raw>, raw: Raw, more: seq<Raw>, longer: seq<Raw>)
    requires Within(kept, rs) && longer == rs + [raw] && (more == kept || more == kept + [raw])
    ensures Within(more, longer)
  {
  }

  lemma {:induction false} MoversAreTaken(jobs: map<JobId, M.Job>, ls: seq<Letter>)
    ensures Within(RawAll(Movers(jobs, ls)), RawAll(ls))
  {
    if ls != [] {
      var before, l := ls[..|ls| - 1], ls[|ls| - 1];
      MoversAreTaken(jobs, before);
      assert RawAll(ls) == RawAll(before) + [l.raw];
      assert RawAll(Movers(jobs, before) + [l]) == RawAll(Movers(jobs, before)) + [l.raw];
      assert Movers(jobs, before) + [] == Movers(jobs, before);
      Kept(RawAll(Movers(jobs, before)), RawAll(before), l.raw, RawAll(Movers(jobs, ls)), RawAll(ls));
    }
  }

  lemma Balance(s: Store, t: Store, ms: seq<Letter>, d: seq<Raw>, rest: seq<Raw>)
    requires Within(RawAll(ms), d) && multiset(d + rest) <= s.dlq
    requires t.main == s.main + SentAll(ms) && t.dlq == s.dlq - multiset(RawAll(ms))
    ensures |t.main| + |t.dlq| == |s.main| + |s.dlq|
  {
    assert multiset(d + rest) == multiset(d) + multiset(rest);
    assert multiset(RawAll(ms)) <= s.dlq;
  }

  lemma RawsOf(cfg: Config, rs: seq<Raw>)
    ensures RawAll(Letters(cfg, rs)) == rs
  {
  }

  lemma RawsSplit(d: seq<Letter>, ls: seq<Letter>)
    requires d <= ls
    ensures RawAll(ls) == RawAll(d) + RawAll(ls[|d|..])
  {
  }

  lemma LettersAreConserved(s: Store, t: Store, jobs: map<JobId, M.Job>, d: seq<Letter>, ls: seq<Letter>)
    requires d <= ls && multiset(RawAll(ls)) <= s.dlq
    requires var ms := Movers(jobs, d); t.main == s.main + SentAll(ms) && t.dlq == s.dlq - multiset(RawAll(ms))
    ensures |t.main| + |t.dlq| == |s.main| + |s.dlq|
  {
    RawsSplit(d, ls);
    MoversAreTaken(jobs, d);
    Balance(s, t, Movers(jobs, d), RawAll(d), RawAll(ls[|d|..]));
  }

  /** Nothing is lost on the way: what leaves the dead-letter queue is what arrives on the main queue. */
  lemma MessagesAreConserved(cfg: Config, store: Store, trace: seq<Progress>, rs: seq<Raw>)
    requires IsRun(cfg, false, store, trace, rs) && multiset(rs) <= store.dlq
    ensures |trace[|rs|].store.main| + |trace[|rs|].store.dlq| == |store.main| + |store.dlq|
  {
    RealRunDoes(cfg, store, trace, rs);
    RawsOf(cfg, rs);
    LettersAreConserved(store, trace[|rs|].store, store.jobs, Taken(Letters(cfg, rs)), Letters(cfg, rs));
  }

  // ---------------------------------------------------------------- what a dry run says

  /** Lines that differ at most in whether the job would be reset. */
  predicate SameKind(a: Line, b: Line) { a.messageId == b.messageId && (a.Skip? || b.Skip? ==> a == b) }

  predicate Alike(dry: Progress, done: Progress) {
    && dry.aborted == done.aborted && dry.moved == done.moved && dry.skipped == done.skipped
    && |dry.lines| == |done.lines| && (forall i :: 0 <= i < |dry.lines| ==> SameKind(dry.lines[i], done.lines[i]))
    && done.reset <= dry.reset <= dry.moved
  }

  /** A letter that moves and would revive job j. */
  predicate MovesFor(jobs: map<JobId, M.Job>, l: Letter, j: Option<JobId>) {
    !Stays(Plan(l, jobs)) && DeadTarget(jobs, l) == j
  }

  /** A reset that a dry run announces for d[i] and that will really happen: the first for that dead job. */
  predicate KeepsPromise(jobs: map<JobId, M.Job>, d: seq<Letter>, i: nat)
    requires i < |d|
  {
    var j := DeadTarget(jobs, d[i]);
    Plan(d[i], jobs).reset ==> j.Some? && forall k :: 0 <= k < i ==> !MovesFor(jobs, d[k], j)
  }

  predicate AllKeepPromise(jobs: map<JobId, M.Job>, d: seq<Letter>) {
    forall i :: 0 <= i < |d| ==> KeepsPromise(jobs, d, i)
  }

  predicate SomeMovesFor(jobs: map<JobId, M.Job>, d: seq<Letter>, j: JobId) {
    exists k :: 0 <= k < |d| && MovesFor(jobs, d[k], Some(j))
  }

  lemma SomeGrows(jobs: map<JobId, M.Job>, d: seq<Letter>, l: Letter, longer: seq<Letter>, j: JobId)
    requires longer == d + [l]
    ensures SomeMovesFor(jobs, longer, j) <==> SomeMovesFor(jobs, d, j) || MovesFor(jobs, l, Some(j))
  {
    assert longer[|d|] == l;
    if k :| 0 <= k < |d| && MovesFor(jobs, d[k], Some(j)) { assert longer[k] == d[k]; }
    if k :| 0 <= k < |longer| && MovesFor(jobs, longer[k], Some(j)) { assert k < |d| ==> longer[k] == d[k]; }
  }

  lemma {:induction false} DeadMovers(jobs: map<JobId, M.Job>, d: seq<Letter>, j: JobId)
    ensures j in DeadJobs(jobs, Movers(jobs, d)) <==> SomeMovesFor(jobs, d, j)
    decreases |d|
  {
    if d != [] {
      var before, l := d[..|d| - 1], d[|d| - 1];
      var ms := Movers(jobs, before);
      DeadMovers(jobs, before, j);
      SomeGrows(jobs, before, l, d, j);
      if Stays(Plan(l, jobs)) { assert ms + [] == ms; } else { DeadJobsGrow(jobs, ms, l, Movers(jobs, d)); }
    }
  }

  lemma PromisesGrow(jobs: map<JobId, M.Job>, d: seq<Letter>, l: Letter, longer: seq<Letter>)
    requires longer == d + [l]
    ensures AllKeepPromise(jobs, longer) <==> AllKeepPromise(jobs, d) && KeepsPromise(jobs, longer, |d|)
  {
    forall i | 0 <= i < |d| ensures KeepsPromise(jobs, longer, i) <==> KeepsPromise(jobs, d, i) {
      assert forall k :: 0 <= k <= i ==> longer[k] == d[k];
    }
  }

  /** The two reset counters step together exactly when the promise is kept. */
  lemma ResetsStep(jobs: map<JobId, M.Job>, d: seq<Letter>, l: Letter, longer: seq<Letter>)
    requires longer == d + [l]
    ensures var now := Revived(jobs, DeadJobs(jobs, Movers(jobs, d)));
            (Plan(l, jobs).reset ==> Clears(now, l.target, Plan(l, now))) <==> KeepsPromise(jobs, longer, |d|)
  {
    var ms, t := Movers(jobs, d), DeadTarget(jobs, l);
    DeadJobsGrow(jobs, ms, l, ms + [l]);
    PlanIsStable(jobs, DeadJobs(jobs, ms), l);
    assert forall k :: 0 <= k < |d| ==> longer[k] == d[k];
    if t.Some? { DeadMovers(jobs, d, t.value); }
  }

  lemma AlikeAdvance(dry: Progress, done: Progress, raw: Raw, m: DlqMessage, j: Option<JobId>,
                     before: Action, now: Action)
    requires Alike(dry, done) && (Stays(now) <==> Stays(before)) && (Stays(now) ==> now == before && !now.reset)
    requires now.reset ==> before.reset
    ensures var dryNext, doneNext := Advanced(true, dry, raw, m, j, before), Advanced(false, done, raw, m, j, now);
            && Alike(dryNext, doneNext) && dryNext.store == dry.store
            && dryNext.reset == dry.reset + (if before.reset then 1 else 0)
            && doneNext.reset == done.reset + (if Clears(done.store.jobs, j, now) then 1 else 0)
            && dryNext.moved == dry.moved + (if Stays(before) then 0 else 1)
  {
  }

  ghost predicate Predicts(store: Store, d: seq<Letter>, dry: Progress, done: Progress) {
    && dry.store == store && Alike(dry, done)
    && (done.reset == dry.reset <==> AllKeepPromise(store.jobs, d))
  }

  lemma PredictStep(store: Store, d: seq<Letter>, dry: Progress, done: Progress, l: Letter, longer: seq<Letter>)
    requires Predicts(store, d, dry, done) && !done.aborted && !l.raises && longer == d + [l]
    requires done.store.jobs == Revived(store.jobs, DeadJobs(store.jobs, Movers(store.jobs, d)))
    ensures Predicts(store, longer, Delivered(true, dry, l), Delivered(false, done, l))
  {
    var ms := Movers(store.jobs, d);
    DeadJobsGrow(store.jobs, ms, l, ms + [l]);
    PlanIsStable(store.jobs, DeadJobs(store.jobs, ms), l);
    AlikeAdvance(dry, done, l.raw, l.message, l.target, Plan(l, store.jobs), Plan(l, done.store.jobs));
    PromisesGrow(store.jobs, d, l, longer);
    ResetsStep(store.jobs, d, l, longer);
  }

  lemma {:induction false} Prediction(store: Store, dry: seq<Progress>, done: seq<Progress>, ls: seq<Letter>)
    requires Delivers(true, store, dry, ls) && Delivers(false, store, done, ls)
    ensures Predicts(store, Taken(ls), dry[|ls|], done[|ls|])
    decreases |ls|
  {
    if ls != [] {
      var n := |ls| - 1;
      var before, l := ls[..n], ls[n];
      StepBack(true, store, dry, ls);
      StepBack(false, store, done, ls);
      Prediction(store, dry[..n + 1], done[..n + 1], before);
      RealDelivery(store, done[..n + 1], before);
      TakenGrows(before, l, ls);
      if Taken(ls) == ls { PredictStep(store, before, dry[n], done[n], l, ls); }
    }
  }

  /**
   * On the same messages a dry run moves and skips exactly what the real run will, for the same reasons, and stops
   * at the same place. Its reset count is an upper bound, met exactly when every reset it announces is of an
   * existing dead or failed job that no earlier moved message names.
   */
  lemma DryRunPredicts(cfg: Config, store: Store, dry: seq<Progress>, done: seq<Progress>, rs: seq<Raw>)
    requires IsRun(cfg, true, store, dry, rs) && IsRun(cfg, false, store, done, rs)
    ensures Predicts(store, Taken(Letters(cfg, rs)), dry[|rs|], done[|rs|])
  {
    RunDelivers(cfg, true, store, dry, rs);
    RunDelivers(cfg, false, store, done, rs);
    Prediction(store, dry, done, Letters(cfg, rs));
  }

  function RunOfTwo(cfg: Config, dryRun: bool, store: Store, a: Raw, b: Raw): (trace: seq<Progress>)
    ensures |trace| == 3 && IsRun(cfg, dryRun, store, trace, [a, b])
  {
    var p := Progress(store, 0, 0, 0, [], false);
    var q := Handled(cfg, dryRun, p, a);
    [p, q, Handled(cfg, dryRun, q, b)]
  }

  /** raw is a letter of job j that the command would move, were j dead or failed. */
  predicate LetterFor(cfg: Config, raw: Raw, j: JobId) {
    var m := ParseDlqMessage(raw);
    && |m.body| > 0 && m.jobId.Some? && cfg.python(m.jobId.value) && cfg.filter in {"", m.jobId.value}
    && !cfg.skipDb && cfg.postgres(m.jobId.value) == Some(j)
  }

  lemma PlanForLetter(cfg: Config, jobs: map<JobId, M.Job>, raw: Raw, j: JobId)
    requires LetterFor(cfg, raw, j) && j in jobs && jobs[j].status in {Dead, Failed, Queued}
    ensures !Raises(cfg, ParseDlqMessage(raw)) && Target(cfg, ParseDlqMessage(raw)) == Some(j)
    ensures PlanFor(cfg, jobs, raw) == if jobs[j].status == Queued then Action(false, Some(JobStatusQueued))
                                       else Action(true, None)
  {
  }

  /** Any two letters of any one dead or failed job: the dry run announces two resets and one happens. */
  lemma TwoLettersOneReset(cfg: Config, store: Store, a: Raw, b: Raw, j: JobId)
    requires LetterFor(cfg, a, j) && LetterFor(cfg, b, j) && M.Resettable(store.jobs, j)
    ensures var dry, done := RunOfTwo(cfg, true, store, a, b), RunOfTwo(cfg, false, store, a, b);
            dry[2].moved == done[2].moved == 2 && dry[2].reset == 2 && done[2].reset == 1
  {
    var done := RunOfTwo(cfg, false, store, a, b);
    PlanForLetter(cfg, store.jobs, a, j);
    PlanForLetter(cfg, store.jobs, b, j);
    assert done[1].store.jobs == store.jobs[j := M.Requeued(store.jobs[j])];
    PlanForLetter(cfg, done[1].store.jobs, b, j);
  }

  /** A letter read without the database. */
  predicate Unlinked(l: Letter) { l.target.None? && (l.kept.Some? ==> Stays(Action(false, l.kept))) }

  lemma SkippingDbUnlinks(cfg: Config, rs: seq<Raw>)
    requires cfg.skipDb
    ensures forall l :: l in Letters(cfg, rs) ==> Unlinked(l)
  {
    forall i | 0 <= i < |rs| ensures Unlinked(Letters(cfg, rs)[i]) { }
  }

  /** Without the database the two counts part completely: every move announces a reset and none happens. */
  lemma SkippingDbResetsNothing(cfg: Config, store: Store, dry: seq<Progress>, done: seq<Progress>, rs: seq<Raw>)
    requires IsRun(cfg, true, store, dry, rs) && IsRun(cfg, false, store, done, rs) && cfg.skipDb
    ensures done[|rs|].reset == 0 && done[|rs|].store.jobs == store.jobs
    ensures dry[|rs|].reset == dry[|rs|].moved
  {
    var ls := Letters(cfg, rs);
    SkippingDbUnlinks(cfg, rs);
    RunDelivers(cfg, true, store, dry, rs);
    EveryMoveAnnounces(store, dry, ls);
    RealRunDoes(cfg, store, done, rs);
    MoversComeFrom(store.jobs, Taken(ls));
    NobodyRevived(store.jobs, Movers(store.jobs, Taken(ls)));
  }

  lemma NobodyRevived(jobs: map<JobId, M.Job>, ms: seq<Letter>)
    requires forall l :: l in ms ==> Unlinked(l)
    ensures DeadJobs(jobs, ms) == {} && Revived(jobs, DeadJobs(jobs, ms)) == jobs
  {
    forall i | 0 <= i < |ms| ensures DeadTarget(jobs, ms[i]).None? { assert ms[i] in ms; }
  }

  lemma {:induction false} MoversComeFrom(jobs: map<JobId, M.Job>, ls: seq<Letter>)
    ensures forall l :: l in Movers(jobs, ls) ==> l in ls
  {
    if ls != [] { MoversComeFrom(jobs, ls[..|ls| - 1]); }
  }

  lemma {:induction false} EveryMoveAnnounces(store: Store, dry: seq<Progress>, ls: seq<Letter>)
    requires Delivers(true, store, dry, ls) && forall l :: l in ls ==> Unlinked(l)
    ensures dry[|ls|].reset == dry[|ls|].moved && dry[|ls|].store == store
    decreases |ls|
  {
    if ls != [] {
      var n := |ls| - 1;
      StepBack(true, store, dry, ls);
      EveryMoveAnnounces(store, dry[..n + 1], ls[..n]);
      assert ls[n] in ls;
    }
  }
}
