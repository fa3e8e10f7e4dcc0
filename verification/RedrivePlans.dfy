/**
 Which dead letters move, why the others stay, and what a run leaves alone, read off the
 message, the configuration and the job's row.
 */
module RedrivePlans {
  import opened Domain
  import opened Redrive
  import opened RedrivePrediction
  import M = JobMachine

  // ---------------------------------------------------------------- what a message says

  /** The first of two places that holds a text: the body's field, else the attribute. */
  predicate Says(field: string, attr: Option<string>, text: string) {
    text != "" && (field == text || (field == "" && attr == Some(text)))
  }

  function FieldsOf(raw: Raw): Fields { if raw.fields.Some? then raw.fields.value else Fields("", "", "") }

  predicate NamesJob(raw: Raw, id: string) { Says(FieldsOf(raw).jobId, raw.jobIdAttr, id) }

  predicate NamesHash(raw: Raw, hash: string) { Says(FieldsOf(raw).contentHash, raw.hashAttr, hash) }

  lemma ParseReads(raw: Raw)
    ensures var m := ParseDlqMessage(raw);
            && (forall id :: m.jobId == Some(id) <==> NamesJob(raw, id))
            && (forall h :: m.contentHash == Some(h) <==> NamesHash(raw, h))
            && (forall c :: m.contentId == Some(c) <==> c != "" && FieldsOf(raw).contentId == c)
            && m.body == raw.body && m.messageId == raw.messageId && m.receipt == raw.receipt
  {
  }

  // ---------------------------------------------------------------- one message

  /** The database has the row and it succeeded. */
  predicate Done(cfg: Config, jobs: map<JobId, M.Job>, id: string) {
    && !cfg.skipDb && cfg.postgres(id).Some?
    && cfg.postgres(id).value in jobs && jobs[cfg.postgres(id).value].status == Succeeded
  }

  /** The message names a job that UUID() and the filter let pass. */
  predicate Passes(cfg: Config, raw: Raw, id: string) {
    raw.body != "" && NamesJob(raw, id) && cfg.python(id) && (cfg.filter == "" || id == cfg.filter)
  }

  /** The database is asked for a job id it cannot read. */
  ghost predicate Refused(cfg: Config, raw: Raw) {
    exists id :: NamesJob(raw, id) && !cfg.skipDb && cfg.postgres(id).None?
  }

  ghost predicate ToMove(cfg: Config, jobs: map<JobId, M.Job>, raw: Raw) {
    exists id :: Passes(cfg, raw, id) && !Done(cfg, jobs, id)
  }

  ghost predicate ToSkip(cfg: Config, jobs: map<JobId, M.Job>, raw: Raw, why: Reason) {
    match why
    case EmptyBody => raw.body == ""
    case MissingJobId => raw.body != "" && forall id :: !NamesJob(raw, id)
    case InvalidJobId => raw.body != "" && exists id :: NamesJob(raw, id) && !cfg.python(id)
    case JobIdFilter =>
      raw.body != "" && exists id :: NamesJob(raw, id) && cfg.python(id) && cfg.filter != "" && id != cfg.filter
    case JobAlreadySucceeded => exists id :: Passes(cfg, raw, id) && Done(cfg, jobs, id)
    case JobStatusQueued => false
    case JobStatusProcessing => false
  }

  lemma PlanTells(cfg: Config, jobs: map<JobId, M.Job>, raw: Raw)
    ensures var m, a := ParseDlqMessage(raw), PlanFor(cfg, jobs, raw);
            && (Raises(cfg, m) <==> Refused(cfg, raw))
            && (!Refused(cfg, raw) ==>
                  && (!Stays(a) <==> ToMove(cfg, jobs, raw))
                  && (forall why :: Stays(a) && a.reason == Some(why) <==> ToSkip(cfg, jobs, raw, why))
                  && (!Stays(a) ==>
                        m.jobId.Some? && Passes(cfg, raw, m.jobId.value) && !Done(cfg, jobs, m.jobId.value)
                        && (a.reset <==> !InFlight(cfg, jobs, m.jobId.value))))
  {
    ParseReads(raw);
    assert |cfg.filter| == 0 <==> cfg.filter == "";
    assert |raw.body| == 0 <==> raw.body == "";
    var m := ParseDlqMessage(raw);
    if m.jobId.Some? {
      var id := m.jobId.value;
      assert NamesJob(raw, id) && forall x :: NamesJob(raw, x) ==> x == id;
      assert ToMove(cfg, jobs, raw) <==> Passes(cfg, raw, id) && !Done(cfg, jobs, id);
      assert ToSkip(cfg, jobs, raw, InvalidJobId) <==> raw.body != "" && !cfg.python(id);
      assert ToSkip(cfg, jobs, raw, JobIdFilter)
        <==> raw.body != "" && cfg.python(id) && cfg.filter != "" && id != cfg.filter;
      assert ToSkip(cfg, jobs, raw, JobAlreadySucceeded) <==> Passes(cfg, raw, id) && Done(cfg, jobs, id);
    }
  }

  /** The message on the main queue that a moved letter becomes. */
  ghost predicate SentAs(sent: Sent, raw: Raw) {
    && sent.body == raw.body
    && (forall id :: sent.jobId == Some(id) <==> NamesJob(raw, id))
    && (forall h :: sent.contentHash == Some(h) <==> NamesHash(raw, h))
  }

  /** Exactly which messages end the run, move or stay, and for which reason each of those stays. */
  lemma HandledTells(cfg: Config, dryRun: bool, p: Progress, raw: Raw, why: Reason)
    requires !p.aborted
    ensures var q := Handled(cfg, dryRun, p, raw);
            && (q.aborted <==> Refused(cfg, raw))
            && (q.moved == p.moved + 1 <==> !Refused(cfg, raw) && ToMove(cfg, p.store.jobs, raw))
            && (q.lines == p.lines + [Skip(raw.messageId, why)] <==>
                  !Refused(cfg, raw) && ToSkip(cfg, p.store.jobs, raw, why))
            && (q.moved == p.moved + 1 || q.moved == p.moved)
  {
    ParseReads(raw);
    PlanTells(cfg, p.store.jobs, raw);
    SkipShows(p.lines, raw.messageId, why, PlanFor(cfg, p.store.jobs, raw));
  }

  lemma SkipShows(lines: seq<Line>, id: string, why: Reason, a: Action)
    ensures lines != lines + [Skip(id, why)] && lines + [Move(id, a.reset)] != lines + [Skip(id, why)]
    ensures a.reason.Some? ==>
              (lines + [Skip(id, a.reason.value)] == lines + [Skip(id, why)] <==> a.reason.value == why)
  {
    assert (lines + [Skip(id, why)])[|lines|] == Skip(id, why);
    assert (lines + [Move(id, a.reset)])[|lines|] == Move(id, a.reset);
    if a.reason.Some? { assert (lines + [Skip(id, a.reason.value)])[|lines|] == Skip(id, a.reason.value); }
  }

  /** A reset is announced exactly for jobs without a known row and for dead or failed ones. */
  lemma MoveTells(cfg: Config, dryRun: bool, p: Progress, raw: Raw, reset: bool)
    requires !p.aborted
    ensures Handled(cfg, dryRun, p, raw).lines == p.lines + [Move(raw.messageId, reset)] <==>
              && !Refused(cfg, raw)
              && exists id :: Passes(cfg, raw, id) && !Done(cfg, p.store.jobs, id)
                              && (reset <==> !InFlight(cfg, p.store.jobs, id))
  {
    ParseReads(raw);
    PlanTells(cfg, p.store.jobs, raw);
    var a := PlanFor(cfg, p.store.jobs, raw);
    assert (p.lines + [Move(raw.messageId, reset)])[|p.lines|] == Move(raw.messageId, reset);
    assert (p.lines + [Move(raw.messageId, a.reset)])[|p.lines|] == Move(raw.messageId, a.reset);
    if a.reason.Some? {
      assert (p.lines + [Skip(raw.messageId, a.reason.value)])[|p.lines|] == Skip(raw.messageId, a.reason.value);
    }
  }

  /** The job's row is queued or processing. */
  predicate InFlight(cfg: Config, jobs: map<JobId, M.Job>, id: string) {
    && !cfg.skipDb && cfg.postgres(id).Some? && cfg.postgres(id).value in jobs
    && jobs[cfg.postgres(id).value].status in {Queued, Processing}
  }

  // ---------------------------------------------------------------- a whole run

  /** The messages to be moved, in order, as the table was at the start. */
  ghost function Chosen(cfg: Config, jobs: map<JobId, M.Job>, rs: seq<Raw>): (c: seq<Raw>)
    ensures forall raw | raw in c :: ToMove(cfg, jobs, raw)
  {
    if rs == [] then []
    else
      var n := |rs| - 1;
      Chosen(cfg, jobs, rs[..n]) + if ToMove(cfg, jobs, rs[n]) then [rs[n]] else []
  }

  lemma LetterTells(cfg: Config, jobs: map<JobId, M.Job>, raw: Raw)
    ensures var l := LetterOf(cfg, raw);
            && (l.raises <==> Refused(cfg, raw))
            && (!l.raises ==> (Stays(Plan(l, jobs)) <==> !ToMove(cfg, jobs, raw)))
            && SentAs(SentFor(l.message), raw) && l.raw == raw
  {
    ParseReads(raw);
    PlanTells(cfg, jobs, raw);
    LetterPlans(cfg, jobs, raw);
  }

  lemma LettersSplit(cfg: Config, rs: seq<Raw>)
    requires rs != []
    ensures Letters(cfg, rs)[..|rs| - 1] == Letters(cfg, rs[..|rs| - 1])
    ensures Letters(cfg, rs)[|rs| - 1] == LetterOf(cfg, rs[|rs| - 1])
  {
  }

  lemma {:induction false} MoversAreChosen(cfg: Config, jobs: map<JobId, M.Job>, rs: seq<Raw>)
    requires forall i | 0 <= i < |rs| :: !Refused(cfg, rs[i])
    ensures RawAll(Movers(jobs, Letters(cfg, rs))) == Chosen(cfg, jobs, rs)
    ensures forall l | l in Movers(jobs, Letters(cfg, rs)) :: l == LetterOf(cfg, l.raw)
  {
    if rs != [] {
      var n := |rs| - 1;
      LettersSplit(cfg, rs);
      MoversAreChosen(cfg, jobs, rs[..n]);
      LetterTells(cfg, jobs, rs[n]);
      var before := Movers(jobs, Letters(cfg, rs[..n]));
      assert RawAll(before + [LetterOf(cfg, rs[n])]) == RawAll(before) + [rs[n]] && before + [] == before;
    }
  }

  /** n is where the database refuses a job id, or the end. */
  ghost predicate RunsUpTo(cfg: Config, rs: seq<Raw>, n: nat) {
    n <= |rs| && (forall i | 0 <= i < n :: !Refused(cfg, rs[i])) && (n < |rs| ==> Refused(cfg, rs[n]))
  }

  lemma RunsFurther(cfg: Config, rs: seq<Raw>, n: nat, raw: Raw, longer: seq<Raw>)
    requires RunsUpTo(cfg, rs, n) && longer == rs + [raw]
    ensures RunsUpTo(cfg, longer, if n < |rs| || Refused(cfg, raw) then n else n + 1)
  {
  }

  lemma TakesFurther(cfg: Config, rs: seq<Raw>, n: nat, raw: Raw, longer: seq<Raw>)
    requires RunsUpTo(cfg, rs, n) && longer == rs + [raw] && Taken(Letters(cfg, rs)) == Letters(cfg, rs[..n])
    ensures Taken(Letters(cfg, longer))
            == if n < |rs| || Refused(cfg, raw) then Letters(cfg, rs[..n]) else Letters(cfg, longer)
  {
    var ls, l := Letters(cfg, rs), LetterOf(cfg, raw);
    LetterTells(cfg, map[], raw);
    assert Letters(cfg, longer) == ls + [l];
    TakenGrows(ls, l, Letters(cfg, longer));
    if n < |rs| { assert |Letters(cfg, rs[..n])| < |ls|; } else { assert rs[..n] == rs; }
  }

  lemma {:induction false} TakenUpTo(cfg: Config, rs: seq<Raw>) returns (n: nat)
    ensures RunsUpTo(cfg, rs, n) && Taken(Letters(cfg, rs)) == Letters(cfg, rs[..n])
  {
    if rs == [] {
      n := 0;
    } else {
      var init, raw := rs[..|rs| - 1], rs[|rs| - 1];
      n := TakenUpTo(cfg, init);
      TakesFurther(cfg, init, n, raw, rs);
      RunsFurther(cfg, init, n, raw, rs);
      assert init[..n] == rs[..n] && rs[..|rs|] == rs;
      if n == |init| && !Refused(cfg, raw) { n := |rs|; }
    }
  }

  /** Some chosen message names j. */
  ghost predicate Reaches(cfg: Config, c: seq<Raw>, j: JobId) {
    exists i, id :: 0 <= i < |c| && NamesJob(c[i], id) && !cfg.skipDb && cfg.postgres(id) == Some(j)
  }

  /** The dead or failed jobs that chosen messages name. */
  ghost function Stuck(cfg: Config, jobs: map<JobId, M.Job>, c: seq<Raw>): set<JobId> {
    set j | j in jobs && jobs[j].status in {Dead, Failed} && Reaches(cfg, c, j)
  }

  /** The end of a real run that moved the messages c and nothing else. */
  ghost predicate Leaves(cfg: Config, s: Store, t: Store, c: seq<Raw>) {
    && t.dlq == s.dlq - multiset(c)
    && |t.main| == |s.main| + |c| && s.main <= t.main
    && (forall i | 0 <= i < |c| :: SentAs(t.main[|s.main| + i], c[i]))
    && t.jobs.Keys == s.jobs.Keys
    && (forall j | j in s.jobs ::
          t.jobs[j] == if j in Stuck(cfg, s.jobs, c)
                       then s.jobs[j].(status := Queued, attempts := 0, lastError := None) else s.jobs[j])
    && s.audit <= t.audit && |t.audit| == |s.audit| + |Stuck(cfg, s.jobs, c)|
    && (forall j | j in Stuck(cfg, s.jobs, c) :: M.JobRedriven(j) in t.audit[|s.audit|..])
  }

  lemma DeadAreReached(cfg: Config, jobs: map<JobId, M.Job>, ms: seq<Letter>, j: JobId)
    requires forall l | l in ms :: l == LetterOf(cfg, l.raw) && ToMove(cfg, jobs, l.raw)
    ensures j in DeadJobs(jobs, ms) <==> j in Stuck(cfg, jobs, RawAll(ms))
  {
    forall i | 0 <= i < |ms| && j in jobs && jobs[j].status in {Dead, Failed}
      ensures DeadTarget(jobs, ms[i]) == Some(j)
              <==> exists id :: NamesJob(RawAll(ms)[i], id) && !cfg.skipDb && cfg.postgres(id) == Some(j)
    {
      assert ms[i] in ms;
      var m := ParseDlqMessage(ms[i].raw);
      ParseReads(ms[i].raw);
      KeptForMoved(cfg, jobs, ms[i].raw);
      if m.jobId.Some? { assert NamesJob(ms[i].raw, m.jobId.value); }
    }
  }

  lemma KeptForMoved(cfg: Config, jobs: map<JobId, M.Job>, raw: Raw)
    requires ToMove(cfg, jobs, raw)
    ensures LetterOf(cfg, raw).kept.None? && ParseDlqMessage(raw).jobId.Some?
  {
    ParseReads(raw);
  }

  /**
   * A real run moves exactly the messages to be moved that come before the one the database refuses, in order; the
   * dead or failed jobs they name start afresh, each with an entry in the log; nothing else changes.
   */
  lemma RealRunLeaves(cfg: Config, store: Store, trace: seq<Progress>, rs: seq<Raw>) returns (n: nat)
    requires IsRun(cfg, false, store, trace, rs)
    ensures RunsUpTo(cfg, rs, n) && (trace[|rs|].aborted <==> n < |rs|)
    ensures var c := Chosen(cfg, store.jobs, rs[..n]);
            && Leaves(cfg, store, trace[|rs|].store, c) && trace[|rs|].moved == |c| && trace[|rs|].skipped == n - |c|
            && trace[|rs|].reset == |Stuck(cfg, store.jobs, c)|
  {
    n := TakenUpTo(cfg, rs);
    RealRunDoes(cfg, store, trace, rs);
    MoversAreChosen(cfg, store.jobs, rs[..n]);
    MovedLeaves(cfg, store, trace[|rs|].store, Movers(store.jobs, Letters(cfg, rs[..n])),
                Chosen(cfg, store.jobs, rs[..n]));
  }

  lemma MovedLeaves(cfg: Config, s: Store, t: Store, ms: seq<Letter>, c: seq<Raw>)
    requires RawAll(ms) == c && forall l | l in ms :: l == LetterOf(cfg, l.raw)
    requires forall raw | raw in c :: ToMove(cfg, s.jobs, raw)
    requires t.main == s.main + SentAll(ms) && t.dlq == s.dlq - multiset(c)
    requires t.jobs == Revived(s.jobs, DeadJobs(s.jobs, ms)) && LogsResets(s.audit, DeadJobs(s.jobs, ms), t.audit)
    ensures Leaves(cfg, s, t, c) && DeadJobs(s.jobs, ms) == Stuck(cfg, s.jobs, c)
  {
    forall i | 0 <= i < |c| ensures SentAs(t.main[|s.main| + i], c[i]) {
      assert ms[i] in ms && c[i] == ms[i].raw;
      LetterTells(cfg, s.jobs, c[i]);
    }
    forall l | l in ms ensures ToMove(cfg, s.jobs, l.raw) {
      var i :| 0 <= i < |ms| && ms[i] == l;
      assert RawAll(ms)[i] in c;
    }
    forall j ensures j in DeadJobs(s.jobs, ms) <==> j in Stuck(cfg, s.jobs, c) { DeadAreReached(cfg, s.jobs, ms, j); }
    assert DeadJobs(s.jobs, ms) == Stuck(cfg, s.jobs, c);
  }

  /** t is s but for letters, messages and the row of the one job the filter names. */
  ghost predicate OnlyFiltered(cfg: Config, s: Store, t: Store) {
    && s.main <= t.main && (forall i | |s.main| <= i < |t.main| :: t.main[i].jobId == Some(cfg.filter))
    && (forall raw | !NamesJob(raw, cfg.filter) :: t.dlq[raw] == s.dlq[raw])
    && t.jobs.Keys == s.jobs.Keys
    && (forall j | j in s.jobs && (cfg.skipDb || cfg.postgres(cfg.filter) != Some(j)) :: t.jobs[j] == s.jobs[j])
  }

  lemma ChosenAreFiltered(cfg: Config, s: Store, t: Store, c: seq<Raw>)
    requires Leaves(cfg, s, t, c) && cfg.filter != ""
    requires forall i, id | 0 <= i < |c| && NamesJob(c[i], id) :: id == cfg.filter
    requires forall i | 0 <= i < |c| :: NamesJob(c[i], cfg.filter)
    ensures OnlyFiltered(cfg, s, t)
  {
    forall i | |s.main| <= i < |t.main| ensures t.main[i].jobId == Some(cfg.filter) {
      assert SentAs(t.main[|s.main| + (i - |s.main|)], c[i - |s.main|]);
    }
    forall raw | !NamesJob(raw, cfg.filter) ensures t.dlq[raw] == s.dlq[raw] { assert raw !in c; }
  }

  /** With --job-id only that job's letters move and only its row changes. */
  lemma FilterIsObeyed(cfg: Config, store: Store, trace: seq<Progress>, rs: seq<Raw>)
    requires IsRun(cfg, false, store, trace, rs) && cfg.filter != ""
    ensures OnlyFiltered(cfg, store, trace[|rs|].store)
  {
    var n := RealRunLeaves(cfg, store, trace, rs);
    var c := Chosen(cfg, store.jobs, rs[..n]);
    forall i | 0 <= i < |c| ensures forall id :: NamesJob(c[i], id) <==> id == cfg.filter {
      assert c[i] in c;
      ParseReads(c[i]);
      var id :| Passes(cfg, c[i], id) && !Done(cfg, store.jobs, id);
    }
    ChosenAreFiltered(cfg, store, trace[|rs|].store, c);
  }
}
