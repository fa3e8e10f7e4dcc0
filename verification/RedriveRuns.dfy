/** Redrive and the job machine agree: each message of a real run, and the whole run, is a run of the machine. */
module RedriveRuns {
  import opened Domain
  import opened JobMachine
  import NoLostWork
  import ExactlyOnce
  import R = Redrive

  function Commands(q: Pid, es: seq<RedriveEvent>): seq<Event> {
    seq(|es|, i requires 0 <= i < |es| => OfRedrive(q, es[i]))
  }

  lemma RunRedrive(s: State, q: Pid, e: RedriveEvent, es: seq<RedriveEvent>)
    ensures Run(s, Commands(q, [e] + es)) == Run(NextRedrive(s, q, e), Commands(q, es))
  {
    assert Commands(q, [e] + es)[1..] == Commands(q, es);
  }

  /** The row the message names, if the command asks for one, is the row the dead letter m names. */
  predicate SameJob(dlq: map<Id, Msg>, m: Id, cfg: R.Config, raw: R.Raw) {
    m in dlq && R.Target(cfg, R.ParseDlqMessage(raw)) in {None, Some(dlq[m].jobId)}
  }

  /** The table part of the command's store is the machine's, and m is the dead letter received. */
  predicate Pictures(s: State, m: Id, cfg: R.Config, store: R.Store, raw: R.Raw) {
    s.db.jobs == store.jobs && s.db.audit == store.audit && SameJob(s.queues.dlq, m, cfg, raw)
  }

  const SENDING: seq<RedriveEvent> := [Resent] + ([Removed] + [])

  function Resetting(jobs: map<Id, Job>, j: Id): seq<RedriveEvent> {
    [JobReset] + ((if Resettable(jobs, j) then [ResetAudited] else []) + SENDING)
  }

  /** What the loop does with one message that the database does not refuse. */
  function Schedule(cfg: R.Config, jobs: map<Id, Job>, m: Id, msg: Msg, a: R.Action): seq<RedriveEvent> {
    [TakeDeadLetter(m, !cfg.skipDb)]
    + if R.Stays(a) then [if a.reason == Some(R.JobAlreadySucceeded) && !cfg.skipDb then Planned else Skipped] + []
      else if cfg.skipDb then SENDING
      else [Planned] + if a.reset then Resetting(jobs, msg.jobId) else SENDING
  }

  /** The message is on the main queue again and no longer a dead letter. */
  function Moved(s: State, m: Id): State
    requires m in s.queues.dlq
  {
    var sent := SendTo(s.queues, s.nextId, s.queues.dlq[m].(receives := 0));
    s.(queues := sent.(dlq := s.queues.dlq - {m}), nextId := s.nextId + 1)
  }

  function Without(s: State, q: Pid): State { s.(redrives := s.redrives - {q}) }

  lemma SendingRuns(s: State, q: Pid, m: Id)
    requires m in s.queues.dlq && q in s.redrives && s.redrives[q] == Resend(m, s.queues.dlq[m])
    ensures Run(s, Commands(q, SENDING)) == Without(Moved(s, m), q)
  {
    var s1 := NextRedrive(s, q, Resent);
    RunRedrive(s, q, Resent, [Removed] + []);
    RunRedrive(s1, q, Removed, []);
    assert Commands(q, []) == [] && s1.redrives - {q} == s.redrives - {q};
  }

  /** The tables after the reset, when it takes effect. */
  function WithReset(s: State, j: Id): State {
    if Resettable(s.db.jobs, j)
    then s.(db := ResetJob(s.db, j).(audit := s.db.audit + [JobRedriven(j)]), marks := s.marks + [WasReset(j)])
    else s
  }

  lemma ResettingRuns(s: State, q: Pid, m: Id)
    requires m in s.queues.dlq && q in s.redrives && s.redrives[q] == Reset(m, s.queues.dlq[m])
    ensures var j := s.queues.dlq[m].jobId;
            Run(s, Commands(q, Resetting(s.db.jobs, j))) == Without(Moved(WithReset(s, j), m), q)
  {
    var msg := s.queues.dlq[m];
    var s1 := NextRedrive(s, q, JobReset);
    RunRedrive(s, q, JobReset, (if Resettable(s.db.jobs, msg.jobId) then [ResetAudited] else []) + SENDING);
    assert s1.redrives - {q} == s.redrives - {q};
    if Resettable(s.db.jobs, msg.jobId) {
      RunRedrive(s1, q, ResetAudited, SENDING);
      var s2 := NextRedrive(s1, q, ResetAudited);
      SendingRuns(s2, q, m);
      assert s2.redrives - {q} == s.redrives - {q};
    } else {
      assert [] + SENDING == SENDING;
      SendingRuns(s1, q, m);
    }
  }

  /** The state after one message, with the tables of the command's own specification. */
  ghost predicate Follows(s: State, t: State, m: Id, a: R.Action, after: R.Store)
    requires m in s.queues.dlq
  {
    && t.db == s.db.(jobs := after.jobs, audit := after.audit) && t.redrives == s.redrives
    && (t.queues, t.nextId) == (if R.Stays(a) then (s.queues, s.nextId) else (Moved(s, m).queues, s.nextId + 1))
    && t.workers == s.workers && t.api == s.api && t.returned == s.returned
  }

  /** The machine, run on the schedule for this message, ends where the command does. */
  ghost predicate IsRunOfMachine(s: State, q: Pid, m: Id, cfg: R.Config, p: R.Progress, raw: R.Raw)
    requires m in s.queues.dlq
  {
    var a := R.PlanFor(cfg, s.db.jobs, raw);
    var es := Schedule(cfg, s.db.jobs, m, s.queues.dlq[m], a);
    Follows(s, Run(s, Commands(q, es)), m, a, R.Handled(cfg, false, p, raw).store)
  }

  /** The status lookup of a message to be moved. */
  lemma Planning(s: State, q: Pid, m: Id, cfg: R.Config, raw: R.Raw)
    requires SameJob(s.queues.dlq, m, cfg, raw) && q !in s.redrives && !cfg.skipDb
    requires !R.Raises(cfg, R.ParseDlqMessage(raw)) && !R.Stays(R.PlanFor(cfg, s.db.jobs, raw))
    ensures var msg := s.queues.dlq[m];
            var next := if R.PlanFor(cfg, s.db.jobs, raw).reset then Reset(m, msg) else Resend(m, msg);
            NextRedrive(NextRedrive(s, q, TakeDeadLetter(m, true)), q, Planned)
            == s.(redrives := s.redrives[q := next])
  {
    var s1 := NextRedrive(s, q, TakeDeadLetter(m, true));
    assert s1 == s.(redrives := s.redrives[q := Plan(m, s.queues.dlq[m])]);
  }

  lemma PlannedRuns(s: State, q: Pid, m: Id, cfg: R.Config, p: R.Progress, raw: R.Raw)
    requires Pictures(s, m, cfg, p.store, raw) && q !in s.redrives && !p.aborted && !cfg.skipDb
    requires !R.Raises(cfg, R.ParseDlqMessage(raw)) && !R.Stays(R.PlanFor(cfg, s.db.jobs, raw))
    ensures IsRunOfMachine(s, q, m, cfg, p, raw)
  {
    var a, msg := R.PlanFor(cfg, s.db.jobs, raw), s.queues.dlq[m];
    var rest := if a.reset then Resetting(s.db.jobs, msg.jobId) else SENDING;
    RunRedrive(s, q, TakeDeadLetter(m, true), [Planned] + rest);
    var s1 := NextRedrive(s, q, TakeDeadLetter(m, true));
    RunRedrive(s1, q, Planned, rest);
    var s2 := NextRedrive(s1, q, Planned);
    Planning(s, q, m, cfg, raw);
    assert s2.redrives - {q} == s.redrives;
    if a.reset { ResettingRuns(s2, q, m); } else { SendingRuns(s2, q, m); }
  }

  lemma UnplannedRuns(s: State, q: Pid, m: Id, cfg: R.Config, p: R.Progress, raw: R.Raw)
    requires Pictures(s, m, cfg, p.store, raw) && q !in s.redrives && !p.aborted && cfg.skipDb
    requires !R.Stays(R.PlanFor(cfg, s.db.jobs, raw))
    ensures IsRunOfMachine(s, q, m, cfg, p, raw)
  {
    RunRedrive(s, q, TakeDeadLetter(m, false), SENDING);
    var s1 := NextRedrive(s, q, TakeDeadLetter(m, false));
    SendingRuns(s1, q, m);
    assert s1.redrives - {q} == s.redrives;
  }

  lemma SkippingRuns(s: State, q: Pid, m: Id, cfg: R.Config, p: R.Progress, raw: R.Raw)
    requires Pictures(s, m, cfg, p.store, raw) && q !in s.redrives && !p.aborted
    requires !R.Raises(cfg, R.ParseDlqMessage(raw)) && R.Stays(R.PlanFor(cfg, s.db.jobs, raw))
    ensures IsRunOfMachine(s, q, m, cfg, p, raw)
  {
    var a := R.PlanFor(cfg, s.db.jobs, raw);
    var e := if a.reason == Some(R.JobAlreadySucceeded) && !cfg.skipDb then Planned else Skipped;
    RunRedrive(s, q, TakeDeadLetter(m, !cfg.skipDb), [e] + []);
    var s1 := NextRedrive(s, q, TakeDeadLetter(m, !cfg.skipDb));
    RunRedrive(s1, q, e, []);
    assert Commands(q, []) == [] && s1.redrives - {q} == s.redrives;
  }

  /** One message of a real run is a run of the machine: same job rows, same audit log, same move between the queues. */
  lemma HandledIsRun(s: State, q: Pid, m: Id, cfg: R.Config, p: R.Progress, raw: R.Raw)
    requires Pictures(s, m, cfg, p.store, raw) && q !in s.redrives && !p.aborted
    requires !R.Raises(cfg, R.ParseDlqMessage(raw))
    ensures IsRunOfMachine(s, q, m, cfg, p, raw)
  {
    if R.Stays(R.PlanFor(cfg, s.db.jobs, raw)) { SkippingRuns(s, q, m, cfg, p, raw); }
    else if cfg.skipDb { UnplannedRuns(s, q, m, cfg, p, raw); }
    else { PlannedRuns(s, q, m, cfg, p, raw); }
  }

  // ---------------------------------------------------------------- a whole run

  predicate WasMoved(trace: seq<R.Progress>, i: nat)
    requires i + 1 < |trace|
  {
    trace[i].moved < trace[i + 1].moved
  }

  /** The dead letters gone after n messages; ms[i] is the identifier of the i-th one received. */
  ghost function Gone(trace: seq<R.Progress>, ms: seq<Id>, n: nat): set<Id>
    requires n <= |ms| && n < |trace|
  {
    set i | 0 <= i < n && WasMoved(trace, i) :: ms[i]
  }

  /** ms are dead letters of s for the messages rs; a letter may come again, but not once it was moved. */
  ghost predicate Received(s: State, cfg: R.Config, trace: seq<R.Progress>, rs: seq<R.Raw>, ms: seq<Id>) {
    && |ms| == |rs| && |trace| == |rs| + 1
    && (forall k | 0 <= k < |rs| :: SameJob(s.queues.dlq, ms[k], cfg, rs[k]))
    && (forall i, k | 0 <= i < k < |rs| && WasMoved(trace, i) :: ms[i] != ms[k])
  }

  /** Each moved letter is on the main queue, under the identifier its move took; base is the first of these. */
  ghost predicate Forwarded(before: map<Id, Msg>, base: Id, dlq: map<Id, Msg>, main: map<Id, Msg>,
                            trace: seq<R.Progress>, ms: seq<Id>, n: nat)
    requires n <= |ms| && n < |trace| && forall m | m in ms :: m in dlq
  {
    && (forall x :: x in main <==> x in before || base <= x < base + trace[n].moved)
    && (forall x | x in before && x < base :: x in main && main[x] == before[x])
    && (forall i {:trigger WasMoved(trace, i)} | 0 <= i < n && WasMoved(trace, i) ::
          && trace[i].moved < trace[n].moved && base + trace[i].moved in main
          && main[base + trace[i].moved] == dlq[ms[i]].(receives := 0))
  }

  /** t differs from s by what the command reports after n messages, and by nothing else. */
  ghost predicate Reached(s: State, t: State, trace: seq<R.Progress>, ms: seq<Id>, n: nat)
    requires n <= |ms| && n < |trace| && forall m | m in ms :: m in s.queues.dlq
  {
    && t.db == s.db.(jobs := trace[n].store.jobs, audit := trace[n].store.audit)
    && t.redrives == s.redrives && t.workers == s.workers && t.api == s.api && t.returned == s.returned
    && t.queues.dlq == s.queues.dlq - Gone(trace, ms, n) && |Gone(trace, ms, n)| == trace[n].moved
    && t.nextId == s.nextId + trace[n].moved
    && Forwarded(s.queues.main, s.nextId, s.queues.dlq, t.queues.main, trace, ms, n)
  }

  lemma ForwardedOneMore(before: map<Id, Msg>, base: Id, dlq: map<Id, Msg>, main: map<Id, Msg>,
                         trace: seq<R.Progress>, ms: seq<Id>, n: nat, id: Id, msg: Msg, longer: map<Id, Msg>)
    requires n < |ms| && n + 1 < |trace| && (forall m | m in ms :: m in dlq)
    requires Forwarded(before, base, dlq, main, trace, ms, n) && trace[n + 1].moved == trace[n].moved + 1
    requires id == base + trace[n].moved && msg == dlq[ms[n]].(receives := 0) && longer == main[id := msg]
    ensures Forwarded(before, base, dlq, longer, trace, ms, n + 1)
  {
  }

  lemma HandledCounts(cfg: R.Config, p: R.Progress, raw: R.Raw)
    ensures var next := R.Handled(cfg, false, p, raw);
            if p.aborted || R.Raises(cfg, R.ParseDlqMessage(raw)) then next == p.(aborted := true)
            else next.moved == p.moved + if R.Stays(R.PlanFor(cfg, p.store.jobs, raw)) then 0 else 1
  {
  }

  lemma GoneGrows(trace: seq<R.Progress>, ms: seq<Id>, n: nat)
    requires n < |ms| && n + 1 < |trace|
    ensures Gone(trace, ms, n + 1) == Gone(trace, ms, n) + if WasMoved(trace, n) then {ms[n]} else {}
  {
  }

  lemma LetterGone(dlq: map<Id, Msg>, gone: set<Id>, m: Id, now: map<Id, Msg>, more: set<Id>)
    requires m in dlq && m !in gone && now == dlq - gone - {m} && more == gone + {m}
    ensures now == dlq - more && |more| == |gone| + 1
  {
  }

  lemma MoveReaches(s: State, t: State, u: State, trace: seq<R.Progress>, ms: seq<Id>, n: nat)
    requires n < |ms| && n + 1 < |trace| && (forall m | m in ms :: m in s.queues.dlq) && Reached(s, t, trace, ms, n)
    requires trace[n + 1].moved == trace[n].moved + 1 && ms[n] in t.queues.dlq
    requires u.db == t.db.(jobs := trace[n + 1].store.jobs, audit := trace[n + 1].store.audit)
    requires u.redrives == t.redrives && u.workers == t.workers && u.api == t.api && u.returned == t.returned
    requires u.queues.dlq == t.queues.dlq - {ms[n]} && u.nextId == t.nextId + 1
    requires u.queues.main == t.queues.main[t.nextId := s.queues.dlq[ms[n]].(receives := 0)]
    ensures Reached(s, u, trace, ms, n + 1)
  {
    GoneGrows(trace, ms, n);
    LetterGone(s.queues.dlq, Gone(trace, ms, n), ms[n], u.queues.dlq, Gone(trace, ms, n + 1));
    ForwardedOneMore(s.queues.main, s.nextId, s.queues.dlq, t.queues.main, trace, ms, n, t.nextId,
                     s.queues.dlq[ms[n]].(receives := 0), u.queues.main);
  }

  lemma ReachedNext(s: State, t: State, u: State, trace: seq<R.Progress>, ms: seq<Id>, n: nat, a: R.Action)
    requires n < |ms| && n + 1 < |trace| && (forall m | m in ms :: m in s.queues.dlq) && Reached(s, t, trace, ms, n)
    requires ms[n] in t.queues.dlq && Follows(t, u, ms[n], a, trace[n + 1].store)
    requires trace[n + 1].moved == trace[n].moved + if R.Stays(a) then 0 else 1
    ensures Reached(s, u, trace, ms, n + 1)
  {
    if R.Stays(a) { GoneGrows(trace, ms, n); } else { MoveReaches(s, t, u, trace, ms, n); }
  }

  lemma ReachedStill(s: State, t: State, trace: seq<R.Progress>, ms: seq<Id>, n: nat)
    requires n < |ms| && n + 1 < |trace| && (forall m | m in ms :: m in s.queues.dlq) && Reached(s, t, trace, ms, n)
    requires trace[n + 1] == trace[n].(aborted := true)
    ensures Reached(s, t, trace, ms, n + 1)
  {
    GoneGrows(trace, ms, n);
  }

  lemma OneMore(s: State, t: State, q: Pid, cfg: R.Config, trace: seq<R.Progress>, rs: seq<R.Raw>, ms: seq<Id>, n: nat)
    returns (es: seq<RedriveEvent>)
    requires Received(s, cfg, trace, rs, ms) && q !in s.redrives && n < |rs| && Reached(s, t, trace, ms, n)
    requires trace[n + 1] == R.Handled(cfg, false, trace[n], rs[n])
    ensures Reached(s, Run(t, Commands(q, es)), trace, ms, n + 1)
  {
    HandledCounts(cfg, trace[n], rs[n]);
    if trace[n].aborted || R.Raises(cfg, R.ParseDlqMessage(rs[n])) {
      es := [];
      assert Commands(q, es) == [];
      ReachedStill(s, t, trace, ms, n);
    } else {
      var a := R.PlanFor(cfg, t.db.jobs, rs[n]);
      HandledIsRun(t, q, ms[n], cfg, trace[n], rs[n]);
      es := Schedule(cfg, t.db.jobs, ms[n], t.queues.dlq[ms[n]], a);
      ReachedNext(s, t, Run(t, Commands(q, es)), trace, ms, n, a);
    }
  }

  lemma RunCommands(s: State, q: Pid, first: seq<RedriveEvent>, more: seq<RedriveEvent>)
    ensures Run(s, Commands(q, first + more)) == Run(Run(s, Commands(q, first)), Commands(q, more))
  {
    assert Commands(q, first + more) == Commands(q, first) + Commands(q, more);
    ExactlyOnce.RunSplits(s, Commands(q, first), Commands(q, more));
  }

  lemma {:induction false} PrefixIsRun(s: State, q: Pid, cfg: R.Config, store: R.Store, trace: seq<R.Progress>,
                                       rs: seq<R.Raw>, ms: seq<Id>, n: nat)
    returns (es: seq<RedriveEvent>)
    requires R.IsRun(cfg, false, store, trace, rs) && Received(s, cfg, trace, rs, ms)
    requires s.db.jobs == store.jobs && s.db.audit == store.audit && q !in s.redrives && n <= |rs|
    ensures Reached(s, Run(s, Commands(q, es)), trace, ms, n)
    decreases n
  {
    if n == 0 {
      es := [];
      assert Commands(q, es) == [];
    } else {
      var first := PrefixIsRun(s, q, cfg, store, trace, rs, ms, n - 1);
      assert trace[n] == R.Handled(cfg, false, trace[n - 1], rs[n - 1]);
      var more := OneMore(s, Run(s, Commands(q, first)), q, cfg, trace, rs, ms, n - 1);
      RunCommands(s, q, first, more);
      es := first + more;
    }
  }

  /**
   * A whole real run is a run of the machine: the job rows and the audit log it reports, the moved letters gone from
   * the dead-letter queue and each on the main queue as sent, everything else untouched. So it keeps all that
   * NoLostWork and ExactlyOnce say of a state.
   */
  lemma RedriveIsRun(s: State, q: Pid, cfg: R.Config, store: R.Store, trace: seq<R.Progress>, rs: seq<R.Raw>,
                     ms: seq<Id>)
    returns (es: seq<RedriveEvent>)
    requires R.IsRun(cfg, false, store, trace, rs) && Received(s, cfg, trace, rs, ms)
    requires s.db.jobs == store.jobs && s.db.audit == store.audit && q !in s.redrives
    ensures Reached(s, Run(s, Commands(q, es)), trace, ms, |rs|)
    ensures NoLostWork.WorkInv(s) ==> NoLostWork.WorkInv(Run(s, Commands(q, es)))
    ensures ExactlyOnce.EffectInv(s) ==> ExactlyOnce.EffectInv(Run(s, Commands(q, es)))
  {
    es := PrefixIsRun(s, q, cfg, store, trace, rs, ms, |rs|);
    if NoLostWork.WorkInv(s) { NoLostWork.RunKeepsWorkInv(s, Commands(q, es)); }
    if ExactlyOnce.EffectInv(s) { ExactlyOnce.RunKeepsEffectInv(s, Commands(q, es)); }
  }
}
