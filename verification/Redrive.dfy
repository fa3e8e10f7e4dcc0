/** The redrive command: which dead letters go back to the main queue, and which job rows are reset. */
module Redrive {
  import opened Domain
  import M = JobMachine

  type JobId = M.Id

  /** The three fields of interest in a JSON body, in their string form; "" when absent or falsy. */
  datatype Fields = Fields(jobId: string, contentId: string, contentHash: string)

  /** A message as the queue hands it out; fields is what its body holds when that is a JSON object. */
  datatype Raw = Raw(messageId: string, receipt: string, body: string, fields: Option<Fields>,
                     jobIdAttr: Option<string>, hashAttr: Option<string>)

  datatype DlqMessage = DlqMessage(messageId: string, receipt: string, body: string,
                                   jobId: Option<string>, contentId: Option<string>, contentHash: Option<string>)

  function NonEmpty(s: string): Option<string> { if |s| == 0 then None else Some(s) }

  function OrAttr(field: string, attr: Option<string>): string {
    if |field| == 0 && attr.Some? then attr.value else field
  }

  function ParseDlqMessage(raw: Raw): DlqMessage {
    var f := if raw.fields.Some? then raw.fields.value else Fields("", "", "");
    DlqMessage(raw.messageId, raw.receipt, raw.body, NonEmpty(OrAttr(f.jobId, raw.jobIdAttr)),
               NonEmpty(f.contentId), NonEmpty(OrAttr(f.contentHash, raw.hashAttr)))
  }

  datatype Reason = EmptyBody | MissingJobId | InvalidJobId | JobIdFilter | JobAlreadySucceeded
                  | JobStatusQueued | JobStatusProcessing

  datatype Action = Action(reset: bool, reason: Option<Reason>)

  /** python is what UUID() accepts; postgres is what the driver's uuid parameter accepts, and the row it names. */
  datatype Config = Config(python: string -> bool, postgres: string -> Option<JobId>, filter: string, skipDb: bool)

  function PlanRedrive(cfg: Config, m: DlqMessage, status: Option<JobStatus>): Action {
    if |m.body| == 0 then Action(false, Some(EmptyBody))
    else if m.jobId.None? then Action(false, Some(MissingJobId))
    else if !cfg.python(m.jobId.value) then Action(false, Some(InvalidJobId))
    else if |cfg.filter| > 0 && m.jobId.value != cfg.filter then Action(false, Some(JobIdFilter))
    else match status
      case None => Action(true, None)
      case Some(Dead) => Action(true, None)
      case Some(Failed) => Action(true, None)
      case Some(Succeeded) => Action(false, Some(JobAlreadySucceeded))
      case Some(Queued) => Action(false, Some(JobStatusQueued))
      case Some(Processing) => Action(false, Some(JobStatusProcessing))
  }

  /** The reasons for which a message stays in the dead-letter queue. */
  predicate Stays(a: Action) {
    a.reason.Some? && a.reason.value in {EmptyBody, MissingJobId, InvalidJobId, JobIdFilter, JobAlreadySucceeded}
  }

  datatype Sent = Sent(body: string, contentHash: Option<string>, jobId: Option<string>)

  datatype Store = Store(jobs: map<JobId, M.Job>, audit: seq<M.AuditEntry>, main: seq<Sent>, dlq: multiset<Raw>)

  /** One printed line per message. */
  datatype Line = Skip(messageId: string, reason: Reason) | Move(messageId: string, reset: bool)

  datatype Progress = Progress(store: Store, moved: nat, skipped: nat, reset: nat, lines: seq<Line>, aborted: bool)

  // ---------------------------------------------------------------- specification

  /** The row a message names, when there is a database to ask. */
  function Target(cfg: Config, m: DlqMessage): Option<JobId> {
    if cfg.skipDb || m.jobId.None? then None else cfg.postgres(m.jobId.value)
  }

  /** The status lookup raises on a job id the database cannot read as a uuid. */
  predicate Raises(cfg: Config, m: DlqMessage) { !cfg.skipDb && m.jobId.Some? && cfg.postgres(m.jobId.value).None? }

  function StatusOf(jobs: map<JobId, M.Job>, j: Option<JobId>): Option<JobStatus> {
    if j.Some? && j.value in jobs then Some(jobs[j.value].status) else None
  }

  function SentFor(m: DlqMessage): Sent { Sent(m.body, m.contentHash, m.jobId) }

  /** Reset first, so that the worker does not meet a dead row; then send, then delete. */
  function Forwarded(s: Store, raw: Raw, m: DlqMessage, j: Option<JobId>, reset: bool): (Store, bool) {
    var cleared := reset && j.Some? && M.Resettable(s.jobs, j.value);
    var t := s.(main := s.main + [SentFor(m)], dlq := s.dlq - multiset{raw});
    if cleared then
      (t.(jobs := s.jobs[j.value := M.Requeued(s.jobs[j.value])], audit := s.audit + [M.JobRedriven(j.value)]), true)
    else (t, false)
  }

  function PlanFor(cfg: Config, jobs: map<JobId, M.Job>, raw: Raw): Action {
    var m := ParseDlqMessage(raw);
    PlanRedrive(cfg, m, StatusOf(jobs, Target(cfg, m)))
  }

  /** A message whose plan is a. */
  function Advanced(dryRun: bool, p: Progress, raw: Raw, m: DlqMessage, j: Option<JobId>, a: Action): Progress {
    if Stays(a) then p.(skipped := p.skipped + 1, lines := p.lines + [Skip(m.messageId, a.reason.value)])
    else
      var (store, reset) := if dryRun then (p.store, a.reset) else Forwarded(p.store, raw, m, j, a.reset);
      p.(store := store, moved := p.moved + 1, reset := p.reset + if reset then 1 else 0,
         lines := p.lines + [Move(m.messageId, a.reset)])
  }

  /** One message, in a dry run or for real. */
  function Handled(cfg: Config, dryRun: bool, p: Progress, raw: Raw): Progress {
    var m := ParseDlqMessage(raw);
    if p.aborted || Raises(cfg, m) then p.(aborted := true)
    else Advanced(dryRun, p, raw, m, Target(cfg, m), PlanFor(cfg, p.store.jobs, raw))
  }

  /** A run over rs from store, told by how far things were before each message and after the last. */
  ghost predicate IsRun(cfg: Config, dryRun: bool, store: Store, trace: seq<Progress>, rs: seq<Raw>) {
    && |trace| == |rs| + 1 && trace[0] == Progress(store, 0, 0, 0, [], false)
    && forall k {:trigger Handled(cfg, dryRun, trace[k], rs[k])} ::
         0 <= k < |rs| ==> trace[k + 1] == Handled(cfg, dryRun, trace[k], rs[k])
  }

  lemma RunGrows(cfg: Config, dryRun: bool, store: Store, trace: seq<Progress>, arrivals: seq<Raw>, n: nat, p: Progress)
    requires n < |arrivals| && IsRun(cfg, dryRun, store, trace, arrivals[..n])
    requires p == Handled(cfg, dryRun, trace[n], arrivals[n])
    ensures IsRun(cfg, dryRun, store, trace + [p], arrivals[..n + 1])
  {
    var longer, rs := trace + [p], arrivals[..n + 1];
    forall k {:trigger Handled(cfg, dryRun, longer[k], rs[k])} | 0 <= k < n + 1
      ensures longer[k + 1] == Handled(cfg, dryRun, longer[k], rs[k])
    {
      if k < n {
        assert longer[k] == trace[k] && rs[k] == arrivals[..n][k];
        assert trace[k + 1] == Handled(cfg, dryRun, trace[k], arrivals[..n][k]);
      }
    }
  }

  // ---------------------------------------------------------------- the command

  /** The counters of the final summary, and what was printed. */
  datatype Tally = Tally(moved: nat, skipped: nat, reset: nat, lines: seq<Line>)

  function Report(store: Store, t: Tally, aborted: bool): Progress {
    Progress(store, t.moved, t.skipped, t.reset, t.lines, aborted)
  }

  class Redriver {
    var jobs: map<JobId, M.Job>
    var audit: seq<M.AuditEntry>
    var main: seq<Sent>
    var dlq: multiset<Raw>

    function View(): Store
      reads this
    {
      Store(jobs, audit, main, dlq)
    }

    method ResetJobForRedrive(j: JobId) returns (done: bool)
      modifies `jobs, `audit
      ensures done <==> M.Resettable(old(jobs), j)
      ensures done ==> jobs == old(jobs)[j := M.Requeued(old(jobs)[j])] && audit == old(audit) + [M.JobRedriven(j)]
      ensures !done ==> jobs == old(jobs) && audit == old(audit)
    {
      if j !in jobs || (jobs[j].status != Dead && jobs[j].status != Failed) { return false; }
      jobs := jobs[j := jobs[j].(status := Queued, attempts := 0, lastError := None)];
      audit := audit + [M.JobRedriven(j)];
      return true;
    }

    method Forward(cfg: Config, raw: Raw, m: DlqMessage, reset: bool) returns (done: bool)
      requires !Raises(cfg, m)
      modifies `jobs, `audit, `main, `dlq
      ensures (View(), done) == Forwarded(old(View()), raw, m, Target(cfg, m), reset)
    {
      done := false;
      if reset && !cfg.skipDb && m.jobId.Some? {
        done := ResetJobForRedrive(cfg.postgres(m.jobId.value).value);
      }
      main := main + [SentFor(m)];
      dlq := dlq - multiset{raw};
    }

    /** One received message; raised is the database refusing its job id. */
    method Consume(cfg: Config, dryRun: bool, raw: Raw, t: Tally) returns (raised: bool, tally: Tally)
      modifies `jobs, `audit, `main, `dlq
      ensures Report(View(), tally, raised) == Handled(cfg, dryRun, Report(old(View()), t, false), raw)
      ensures tally.moved + tally.skipped == t.moved + t.skipped + if raised then 0 else 1
    {
      raised, tally := false, t;
      var m := ParseDlqMessage(raw);
      var status := None;
      if !cfg.skipDb && m.jobId.Some? {
        var j := cfg.postgres(m.jobId.value);
        if j.None? { return true, t; }
        status := StatusOf(jobs, j);
      }
      var action := PlanRedrive(cfg, m, status);
      if Stays(action) {
        tally := tally.(skipped := t.skipped + 1, lines := t.lines + [Skip(m.messageId, action.reason.value)]);
        return;
      }
      tally := tally.(lines := t.lines + [Move(m.messageId, action.reset)]);
      if dryRun {
        tally := tally.(moved := t.moved + 1, reset := t.reset + if action.reset then 1 else 0);
        return;
      }
      var done := Forward(cfg, raw, m, action.reset);
      tally := tally.(moved := t.moved + 1, reset := t.reset + if done then 1 else 0);
    }

    /** The messages arrivals[from..to] of one receive; upto is where the loop stopped. */
    method ConsumeBatch(cfg: Config, dryRun: bool, arrivals: seq<Raw>, from: nat, to: nat, t: Tally,
                        ghost start: Store, ghost before: seq<Progress>)
      returns (raised: bool, tally: Tally, upto: nat, ghost trace: seq<Progress>)
      requires from <= to <= |arrivals| && IsRun(cfg, dryRun, start, before, arrivals[..from])
      requires before[from] == Report(View(), t, false)
      modifies `jobs, `audit, `main, `dlq
      ensures from <= upto <= to && (raised || upto == to) && (from < to ==> from < upto)
      ensures IsRun(cfg, dryRun, start, trace, arrivals[..upto]) && trace[upto] == Report(View(), tally, raised)
      ensures !raised ==> tally.moved + tally.skipped == t.moved + t.skipped + to - from
    {
      raised, tally, upto, trace := false, t, from, before;
      while upto < to && !raised
        invariant from <= upto <= to && (raised ==> from < upto)
        invariant IsRun(cfg, dryRun, start, trace, arrivals[..upto]) && trace[upto] == Report(View(), tally, raised)
        invariant !raised ==> tally.moved + tally.skipped == t.moved + t.skipped + upto - from
      {
        raised, tally := Consume(cfg, dryRun, arrivals[upto], tally);
        RunGrows(cfg, dryRun, start, trace, arrivals, upto, Report(View(), tally, raised));
        trace, upto := trace + [Report(View(), tally, raised)], upto + 1;
      }
    }

    /**
     * arrivals is what the dead-letter queue holds, in the order it hands it out, and offers how many it is ready to
     * hand out at each receive; an empty answer ends the run. received is how many this run took.
     */
    method Redrive(cfg: Config, dryRun: bool, limit: int, arrivals: seq<Raw>, offers: seq<nat>)
      returns (aborted: bool, tally: Tally, received: nat, ghost trace: seq<Progress>)
      modifies `jobs, `audit, `main, `dlq
      ensures received <= |arrivals| && received <= Drained(limit, |arrivals|, offers)
      ensures IsRun(cfg, dryRun, old(View()), trace, arrivals[..received])
      ensures trace[received] == Report(View(), tally, aborted)
      ensures !aborted ==>
                tally.moved + tally.skipped == received && received == Drained(limit, |arrivals|, offers)
    {
      aborted, tally, received := false, Tally(0, 0, 0, []), 0;
      trace := [Report(View(), tally, false)];
      var remaining, calls := limit, 0;
      while remaining > 0 && !aborted && calls < |offers|
        invariant calls <= |offers| && received == limit - remaining <= |arrivals|
        invariant !aborted ==> tally.moved + tally.skipped == received
        invariant !aborted ==>
            Drained(limit, |arrivals|, offers) == received + Drained(remaining, |arrivals| - received, offers[calls..])
        invariant received <= Drained(limit, |arrivals|, offers)
        invariant IsRun(cfg, dryRun, old(View()), trace, arrivals[..received])
        invariant trace[received] == Report(View(), tally, aborted)
      {
        var count := Batch(remaining, |arrivals| - received, offers[calls]);
        DrainsOnce(remaining, |arrivals| - received, offers, calls);
        calls := calls + 1;
        if count == 0 { break; }
        var upto;
        aborted, tally, upto, trace :=
          ConsumeBatch(cfg, dryRun, arrivals, received, received + count, tally, old(View()), trace);
        received, remaining := upto, remaining - (upto - received);
      }
    }
  }

  /** What one receive returns: ten messages at most, no more than asked for, waiting or offered. */
  function Batch(remaining: int, waiting: nat, offer: nat): nat
    requires remaining > 0
  {
    var asked := if remaining < 10 then remaining else 10;
    var most := if waiting < asked then waiting else asked;
    if offer < most then offer else most
  }

  /** How many messages a run takes that no message ends. */
  function Drained(limit: int, waiting: nat, offers: seq<nat>): nat {
    if limit <= 0 || offers == [] then 0
    else
      var n := Batch(limit, waiting, offers[0]);
      if n == 0 then 0 else n + Drained(limit - n, waiting - n, offers[1..])
  }

  lemma DrainsOnce(limit: int, waiting: nat, offers: seq<nat>, calls: nat)
    requires limit > 0 && calls < |offers|
    ensures var n := Batch(limit, waiting, offers[calls]);
            Drained(limit, waiting, offers[calls..])
            == if n == 0 then 0 else n + Drained(limit - n, waiting - n, offers[calls + 1..])
  {
    assert offers[calls..][1..] == offers[calls + 1..];
  }

  /** While the queue hands out something at each receive, a run takes all that waits, up to the limit. */
  lemma {:induction false} DrainsUpToLimit(limit: int, waiting: nat, offers: seq<nat>)
    requires (forall i | 0 <= i < |offers| :: offers[i] > 0) && |offers| >= waiting
    ensures Drained(limit, waiting, offers) == if limit <= 0 then 0 else if limit < waiting then limit else waiting
    decreases |offers|
  {
    if limit > 0 && offers != [] && waiting > 0 {
      var n := Batch(limit, waiting, offers[0]);
      DrainsUpToLimit(limit - n, waiting - n, offers[1..]);
    }
  }

  /** One receive takes the least of ten, the limit, what waits and what is offered. */
  lemma OneReceive(limit: int, waiting: nat, offer: nat)
    ensures var n := Drained(limit, waiting, [offer]);
            && (limit <= 0 ==> n == 0)
            && (limit > 0 ==> n in {10, limit, waiting, offer} && n <= 10 && n <= limit && n <= waiting && n <= offer)
  {
    if limit > 0 {
      var n := Batch(limit, waiting, offer);
      assert Drained(limit - n, waiting - n, []) == 0;
    }
  }

  /** Never more than the limit, and never more than ten by one receive. */
  lemma {:induction false} DrainsWithinLimit(limit: int, waiting: nat, offers: seq<nat>)
    ensures var n := Drained(limit, waiting, offers);
            n <= waiting && n <= 10 * |offers| && (n > 0 ==> n <= limit)
    decreases |offers|
  {
    if limit > 0 && offers != [] {
      var n := Batch(limit, waiting, offers[0]);
      if n > 0 { DrainsWithinLimit(limit - n, waiting - n, offers[1..]); }
    }
  }
}
