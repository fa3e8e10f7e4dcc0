/** The review handlers interleaved: every Redis command and every SQL statement is a step of its own. */
module ReviewInterleaving {
  import opened Domain
  import opened ReviewClaims
  import Text

  /** Where a handler stands: the command it runs next, and its local variables. now is its one clock reading. */
  datatype Proc =
    | ClaimGet(v: ReviewId, r: string, now: Time)
    | ClaimSet(v: ReviewId, r: string, now: Time)
    | ClaimLook(v: ReviewId, r: string, now: Time)
    | ClaimRefresh(v: ReviewId, r: string, now: Time)
    | ClaimSweep(v: ReviewId, r: string, now: Time)
    | ClaimWrite(v: ReviewId, r: string, now: Time)
    | ResolveGet(v: ReviewId, r: string, now: Time, verdict: Decision, text: string)
    | ResolveRead(v: ReviewId, r: string, now: Time, verdict: Decision, text: string)
    | ResolveWrite(v: ReviewId, r: string, now: Time, verdict: Decision, text: string, model: Decision)
    | ReleaseGet(v: ReviewId, r: string, now: Time)
    | ReleaseDelete(v: ReviewId, r: string, now: Time)
    | ListSweep(now: Time)

  /** The updates a review row has seen. */
  datatype Change =
    | Took(r: string, at: Time)
    | Freed(holder: Option<string>)
    | Settled(r: string, verdict: Decision, text: string, at: Time)

  /** history and acquired record the past for the proofs; no handler reads them. */
  datatype State = State(rows: Table, locks: Locks, procs: map<nat, Proc>, spawned: nat, now: Time,
                         history: map<ReviewId, seq<Change>>, acquired: map<ReviewId, Time>)

  datatype Event =
    | BeginClaim(v: ReviewId, r: string)
    | BeginResolve(v: ReviewId, r: string, verdict: Decision, notes: string)
    | BeginList
    | Step(p: nat)
    | Crash(p: nat)
    | Tick(elapsed: nat)
    | Enqueue(v: ReviewId, model: Decision)

  // ---------------------------------------------------------------- one step

  function Spawn(s: State, proc: Proc): State { s.(procs := s.procs[s.spawned := proc], spawned := s.spawned + 1) }

  function Acquire(s: State, v: ReviewId, locks: Locks): State {
    s.(locks := locks, acquired := s.acquired[v := s.now])
  }

  function SweepAll(s: State, now: Time): (n: State)
    requires s.rows.Keys == s.history.Keys
    ensures n.rows.Keys == n.history.Keys
  {
    s.(rows := Sweep(s.rows, now),
       history := map v | v in s.history ::
         if SqlExpired(s.rows[v], now) then s.history[v] + [Freed(s.rows[v].claimedBy)] else s.history[v])
  }

  function Take(s: State, v: ReviewId, r: string, now: Time): State
    requires v in s.rows && v in s.history
  {
    s.(rows := s.rows[v := ClaimRow(s.rows[v], r, now)], history := s.history[v := s.history[v] + [Took(r, now)]])
  }

  function Settle(s: State, v: ReviewId, r: string, verdict: Decision, text: string, now: Time): State
    requires v in s.rows && v in s.history
  {
    s.(rows := s.rows[v := ResolveRow(s.rows[v], r, verdict, text, now)],
       history := s.history[v := s.history[v] + [Settled(r, verdict, text, now)]])
  }

  /** The command a handler runs next: its effect, and where the handler goes from there. */
  function Act(s: State, proc: Proc): (result: (State, Option<Proc>))
    requires s.rows.Keys == s.history.Keys
    ensures var n := result.0;
            n.rows.Keys == n.history.Keys && n.procs == s.procs && n.now == s.now && n.spawned == s.spawned
  {
    match proc
    case ClaimGet(v, r, now) =>
      var owner := Get(s.locks, v, s.now);
      (s, if owner == None then Some(ClaimSet(v, r, now))
          else if owner == Some(r) then Some(ClaimRefresh(v, r, now))
          else None)
    case ClaimSet(v, r, now) =>
      if Get(s.locks, v, s.now) == None
      then (Acquire(s, v, Set(s.locks, v, r, s.now)), Some(ClaimSweep(v, r, now)))
      else (s, Some(ClaimLook(v, r, now)))
    case ClaimLook(v, r, now) =>
      (s, if Get(s.locks, v, s.now) == Some(r) then Some(ClaimRefresh(v, r, now)) else None)
    case ClaimRefresh(v, r, now) => (Acquire(s, v, Refresh(s.locks, v, s.now)), Some(ClaimSweep(v, r, now)))
    case ClaimSweep(v, r, now) => (SweepAll(s, now), Some(ClaimWrite(v, r, now)))
    case ClaimWrite(v, r, now) =>
      if v in s.rows && Claimable(s.rows[v], r, now) then (Take(s, v, r, now), None)
      else (s, Some(ReleaseGet(v, r, now)))
    case ResolveGet(v, r, now, verdict, text) =>
      (s, if Get(s.locks, v, s.now) == Some(r) then Some(ResolveRead(v, r, now, verdict, text)) else None)
    case ResolveRead(v, r, now, verdict, text) =>
      (s, if v in s.rows && (verdict == s.rows[v].model || |text| >= 3)
          then Some(ResolveWrite(v, r, now, verdict, text, s.rows[v].model))
          else None)
    case ResolveWrite(v, r, now, verdict, text, _) =>
      if v in s.rows && Resolvable(s.rows[v], r)
      then (Settle(s, v, r, verdict, text, now), Some(ReleaseGet(v, r, now)))
      else (s, None)
    case ReleaseGet(v, r, now) =>
      (s, if Get(s.locks, v, s.now) == Some(r) then Some(ReleaseDelete(v, r, now)) else None)
    case ReleaseDelete(v, _, _) => (s.(locks := s.locks - {v}), None)
    case ListSweep(now) => (SweepAll(s, now), None)
  }

  function StepOf(s: State, p: nat): (n: State)
    requires p in s.procs && s.rows.Keys == s.history.Keys
    ensures n.rows.Keys == n.history.Keys && n.now == s.now && n.spawned == s.spawned
    ensures n.procs == s.procs - {p} || (p in n.procs && n.procs == s.procs[p := n.procs[p]])
  {
    var (n, next) := Act(s, s.procs[p]);
    n.(procs := if next.Some? then s.procs[p := next.value] else s.procs - {p})
  }

  predicate SameRows(s: State, n: State) { n.rows == s.rows && n.history == s.history }

  /** All that a handler's step can do to the rows. */
  predicate RowStep(s: State, n: State, proc: Proc)
    requires s.rows.Keys == s.history.Keys
  {
    || SameRows(s, n)
    || ((proc.ClaimSweep? || proc.ListSweep?) && SameRows(SweepAll(s, proc.now), n))
    || (proc.ClaimWrite? && proc.v in s.rows && Claimable(s.rows[proc.v], proc.r, proc.now)
        && SameRows(Take(s, proc.v, proc.r, proc.now), n))
    || (proc.ResolveWrite? && proc.v in s.rows && Resolvable(s.rows[proc.v], proc.r)
        && SameRows(Settle(s, proc.v, proc.r, proc.verdict, proc.text, proc.now), n))
  }

  lemma ActMovesRows(s: State, proc: Proc)
    requires s.rows.Keys == s.history.Keys
    ensures RowStep(s, Act(s, proc).0, proc)
  {
  }

  lemma StepMovesRows(s: State, p: nat)
    requires p in s.procs && s.rows.Keys == s.history.Keys
    ensures RowStep(s, StepOf(s, p), s.procs[p])
  {
    ActMovesRows(s, s.procs[p]);
  }

  /** A handler's step leaves the locks of other reviews alone. */
  lemma StepStaysLocal(s: State, p: nat, v: ReviewId)
    requires p in s.procs && s.rows.Keys == s.history.Keys && (s.procs[p].ListSweep? || s.procs[p].v != v)
    ensures Get(StepOf(s, p).locks, v, s.now) == Get(s.locks, v, s.now)
  {
  }

  /** Events that cannot happen leave the state as it is. */
  function Next(s: State, e: Event): (n: State)
    requires s.rows.Keys == s.history.Keys
    ensures n.rows.Keys == n.history.Keys
  {
    match e
    case BeginClaim(v, r) => if r != "" then Spawn(s, ClaimGet(v, r, s.now)) else s
    case BeginResolve(v, r, verdict, notes) =>
      if r != "" && verdict != FLAG then Spawn(s, ResolveGet(v, r, s.now, verdict, Text.Strip(notes))) else s
    case BeginList => Spawn(s, ListSweep(s.now))
    case Step(p) => if p in s.procs then StepOf(s, p) else s
    case Crash(p) => s.(procs := s.procs - {p})
    case Tick(elapsed) => s.(now := s.now + elapsed)
    case Enqueue(v, model) =>
      if v in s.rows then s else s.(rows := s.rows[v := NewRow(model)], history := s.history[v := []])
  }

  function Run(s: State, events: seq<Event>): (n: State)
    requires s.rows.Keys == s.history.Keys
    ensures n.rows.Keys == n.history.Keys
  {
    if events == [] then s else Next(Run(s, events[..|events| - 1]), events[|events| - 1])
  }

  /** Nobody has asked anything yet. */
  ghost predicate Init(s: State) {
    && s.locks == map[] && s.procs == map[] && s.acquired == map[]
    && s.rows.Keys == s.history.Keys
    && forall v :: v in s.rows ==> s.rows[v] == NewRow(s.rows[v].model) && s.history[v] == []
  }

  // ---------------------------------------------------------------- invariant

  function Applied(row: Row, c: Change): Row {
    match c
    case Took(r, at) => ClaimRow(row, r, at)
    case Freed(_) => Released(row)
    case Settled(r, verdict, text, at) => ResolveRow(row, r, verdict, text, at)
  }

  /** A row is its history replayed. */
  function Rebuilt(model: Decision, h: seq<Change>): Row {
    if h == [] then NewRow(model) else Applied(Rebuilt(model, h[..|h| - 1]), h[|h| - 1])
  }

  predicate CarriesNotes(verdict: Decision, model: Decision, text: string) {
    verdict != FLAG && Text.Strip(text) == text && (verdict != model ==> |text| >= 3)
  }

  predicate LawfulAt(model: Decision, h: seq<Change>, k: nat)
    requires k < |h|
  {
    match h[k]
    case Took(r, _) => r != ""
    case Freed(holder) => k > 0 && h[k - 1].Took? && holder == Some(h[k - 1].r)
    case Settled(r, verdict, text, _) =>
      k == |h| - 1 && k > 0 && h[k - 1].Took? && h[k - 1].r == r && CarriesNotes(verdict, model, text)
  }

  /** A release ends a claim; a resolution follows its resolver's claim at once and nothing follows it. */
  predicate Lawful(model: Decision, h: seq<Change>) {
    forall k :: 0 <= k < |h| ==> LawfulAt(model, h, k)
  }

  ghost predicate RowOk(s: State, v: ReviewId)
    requires v in s.rows && v in s.history
  {
    && s.rows[v] == Rebuilt(s.rows[v].model, s.history[v])
    && Lawful(s.rows[v].model, s.history[v])
    && (s.rows[v].status == Claimed ==>
          && v in s.acquired && s.rows[v].expiresAt.Some?
          && s.rows[v].expiresAt.value <= s.acquired[v] + CLAIM_TTL)
  }

  ghost predicate LockOk(s: State, v: ReviewId) {
    && (v in s.locks ==> v in s.acquired && s.locks[v].expiry <= s.acquired[v] + CLAIM_TTL)
    && (v in s.acquired ==> s.acquired[v] <= s.now)
  }

  ghost predicate ProcOk(s: State, proc: Proc) {
    && proc.now <= s.now
    && (!proc.ListSweep? ==> proc.r != "")
    && (proc.ClaimSweep? || proc.ClaimWrite? ==> proc.v in s.acquired && proc.now <= s.acquired[proc.v])
    && (proc.ResolveGet? || proc.ResolveRead? ==> proc.verdict != FLAG && Text.Strip(proc.text) == proc.text)
    && (proc.ResolveWrite? ==>
          proc.v in s.rows && proc.model == s.rows[proc.v].model && CarriesNotes(proc.verdict, proc.model, proc.text))
  }

  ghost predicate Inv(s: State) {
    && s.rows.Keys == s.history.Keys
    && (forall v :: v in s.rows ==> RowOk(s, v))
    && (forall v :: LockOk(s, v))
    && (forall p :: p in s.procs ==> p < s.spawned && ProcOk(s, s.procs[p]))
  }

  /** What the status column says about the end of the history. */
  lemma LastChange(model: Decision, h: seq<Change>)
    ensures var row := Rebuilt(model, h);
            && row.model == model
            && (row.status == Pending <==> h == [] || h[|h| - 1].Freed?)
            && (row.status == Claimed <==> h != [] && h[|h| - 1].Took?)
            && (row.status == Claimed ==> row.claimedBy == Some(h[|h| - 1].r))
  {
    if h != [] { LastChange(model, h[..|h| - 1]); }
  }

  lemma Extend(model: Decision, h: seq<Change>, c: Change)
    requires Lawful(model, h)
    requires h != [] ==> !h[|h| - 1].Settled?
    requires c.Took? ==> c.r != ""
    requires c.Freed? ==> h != [] && h[|h| - 1].Took? && c.holder == Some(h[|h| - 1].r)
    requires c.Settled? ==> h != [] && h[|h| - 1].Took? && h[|h| - 1].r == c.r && CarriesNotes(c.verdict, model, c.text)
    ensures Lawful(model, h + [c])
    ensures Rebuilt(model, h + [c]) == Applied(Rebuilt(model, h), c)
  {
    assert (h + [c])[..|h|] == h;
    forall k | 0 <= k < |h + [c]| ensures LawfulAt(model, h + [c], k) {
      if k < |h| { assert LawfulAt(model, h, k); }
    }
  }

  lemma SweepKeeps(s: State, now: Time)
    requires Inv(s)
    ensures Inv(SweepAll(s, now))
  {
    var n := SweepAll(s, now);
    forall v | v in n.rows ensures RowOk(n, v) {
      assert RowOk(s, v);
      var model, h := s.rows[v].model, s.history[v];
      LastChange(model, h);
      if SqlExpired(s.rows[v], now) { Extend(model, h, Freed(s.rows[v].claimedBy)); }
    }
    forall v ensures LockOk(n, v) { assert LockOk(s, v); }
    forall p | p in n.procs ensures p < n.spawned && ProcOk(n, n.procs[p]) { assert ProcOk(s, s.procs[p]); }
  }

  lemma TakeKeeps(s: State, v: ReviewId, r: string, now: Time)
    requires Inv(s) && v in s.rows && Claimable(s.rows[v], r, now)
    requires r != "" && v in s.acquired && now <= s.acquired[v]
    ensures Inv(Take(s, v, r, now))
  {
    var n := Take(s, v, r, now);
    forall w | w in n.rows ensures RowOk(n, w) {
      assert RowOk(s, w);
      if w == v {
        LastChange(s.rows[v].model, s.history[v]);
        Extend(s.rows[v].model, s.history[v], Took(r, now));
      }
    }
    forall w ensures LockOk(n, w) { assert LockOk(s, w); }
    forall p | p in n.procs ensures p < n.spawned && ProcOk(n, n.procs[p]) { assert ProcOk(s, s.procs[p]); }
  }

  lemma SettleKeeps(s: State, v: ReviewId, r: string, verdict: Decision, text: string, now: Time)
    requires Inv(s) && v in s.rows && Resolvable(s.rows[v], r) && CarriesNotes(verdict, s.rows[v].model, text)
    ensures Inv(Settle(s, v, r, verdict, text, now))
  {
    var n := Settle(s, v, r, verdict, text, now);
    forall w | w in n.rows ensures RowOk(n, w) {
      assert RowOk(s, w);
      if w == v {
        LastChange(s.rows[v].model, s.history[v]);
        Extend(s.rows[v].model, s.history[v], Settled(r, verdict, text, now));
      }
    }
    forall w ensures LockOk(n, w) { assert LockOk(s, w); }
    forall p | p in n.procs ensures p < n.spawned && ProcOk(n, n.procs[p]) { assert ProcOk(s, s.procs[p]); }
  }

  /** Steps that touch no row: locks may shrink or be acquired, one handler may move, start or stop. */
  lemma QuietKeeps(s: State, n: State)
    requires Inv(s) && n.rows == s.rows && n.history == s.history && s.now <= n.now && s.spawned <= n.spawned
    requires s.acquired.Keys <= n.acquired.Keys
    requires forall v :: v in s.acquired ==> s.acquired[v] <= n.acquired[v]
    requires forall v :: LockOk(n, v)
    requires forall p :: p in n.procs ==>
               p < n.spawned && (ProcOk(n, n.procs[p]) || (p in s.procs && n.procs[p] == s.procs[p]))
    ensures Inv(n)
  {
    forall v | v in n.rows ensures RowOk(n, v) { assert RowOk(s, v); }
    forall p | p in n.procs ensures ProcOk(n, n.procs[p]) {
      if p in s.procs && n.procs[p] == s.procs[p] { assert ProcOk(s, s.procs[p]); }
    }
  }

  lemma WriteKeeps(s: State, p: nat)
    requires Inv(s) && p in s.procs && (s.procs[p].ClaimWrite? || s.procs[p].ResolveWrite?)
    ensures Inv(StepOf(s, p))
  {
    var n := StepOf(s, p);
    assert ProcOk(s, s.procs[p]);
    match s.procs[p] {
      case ClaimWrite(v, r, now) =>
        if v in s.rows && Claimable(s.rows[v], r, now) {
          TakeKeeps(s, v, r, now);
          Moves(Take(s, v, r, now), n, p);
        } else {
          Moves(s, n, p);
        }
      case ResolveWrite(v, r, now, verdict, text, _) =>
        if v in s.rows && Resolvable(s.rows[v], r) {
          SettleKeeps(s, v, r, verdict, text, now);
          Moves(Settle(s, v, r, verdict, text, now), n, p);
        } else {
          Moves(s, n, p);
        }
    }
  }

  lemma StepKeeps(s: State, p: nat)
    requires Inv(s) && p in s.procs
    ensures Inv(StepOf(s, p))
  {
    var n := StepOf(s, p);
    assert ProcOk(s, s.procs[p]);
    match s.procs[p] {
      case ClaimSweep(_, _, now) => SweepKeeps(s, now); Moves(SweepAll(s, now), n, p);
      case ListSweep(now) => SweepKeeps(s, now); Moves(SweepAll(s, now), n, p);
      case ClaimWrite(_, _, _) => WriteKeeps(s, p);
      case ResolveWrite(_, _, _, _, _, _) => WriteKeeps(s, p);
      case ClaimSet(v, _, _) => LockMoves(s, n, p, v);
      case ClaimRefresh(v, _, _) => LockMoves(s, n, p, v);
      case ReleaseDelete(v, _, _) => LockMoves(s, n, p, v);
      case _ => Moves(s, n, p);
    }
  }

  /** Only handler p moved. */
  lemma Moves(s: State, n: State, p: nat)
    requires Inv(s) && p in s.procs
    requires n == s.(procs := n.procs)
    requires n.procs == s.procs - {p} || (p in n.procs && n.procs == s.procs[p := n.procs[p]] && ProcOk(n, n.procs[p]))
    ensures Inv(n)
  {
    forall v ensures LockOk(n, v) { assert LockOk(s, v); }
    QuietKeeps(s, n);
  }

  /** Handler p touched the lock of v. */
  lemma LockMoves(s: State, n: State, p: nat, v: ReviewId)
    requires Inv(s) && p in s.procs && n == StepOf(s, p)
    requires s.procs[p].ClaimSet? || s.procs[p].ClaimRefresh? || s.procs[p].ReleaseDelete?
    requires v == s.procs[p].v
    ensures Inv(n)
  {
    assert ProcOk(s, s.procs[p]);
    forall w ensures LockOk(n, w) { assert LockOk(s, w); }
    forall w | w in s.acquired ensures s.acquired[w] <= n.acquired[w] { assert LockOk(s, w); }
    QuietKeeps(s, n);
  }

  lemma EnqueueKeeps(s: State, v: ReviewId, model: Decision)
    requires Inv(s)
    ensures Inv(Next(s, Enqueue(v, model)))
  {
    var n := Next(s, Enqueue(v, model));
    forall w | w in n.rows ensures RowOk(n, w) { if w in s.rows { assert RowOk(s, w); } }
    forall w ensures LockOk(n, w) { assert LockOk(s, w); }
    forall p | p in n.procs ensures p < n.spawned && ProcOk(n, n.procs[p]) { assert ProcOk(s, s.procs[p]); }
  }

  lemma SpawnKeeps(s: State, proc: Proc)
    requires Inv(s) && ProcOk(s, proc)
    ensures Inv(Spawn(s, proc))
  {
    forall w ensures LockOk(Spawn(s, proc), w) { assert LockOk(s, w); }
    QuietKeeps(s, Spawn(s, proc));
  }

  lemma NextKeeps(s: State, e: Event)
    requires Inv(s)
    ensures Inv(Next(s, e))
  {
    match e {
      case BeginClaim(v, r) => if r != "" { SpawnKeeps(s, ClaimGet(v, r, s.now)); }
      case BeginResolve(v, r, verdict, notes) =>
        if r != "" && verdict != FLAG {
          Text.StripIsIdempotent(notes);
          SpawnKeeps(s, ResolveGet(v, r, s.now, verdict, Text.Strip(notes)));
        }
      case BeginList => SpawnKeeps(s, ListSweep(s.now));
      case Step(p) => if p in s.procs { StepKeeps(s, p); }
      case Enqueue(v, model) => EnqueueKeeps(s, v, model);
      case _ =>
        forall w ensures LockOk(Next(s, e), w) { assert LockOk(s, w); }
        QuietKeeps(s, Next(s, e));
    }
  }

  lemma {:induction false} RunKeeps(s: State, events: seq<Event>)
    requires Init(s)
    ensures Inv(Run(s, events))
  {
    if events == [] {
      assert forall v :: v in s.rows ==> RowOk(s, v);
    } else {
      RunKeeps(s, events[..|events| - 1]);
      NextKeeps(Run(s, events[..|events| - 1]), events[|events| - 1]);
    }
  }
}
