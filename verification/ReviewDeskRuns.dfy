/** Whole runs of the review desk, one handler at a time: the lock, the row and the audit log tell one story. */
module ReviewDeskRuns {
  import opened Domain
  import opened ReviewClaims
  import opened ReviewDesk
  import Text

  datatype Event =
    | Claim(v: ReviewId, r: string, order: seq<ReviewId>)
    | Resolve(v: ReviewId, r: string, verdict: Decision, notes: string)
    | List(order: seq<ReviewId>)
    | Tick(elapsed: nat)
    | Enqueue(v: ReviewId, model: Decision)

  /** Requests the API's schemas reject, and impossible row orders, leave the desk as it is. */
  ghost function Next(d: Desk, e: Event): Desk {
    match e
    case Claim(v, r, order) =>
      if r != "" && Enumerates(order, Expired(d.rows, d.now)) then AfterClaim(d, v, r, order).0 else d
    case Resolve(v, r, verdict, notes) =>
      if r != "" && verdict != FLAG then AfterResolve(d, v, r, verdict, notes).0 else d
    case List(order) => if Enumerates(order, Expired(d.rows, d.now)) then Swept(d, order) else d
    case Tick(elapsed) => d.(now := d.now + elapsed)
    case Enqueue(v, model) => if v in d.rows then d else d.(rows := d.rows[v := NewRow(model)])
  }

  ghost function Run(d: Desk, events: seq<Event>): Desk {
    if events == [] then d else Next(Run(d, events[..|events| - 1]), events[|events| - 1])
  }

  /** A desk nobody has touched. */
  ghost predicate Untouched(d: Desk) {
    d.locks == map[] && d.audit == [] && forall v :: v in d.rows ==> d.rows[v] == NewRow(d.rows[v].model)
  }

  // ---------------------------------------------------------------- lock and row

  function LiveLock(d: Desk, v: ReviewId): Option<Lock> {
    if v in d.locks && d.now < d.locks[v].expiry then Some(d.locks[v]) else None
  }

  function LiveClaim(d: Desk, v: ReviewId): Option<Lock> {
    if && v in d.rows && d.rows[v].status == Claimed && d.rows[v].claimedBy.Some?
       && d.rows[v].expiresAt.Some? && d.now < d.rows[v].expiresAt.value
    then Some(Lock(d.rows[v].claimedBy.value, d.rows[v].expiresAt.value))
    else None
  }

  ghost predicate Agreement(d: Desk) { forall v :: LiveLock(d, v) == LiveClaim(d, v) }

  predicate TidyRow(row: Row) {
    && row.status in {Pending, Claimed, Approved, Rejected}
    && (row.status == Pending ==> row.claimedBy.None?)
    && (row.status == Claimed ==> row.claimedBy.Some? && row.claimedBy.value != "" && row.expiresAt.Some?)
  }

  ghost predicate Tidy(t: Table) { forall v :: v in t ==> TidyRow(t[v]) }

  // ---------------------------------------------------------------- the audit log replayed

  /** What the log alone says about one review. */
  datatype Standing = Standing(status: ReviewStatus, holder: Option<string>,
                               verdict: Option<Decision>, notes: string, resolvedBy: Option<string>)

  const FRESH := Standing(Pending, None, None, "", None)

  function Replay(audit: seq<Entry>, v: ReviewId): Standing {
    if audit == [] then FRESH
    else
      var before, last := Replay(audit[..|audit| - 1], v), audit[|audit| - 1];
      if last.v != v then before
      else match last
        case WasClaimed(_, actor) => before.(status := Claimed, holder := Some(actor))
        case ClaimExpired(_, _) => before.(status := Pending, holder := None)
        case WasResolved(_, actor, verdict, _, _, notes, status) =>
          before.(status := status, verdict := Some(verdict), notes := notes, resolvedBy := Some(actor))
  }

  function StandingOf(row: Row): Standing {
    Standing(row.status, row.claimedBy, row.verdict, row.notes, row.resolvedBy)
  }

  /** Which entries may follow a standing: in particular only the holder is expired, and only the holder resolves. */
  predicate Follows(s: Standing, e: Entry) {
    match e
    case WasClaimed(_, actor) => s.status == Pending || (s.status == Claimed && s.holder == Some(actor))
    case ClaimExpired(_, actor) => s.status == Claimed && s.holder == Some(actor)
    case WasResolved(_, actor, verdict, model, override, notes, status) =>
      && s.status == Claimed && s.holder == Some(actor)
      && (status == Approved <==> verdict == ALLOW) && (status == Rejected <==> verdict == BLOCK) && verdict != FLAG
      && override == (verdict != model) && (override ==> |notes| >= 3) && Text.Strip(notes) == notes
  }

  predicate Legal(audit: seq<Entry>) {
    audit == [] || (var n := |audit| - 1; Legal(audit[..n]) && Follows(Replay(audit[..n], audit[n].v), audit[n]))
  }

  ghost predicate LogMatches(audit: seq<Entry>, t: Table) {
    && Legal(audit)
    && (forall v :: v in t ==> Replay(audit, v) == StandingOf(t[v]))
    && (forall v :: v !in t ==> Replay(audit, v) == FRESH)
    && (forall e :: e in audit && e.WasResolved? ==> e.v in t && t[e.v].model == e.model)
  }

  ghost predicate DeskInv(d: Desk) { Agreement(d) && Tidy(d.rows) && LogMatches(d.audit, d.rows) }

  // ---------------------------------------------------------------- each handler keeps it

  lemma Logged(audit: seq<Entry>, e: Entry, v: ReviewId)
    ensures Legal(audit + [e]) <==> Legal(audit) && Follows(Replay(audit, e.v), e)
    ensures v != e.v ==> Replay(audit + [e], v) == Replay(audit, v)
  {
    assert (audit + [e])[..|audit|] == audit;
  }

  lemma OneExpired(audit: seq<Entry>, t: Table, w: ReviewId, v: ReviewId)
    requires Legal(audit) && Sweepable(audit, t, w)
    ensures Legal(audit + [ExpiryEntry(t, w)])
    ensures Replay(audit + [ExpiryEntry(t, w)], v)
            == if v == w then Replay(audit, v).(status := Pending, holder := None) else Replay(audit, v)
  {
    assert (audit + [ExpiryEntry(t, w)])[..|audit|] == audit;
  }

  predicate Sweepable(audit: seq<Entry>, t: Table, w: ReviewId) {
    w in t && t[w].status == Claimed && TidyRow(t[w]) && Replay(audit, w) == StandingOf(t[w])
  }

  /** The sweep logs exactly the claims it ends. */
  lemma {:induction false} SweepLogged(audit: seq<Entry>, t: Table, order: seq<ReviewId>, v: ReviewId)
    requires Legal(audit) && forall i, j :: 0 <= i < j < |order| ==> order[i] != order[j]
    requires (forall w :: w in order ==> w in t) && (forall w :: w in order ==> Sweepable(audit, t, w))
    ensures Legal(audit + ExpiryEntries(t, order))
    ensures Replay(audit + ExpiryEntries(t, order), v)
            == if v in order then Replay(audit, v).(status := Pending, holder := None) else Replay(audit, v)
    ensures forall e :: e in ExpiryEntries(t, order) ==> e.ClaimExpired?
    decreases |order|
  {
    if order == [] {
      assert audit + ExpiryEntries(t, order) == audit;
    } else {
      var n := |order| - 1;
      var w, rest := order[n], order[..n];
      assert order == rest + [w] && Sweepable(audit, t, w);
      SweepLogged(audit, t, rest, v);
      SweepLogged(audit, t, rest, w);
      var so := audit + ExpiryEntries(t, rest);
      OneExpired(so, t, w, v);
      assert audit + ExpiryEntries(t, order) == so + [ExpiryEntry(t, w)];
    }
  }

  lemma SweepAgrees(d: Desk, order: seq<ReviewId>)
    requires Agreement(d) && Enumerates(order, Expired(d.rows, d.now))
    ensures Agreement(Swept(d, order))
  {
    var s := Swept(d, order);
    forall v ensures LiveLock(s, v) == LiveClaim(s, v) {
      assert LiveLock(d, v) == LiveClaim(d, v);
      if v in d.rows { SweepReleasesExactly(d.rows, d.now, v); }
    }
  }

  lemma SweepReplays(d: Desk, order: seq<ReviewId>)
    requires DeskInv(d) && Enumerates(order, Expired(d.rows, d.now))
    ensures LogMatches(Swept(d, order).audit, Swept(d, order).rows)
  {
    var s := Swept(d, order);
    forall v | v in order ensures Sweepable(d.audit, d.rows, v) { assert v in Expired(d.rows, d.now); }
    SweepLogged(d.audit, d.rows, order, 0);
    forall v ensures Replay(s.audit, v) == if v in s.rows then StandingOf(s.rows[v]) else FRESH {
      SweepLogged(d.audit, d.rows, order, v);
      assert v in order <==> v in Expired(d.rows, d.now);
    }
  }

  lemma SweepKeeps(d: Desk, order: seq<ReviewId>)
    requires DeskInv(d) && Enumerates(order, Expired(d.rows, d.now))
    ensures DeskInv(Swept(d, order))
  {
    SweepAgrees(d, order);
    SweepReplays(d, order);
  }

  lemma ClaimAgrees(d: Desk, v: ReviewId, r: string, order: seq<ReviewId>)
    requires DeskInv(d) && r != "" && Enumerates(order, Expired(d.rows, d.now)) && MayLock(d, v, r)
    requires Agreement(Swept(d, order))
    ensures Agreement(AfterClaim(d, v, r, order).0)
  {
    var s, n := Swept(d, order), AfterClaim(d, v, r, order).0;
    assert LiveLock(d, v) == LiveClaim(d, v);
    forall w ensures LiveLock(n, w) == LiveClaim(n, w) {
      assert LiveLock(s, w) == LiveClaim(s, w);
    }
  }

  lemma ClaimKeeps(d: Desk, v: ReviewId, r: string, order: seq<ReviewId>)
    requires DeskInv(d) && r != "" && Enumerates(order, Expired(d.rows, d.now))
    ensures DeskInv(AfterClaim(d, v, r, order).0)
  {
    if MayLock(d, v, r) {
      SweepKeeps(d, order);
      ClaimAgrees(d, v, r, order);
      var s, n := Swept(d, order), AfterClaim(d, v, r, order).0;
      if v in s.rows && Claimable(s.rows[v], r, d.now) {
        SweepReleasesExactly(d.rows, d.now, v);
        Grown(s, n, WasClaimed(v, r));
      }
    }
  }

  /** One more entry, about v, keeps the log in step with the one row it describes. */
  lemma Grown(d: Desk, n: Desk, e: Entry)
    requires LogMatches(d.audit, d.rows) && e.v in d.rows
    requires n.audit == d.audit + [e] && n.rows.Keys == d.rows.Keys
    requires forall w :: w in d.rows && w != e.v ==> n.rows[w] == d.rows[w]
    requires n.rows[e.v].model == d.rows[e.v].model
    requires Follows(StandingOf(d.rows[e.v]), e)
    requires Replay(n.audit, e.v) == StandingOf(n.rows[e.v])
    requires e.WasResolved? ==> e.model == d.rows[e.v].model
    ensures LogMatches(n.audit, n.rows)
  {
    Logged(d.audit, e, e.v);
    forall w | w != e.v ensures Replay(n.audit, w) == Replay(d.audit, w) {
      Logged(d.audit, e, w);
    }
  }

  lemma ResolveKeeps(d: Desk, v: ReviewId, r: string, verdict: Decision, notes: string)
    requires DeskInv(d) && verdict != FLAG
    ensures DeskInv(AfterResolve(d, v, r, verdict, notes).0)
  {
    var (n, reply) := AfterResolve(d, v, r, verdict, notes);
    forall w ensures LiveLock(n, w) == LiveClaim(n, w) {
      assert LiveLock(d, w) == LiveClaim(d, w);
    }
    if reply.Done? {
      Text.StripIsIdempotent(notes);
      Grown(d, n, n.audit[|d.audit|]);
    }
  }

  lemma NextKeeps(d: Desk, e: Event)
    requires DeskInv(d)
    ensures DeskInv(Next(d, e))
  {
    var n := Next(d, e);
    match e {
      case Claim(v, r, order) =>
        if r != "" && Enumerates(order, Expired(d.rows, d.now)) { ClaimKeeps(d, v, r, order); }
      case Resolve(v, r, verdict, notes) => if r != "" && verdict != FLAG { ResolveKeeps(d, v, r, verdict, notes); }
      case List(order) => if Enumerates(order, Expired(d.rows, d.now)) { SweepKeeps(d, order); }
      case Tick(_) =>
        forall w ensures LiveLock(n, w) == LiveClaim(n, w) { assert LiveLock(d, w) == LiveClaim(d, w); }
      case Enqueue(v, _) =>
        forall w ensures LiveLock(n, w) == LiveClaim(n, w) { assert LiveLock(d, w) == LiveClaim(d, w); }
    }
  }

  lemma {:induction false} RunKeeps(d: Desk, events: seq<Event>)
    requires Untouched(d)
    ensures DeskInv(Run(d, events))
  {
    if events != [] {
      RunKeeps(d, events[..|events| - 1]);
      NextKeeps(Run(d, events[..|events| - 1]), events[|events| - 1]);
    }
  }

  // ---------------------------------------------------------------- theorems

  /** A live Redis lock of r expiring at t, exactly when the row is claimed by r until t and t has not come. */
  lemma LockMirrorsRow(d: Desk, events: seq<Event>, v: ReviewId, r: string, t: Time)
    requires Untouched(d)
    ensures var n := Run(d, events);
            (v in n.locks && n.locks[v] == Lock(r, t) && n.now < t) <==>
              (&& v in n.rows && n.rows[v].status == Claimed && n.rows[v].claimedBy == Some(r)
               && n.rows[v].expiresAt == Some(t) && n.now < t)
  {
    RunKeeps(d, events);
    var n := Run(d, events);
    assert LiveLock(n, v) == LiveClaim(n, v);
  }

  // ---------------------------------------------------------------- the columns of a row

  ghost predicate AllTell(t: Table) { forall v :: v in t ==> RowTells(t[v]) }

  lemma NextTells(d: Desk, e: Event)
    requires AllTell(d.rows)
    ensures AllTell(Next(d, e).rows)
  {
    var n := Next(d, e);
    forall v | v in n.rows ensures RowTells(n.rows[v]) {
      if v in d.rows {
        var r := if e.Claim? || e.Resolve? then e.r else "";
        var verdict, text := if e.Resolve? then e.verdict else ALLOW, if e.Resolve? then Text.Strip(e.notes) else "";
        UpdatesTell(d.rows[v], r, verdict, text, d.now);
        if SqlExpired(d.rows[v], d.now) { UpdatesTell(Released(d.rows[v]), r, verdict, text, d.now); }
      }
    }
  }

  lemma {:induction false} RunTells(d: Desk, events: seq<Event>)
    requires Untouched(d)
    ensures AllTell(Run(d, events).rows)
  {
    if events != [] {
      RunTells(d, events[..|events| - 1]);
      NextTells(Run(d, events[..|events| - 1]), events[|events| - 1]);
    }
  }

  /**
   * After every run the columns of every row agree: ALLOW is approved and BLOCK is rejected, a claim lasts 15
   * minutes, a resolution is by the claim's holder. The same of every resolution in the log.
   */
  lemma RowsTell(d: Desk, events: seq<Event>, v: ReviewId, k: nat)
    requires Untouched(d)
    ensures v in Run(d, events).rows ==> RowTells(Run(d, events).rows[v])
    ensures var audit := Run(d, events).audit;
            k < |audit| && audit[k].WasResolved? ==>
              && (audit[k].status == Approved <==> audit[k].verdict == ALLOW)
              && (audit[k].status == Rejected <==> audit[k].verdict == BLOCK)
              && audit[k].verdict != FLAG && audit[k].override == (audit[k].verdict != audit[k].model)
  {
    RunTells(d, events);
    RunKeeps(d, events);
    var audit := Run(d, events).audit;
    if k < |audit| && audit[k].WasResolved? {
      LegalPrefix(audit, k + 1);
      assert audit[..k + 1][k] == audit[k] && audit[..k + 1][..k] == audit[..k];
    }
  }

  // ---------------------------------------------------------------- every reply

  /** The row is claimed, and its claim has not ended. */
  predicate Held(t: Table, v: ReviewId, now: Time) {
    v in t && t[v].status == Claimed && t[v].expiresAt.Some? && now < t[v].expiresAt.value
  }

  predicate By(t: Table, v: ReviewId, r: string) { v in t && t[v].claimedBy == Some(r) }

  /** Lock and row of one review agree, as they do after every run. */
  ghost predicate AgreesOn(d: Desk, v: ReviewId) {
    LiveLock(d, v) == LiveClaim(d, v) && (v in d.rows ==> RowTells(d.rows[v]))
  }

  /** What a resolution answers and writes, read off row, notes and clock alone. */
  ghost predicate ResolveTold(n: Desk, t: Desk, v: ReviewId, r: string, verdict: Decision, text: string, reply: Reply) {
    var overrides := v in n.rows && verdict != n.rows[v].model;
    && (reply == LockExpired <==> !Held(n.rows, v, n.now))
    && (reply.ClaimedByAnother? <==> Held(n.rows, v, n.now) && !By(n.rows, v, r))
    && (reply.ClaimedByAnother? ==> v in n.rows && reply.owner == n.rows[v].claimedBy)
    && (reply == NotesRequired <==> Held(n.rows, v, n.now) && By(n.rows, v, r) && overrides && |text| < 3)
    && (reply.Done? <==> Held(n.rows, v, n.now) && By(n.rows, v, r) && (overrides ==> |text| >= 3))
    && (!reply.Done? ==> t == n)
    && (reply.Done? ==> ResolveDone(n, t, v, r, verdict, text, reply.row))
  }

  predicate ResolveDone(n: Desk, t: Desk, v: ReviewId, r: string, verdict: Decision, text: string, row: Row) {
    var status := if verdict == ALLOW then Approved else Rejected;
    && v in n.rows
    && row == n.rows[v].(status := status, verdict := Some(verdict), notes := text,
                         resolvedBy := Some(r), resolvedAt := Some(n.now))
    && t == n.(rows := n.rows[v := row], locks := n.locks - {v},
               audit := n.audit
                        + [WasResolved(v, r, verdict, n.rows[v].model, verdict != n.rows[v].model, text, status)])
  }

  lemma ResolveTells(n: Desk, v: ReviewId, r: string, verdict: Decision, notes: string)
    requires AgreesOn(n, v) && verdict != FLAG
    ensures var (t, reply) := AfterResolve(n, v, r, verdict, notes);
            ResolveTold(n, t, v, r, verdict, Text.Strip(notes), reply)
  {
  }

  /** After every run: every reply to a resolution, exactly when it comes, and what a resolution writes. */
  lemma ResolveReplies(d: Desk, events: seq<Event>, v: ReviewId, r: string, verdict: Decision, notes: string)
    requires Untouched(d) && verdict != FLAG
    ensures var n := Run(d, events);
            var (t, reply) := AfterResolve(n, v, r, verdict, notes);
            ResolveTold(n, t, v, r, verdict, Text.Strip(notes), reply)
  {
    RunKeeps(d, events);
    RunTells(d, events);
    ResolveTells(Run(d, events), v, r, verdict, notes);
  }

  /** What a claim answers and writes, read off the row and the clock alone. */
  ghost predicate ClaimTold(n: Desk, t: Desk, v: ReviewId, r: string, order: seq<ReviewId>, reply: Reply)
    requires Enumerates(order, Expired(n.rows, n.now))
  {
    var swept := Swept(n, order);
    && (reply == NotFound <==> v !in n.rows)
    && (reply.ClaimedByAnother? <==> Held(n.rows, v, n.now) && !By(n.rows, v, r))
    && (reply.ClaimedByAnother? ==> v in n.rows && reply.owner == n.rows[v].claimedBy && t == n)
    && (reply.NotClaimable? <==>
          v in n.rows && (!Open(n.rows[v]) || (n.rows[v].status == Claimed && !By(n.rows, v, r)
                                               && n.rows[v].expiresAt == Some(n.now))))
    && (reply.NotClaimable? ==>
          v in n.rows && reply.status == n.rows[v].status && reply.holder == n.rows[v].claimedBy)
    && (reply.NotClaimable? || reply == NotFound ==> t == swept.(locks := n.locks - {v}))
    && (reply.Done? ==> ClaimDone(n, t, v, r, swept, reply.row))
  }

  predicate ClaimDone(n: Desk, t: Desk, v: ReviewId, r: string, swept: Desk, row: Row) {
    var ends := n.now + 900 * 1_000_000;
    && v in n.rows
    && row == n.rows[v].(status := Claimed, claimedBy := Some(r), claimedAt := Some(n.now), expiresAt := Some(ends))
    && t == swept.(rows := swept.rows[v := row], locks := n.locks[v := Lock(r, ends)],
                   audit := swept.audit + [WasClaimed(v, r)])
  }

  lemma ClaimTells(n: Desk, v: ReviewId, r: string, order: seq<ReviewId>)
    requires AgreesOn(n, v) && r != "" && Enumerates(order, Expired(n.rows, n.now))
    ensures var (t, reply) := AfterClaim(n, v, r, order); ClaimTold(n, t, v, r, order, reply)
  {
    if v in n.rows { SweepReleasesExactly(n.rows, n.now, v); }
  }

  /** After every run: every reply to a claim, exactly when it comes, and what a claim writes. */
  lemma ClaimReplies(d: Desk, events: seq<Event>, v: ReviewId, r: string, order: seq<ReviewId>)
    requires Untouched(d) && r != ""
    requires Enumerates(order, Expired(Run(d, events).rows, Run(d, events).now))
    ensures var n := Run(d, events);
            var (t, reply) := AfterClaim(n, v, r, order); ClaimTold(n, t, v, r, order, reply)
  {
    RunKeeps(d, events);
    RunTells(d, events);
    ClaimTells(Run(d, events), v, r, order);
  }

  /** Exactly who may resolve; past the Redis check, "not found" and "must be claimed" cannot happen. */
  lemma ResolveSucceedsIff(d: Desk, events: seq<Event>, v: ReviewId, r: string, verdict: Decision, notes: string)
    requires Untouched(d)
    ensures var n := Run(d, events);
            var reply := AfterResolve(n, v, r, verdict, notes).1;
            && reply != NotFound && reply != NotClaimed
            && (reply.Done? <==>
                && v in n.rows && n.rows[v].status == Claimed && n.rows[v].claimedBy == Some(r)
                && n.rows[v].expiresAt.Some? && n.now < n.rows[v].expiresAt.value
                && (verdict == n.rows[v].model || |Text.Strip(notes)| >= 3))
  {
    RunKeeps(d, events);
    var n := Run(d, events);
    assert LiveLock(n, v) == LiveClaim(n, v);
  }

  /** Exactly who may claim: at the very moment of expiry only the holder, strictly later everybody. */
  lemma ClaimSucceedsIff(d: Desk, events: seq<Event>, v: ReviewId, r: string, order: seq<ReviewId>)
    requires Untouched(d) && r != ""
    requires Enumerates(order, Expired(Run(d, events).rows, Run(d, events).now))
    ensures var n := Run(d, events);
            AfterClaim(n, v, r, order).1.Done? <==>
              && v in n.rows
              && (|| n.rows[v].status == Pending
                  || (n.rows[v].status == Claimed
                      && (|| n.rows[v].claimedBy == Some(r)
                          || (n.rows[v].expiresAt.Some? && n.rows[v].expiresAt.value < n.now))))
  {
    RunKeeps(d, events);
    var n := Run(d, events);
    assert LiveLock(n, v) == LiveClaim(n, v);
    if v in n.rows { SweepReleasesExactly(n.rows, n.now, v); }
  }

  /** The claim update never relies on its "claimed but expired" clause: the sweep before it has freed the row. */
  lemma ExpiredClauseIsDead(d: Desk, v: ReviewId, r: string, order: seq<ReviewId>)
    requires Enumerates(order, Expired(d.rows, d.now)) && v in d.rows
    ensures var row := Swept(d, order).rows[v];
            Claimable(row, r, d.now) <==> row.status == Pending || (row.status == Claimed && row.claimedBy == Some(r))
  {
    SweepReleasesExactly(d.rows, d.now, v);
  }

  /** The log alone rebuilds every row, and every entry in it was allowed where it stands. */
  lemma AuditRebuildsRows(d: Desk, events: seq<Event>, v: ReviewId)
    requires Untouched(d) && v in Run(d, events).rows
    ensures Legal(Run(d, events).audit)
    ensures Replay(Run(d, events).audit, v) == StandingOf(Run(d, events).rows[v])
  {
    RunKeeps(d, events);
  }

  predicate Settled(s: Standing) { s.status in {Approved, Rejected} }

  /** After a resolution the log never mentions the review again. */
  lemma {:induction false} ResolutionIsFinal(audit: seq<Entry>, i: nat)
    requires Legal(audit) && i < |audit| && audit[i].WasResolved?
    ensures Settled(Replay(audit, audit[i].v))
    ensures forall j :: i < j < |audit| ==> audit[j].v != audit[i].v
    decreases |audit|
  {
    var n := |audit| - 1;
    if i < n { ResolutionIsFinal(audit[..n], i); }
  }

  predicate HeldBy(s: Standing, r: string) { s.status == Claimed && s.holder == Some(r) }

  lemma {:induction false} HeldUntilLogged(audit: seq<Entry>, i: nat, r: string)
    requires Legal(audit) && i < |audit| && audit[i] == WasClaimed(audit[i].v, r)
    ensures || HeldBy(Replay(audit, audit[i].v), r)
            || ClaimExpired(audit[i].v, r) in audit[i..]
            || exists k :: i < k < |audit| && audit[k].WasResolved? && audit[k].v == audit[i].v
    decreases |audit|
  {
    var n := |audit| - 1;
    if i < n {
      HeldUntilLogged(audit[..n], i, r);
      assert audit[i..] == audit[..n][i..] + [audit[n]];
    }
  }

  /** Between claims by two people the log shows the first one's claim expiring. */
  lemma HandoverIsLogged(audit: seq<Entry>, i: nat, j: nat)
    requires Legal(audit) && i < j < |audit|
    requires audit[i].WasClaimed? && audit[j].WasClaimed?
    requires audit[i].v == audit[j].v && audit[i].actor != audit[j].actor
    ensures ClaimExpired(audit[i].v, audit[i].actor) in audit[i..j]
  {
    LegalPrefix(audit, j);
    LegalPrefix(audit, j + 1);
    assert audit[..j + 1][..j] == audit[..j];
    HeldUntilLogged(audit[..j], i, audit[i].actor);
    if k :| i < k < j && audit[..j][k].WasResolved? && audit[..j][k].v == audit[i].v {
      ResolutionIsFinal(audit, k);
    }
    assert audit[..j][i..] == audit[i..j];
  }

  lemma {:induction false} LegalPrefix(audit: seq<Entry>, n: nat)
    requires Legal(audit) && n <= |audit|
    ensures Legal(audit[..n])
    decreases |audit|
  {
    if n < |audit| {
      LegalPrefix(audit[..|audit| - 1], n);
      assert audit[..|audit| - 1][..n] == audit[..n];
    } else {
      assert audit[..n] == audit;
    }
  }
}
