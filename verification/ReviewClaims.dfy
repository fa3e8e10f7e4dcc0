/** Review rows, the Redis claim lock beside them, and the expiry sweep. Times are microseconds. */
module ReviewClaims {
  import opened Domain

  type ReviewId = nat
  type Time = int

  const CLAIM_TTL: Time := 15 * 60 * 1_000_000

  datatype ReviewStatus = Pending | Claimed | Approved | Rejected | Escalated

  /** model is the decision under review, joined in from a table nothing updates. */
  datatype Row = Row(model: Decision, status: ReviewStatus,
                     claimedBy: Option<string>, claimedAt: Option<Time>, expiresAt: Option<Time>,
                     verdict: Option<Decision>, notes: string,
                     resolvedBy: Option<string>, resolvedAt: Option<Time>)

  type Table = map<ReviewId, Row>

  function NewRow(model: Decision): Row { Row(model, Pending, None, None, None, None, "", None, None) }

  predicate Open(r: Row) { r.status == Pending || r.status == Claimed }

  /** How the columns of a row that the handlers wrote agree; the claim lasts 15 minutes. */
  predicate RowTells(row: Row) {
    && (row.status == Approved <==> row.verdict == Some(ALLOW))
    && (row.status == Rejected <==> row.verdict == Some(BLOCK))
    && (row.verdict.None? <==> Open(row))
    && (row.status == Pending ==> row.claimedBy.None? && row.claimedAt.None? && row.expiresAt.None?)
    && (row.status != Pending ==>
          && row.claimedBy.Some? && row.claimedBy.value != "" && row.claimedAt.Some?
          && row.expiresAt == Some(row.claimedAt.value + 900 * 1_000_000))
    && (Open(row) ==> row.resolvedBy.None? && row.resolvedAt.None? && row.notes == "")
    && (!Open(row) ==> row.resolvedBy == row.claimedBy && row.resolvedAt.Some?)
  }

  // ---------------------------------------------------------------- expiry

  /** The WHERE clause of the sweep: the claim ended strictly before now. */
  predicate SqlExpired(r: Row, now: Time) {
    r.status == Claimed && (r.expiresAt.None? || r.expiresAt.value < now)
  }

  /** is_claim_expired. */
  predicate IsClaimExpired(status: ReviewStatus, expiresAt: Option<Time>, now: Time) {
    if status != Claimed then false
    else if expiresAt.None? then true
    else expiresAt.value <= now
  }

  /** claim_is_active. */
  predicate ClaimIsActive(status: ReviewStatus, expiresAt: Option<Time>, now: Time) {
    status == Claimed && !IsClaimExpired(status, expiresAt, now)
  }

  function Released(r: Row): Row { r.(status := Pending, claimedBy := None, claimedAt := None, expiresAt := None) }

  /** RELEASE_EXPIRED_CLAIMS_SQL. */
  function Sweep(t: Table, now: Time): (s: Table)
    ensures s.Keys == t.Keys
  {
    map v | v in t :: if SqlExpired(t[v], now) then Released(t[v]) else t[v]
  }

  /** Every swept row is back in the queue, no other row changed, and no expired claim is left. */
  lemma SweepReleasesExactly(t: Table, now: Time, v: ReviewId)
    requires v in t
    ensures !SqlExpired(Sweep(t, now)[v], now)
    ensures SqlExpired(t[v], now) <==>
              t[v].status == Claimed && (t[v].expiresAt.None? || t[v].expiresAt.value < now)
    ensures SqlExpired(t[v], now) ==>
              Sweep(t, now)[v] == t[v].(status := Pending, claimedBy := None, claimedAt := None, expiresAt := None)
    ensures !SqlExpired(t[v], now) ==> Sweep(t, now)[v] == t[v]
  {
  }

  /** Sweeping again, at the same time or an earlier one, changes nothing. */
  lemma SweepIsIdempotent(t: Table, now: Time, earlier: Time)
    requires earlier <= now
    ensures Sweep(Sweep(t, now), earlier) == Sweep(t, now)
  {
    forall v | v in t ensures Sweep(Sweep(t, now), earlier)[v] == Sweep(t, now)[v] {
      SweepReleasesExactly(t, now, v);
    }
  }

  /** A later sweep makes an earlier one superfluous. */
  lemma SweepIsAbsorbed(t: Table, now: Time, later: Time)
    requires now <= later
    ensures Sweep(Sweep(t, now), later) == Sweep(t, later)
  {
    forall v | v in t ensures Sweep(Sweep(t, now), later)[v] == Sweep(t, later)[v] {
      SweepReleasesExactly(t, now, v);
    }
  }

  /** The Python predicate and the SQL clause part ways exactly at the moment of expiry. */
  lemma PythonDisagreesIff(r: Row, now: Time)
    ensures IsClaimExpired(r.status, r.expiresAt, now) != SqlExpired(r, now)
            <==> r.status == Claimed && r.expiresAt == Some(now)
    ensures ClaimIsActive(r.status, r.expiresAt, now) <==>
              r.status == Claimed && r.expiresAt.Some? && now < r.expiresAt.value
    ensures ClaimIsActive(r.status, r.expiresAt, now) ==> !SqlExpired(r, now)
  {
  }

  // ---------------------------------------------------------------- Redis commands on claim keys

  datatype Lock = Lock(owner: string, expiry: Time)

  type Locks = map<ReviewId, Lock>

  /** GET: a key is there until its expiry, exclusive. */
  function Get(locks: Locks, v: ReviewId, now: Time): Option<string> {
    if v in locks && now < locks[v].expiry then Some(locks[v].owner) else None
  }

  /** SET key r NX EX ttl, when it succeeds. */
  function Set(locks: Locks, v: ReviewId, r: string, now: Time): Locks { locks[v := Lock(r, now + CLAIM_TTL)] }

  /** EXPIRE key ttl: whoever owns the key; nothing on a dead key. */
  function Refresh(locks: Locks, v: ReviewId, now: Time): Locks {
    if Get(locks, v, now).Some? then locks[v := locks[v].(expiry := now + CLAIM_TTL)] else locks
  }

  // ---------------------------------------------------------------- the two updates

  /** The WHERE clause of the claim update. */
  predicate Claimable(row: Row, r: string, now: Time) {
    || row.status == Pending
    || SqlExpired(row, now)
    || (row.status == Claimed && row.claimedBy == Some(r))
  }

  function ClaimRow(row: Row, r: string, now: Time): Row {
    row.(status := Claimed, claimedBy := Some(r), claimedAt := Some(now), expiresAt := Some(now + CLAIM_TTL))
  }

  /** The WHERE clause of the resolve update. */
  predicate Resolvable(row: Row, r: string) { row.status == Claimed && row.claimedBy == Some(r) }

  function StatusFor(verdict: Decision): ReviewStatus { if verdict == ALLOW then Approved else Rejected }

  function ResolveRow(row: Row, r: string, verdict: Decision, notes: string, now: Time): Row {
    row.(status := StatusFor(verdict), verdict := Some(verdict), notes := notes,
         resolvedBy := Some(r), resolvedAt := Some(now))
  }

  /** Each update keeps the columns in agreement. */
  lemma UpdatesTell(row: Row, r: string, verdict: Decision, notes: string, now: Time)
    requires RowTells(row)
    ensures Open(row) && r != "" ==> RowTells(ClaimRow(row, r, now))
    ensures row.status == Claimed ==> RowTells(Released(row))
    ensures row.status == Claimed && row.claimedBy == Some(r) && verdict != FLAG ==>
              RowTells(ResolveRow(row, r, verdict, notes, now))
  {
  }
}
