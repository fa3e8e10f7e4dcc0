/** The review handlers when each runs alone with one clock reading: what they reply and what they leave behind. */
module ReviewDesk {
  import opened Domain
  import opened ReviewClaims
  import Text

  /** The audit_log rows about reviews. */
  datatype Entry =
    | WasClaimed(v: ReviewId, actor: string)
    | ClaimExpired(v: ReviewId, actor: string)
    | WasResolved(v: ReviewId, actor: string, verdict: Decision, model: Decision,
                  override: bool, notes: string, status: ReviewStatus)

  datatype Desk = Desk(rows: Table, locks: Locks, audit: seq<Entry>, now: Time)

  datatype Reply =
    | Done(row: Row)
    | ClaimedByAnother(owner: Option<string>)
    | NotFound
    | NotClaimable(status: ReviewStatus, holder: Option<string>)
    | LockExpired
    | NotesRequired
    | NotClaimed

  // ---------------------------------------------------------------- specification

  function Expired(t: Table, now: Time): set<ReviewId> { set v | v in t && SqlExpired(t[v], now) }

  ghost predicate Enumerates(order: seq<ReviewId>, s: set<ReviewId>) {
    && (forall v :: v in order <==> v in s)
    && (forall i, j :: 0 <= i < j < |order| ==> order[i] != order[j])
  }

  function ExpiryEntry(t: Table, v: ReviewId): Entry
    requires v in t
  {
    var holder := t[v].claimedBy;
    ClaimExpired(v, if holder.Some? && holder.value != "" then holder.value else "system")
  }

  /** The audit rows of a sweep, in the order the database returned the rows. */
  function ExpiryEntries(t: Table, order: seq<ReviewId>): seq<Entry>
    requires forall v :: v in order ==> v in t
  {
    if order == [] then [] else ExpiryEntries(t, order[..|order| - 1]) + [ExpiryEntry(t, order[|order| - 1])]
  }

  function Swept(d: Desk, order: seq<ReviewId>): Desk
    requires Enumerates(order, Expired(d.rows, d.now))
  {
    d.(rows := Sweep(d.rows, d.now), audit := d.audit + ExpiryEntries(d.rows, order))
  }

  predicate MayLock(d: Desk, v: ReviewId, r: string) { Get(d.locks, v, d.now) in {None, Some(r)} }

  /** claim_review. */
  function AfterClaim(d: Desk, v: ReviewId, r: string, order: seq<ReviewId>): (Desk, Reply)
    requires Enumerates(order, Expired(d.rows, d.now))
  {
    if !MayLock(d, v, r) then (d, ClaimedByAnother(Get(d.locks, v, d.now)))
    else
      var s := Swept(d, order);
      if v in s.rows && Claimable(s.rows[v], r, d.now) then
        var row := ClaimRow(s.rows[v], r, d.now);
        (Desk(s.rows[v := row], Set(d.locks, v, r, d.now), s.audit + [WasClaimed(v, r)], d.now), Done(row))
      else
        (s.(locks := d.locks - {v}),
         if v in s.rows then NotClaimable(s.rows[v].status, s.rows[v].claimedBy) else NotFound)
  }

  /** resolve_review. */
  function AfterResolve(d: Desk, v: ReviewId, r: string, verdict: Decision, notes: string): (Desk, Reply) {
    var owner, text := Get(d.locks, v, d.now), Text.Strip(notes);
    if owner == None then (d, LockExpired)
    else if owner != Some(r) then (d, ClaimedByAnother(owner))
    else if v !in d.rows then (d, NotFound)
    else
      var override := verdict != d.rows[v].model;
      if override && |text| < 3 then (d, NotesRequired)
      else if !Resolvable(d.rows[v], r) then (d, NotClaimed)
      else
        var row := ResolveRow(d.rows[v], r, verdict, text, d.now);
        var entry := WasResolved(v, r, verdict, d.rows[v].model, override, text, row.status);
        (d.(rows := d.rows[v := row], locks := d.locks - {v}, audit := d.audit + [entry]), Done(row))
  }

  // ---------------------------------------------------------------- the handlers

  class Handlers {
    var rows: Table
    var locks: Locks
    var audit: seq<Entry>
    var now: Time

    constructor (table: Table, time: Time)
      ensures View() == Desk(table, map[], [], time)
    {
      rows, locks, audit, now := table, map[], [], time;
    }

    function View(): Desk
      reads this
    {
      Desk(rows, locks, audit, now)
    }

    method AcquireReviewClaim(v: ReviewId, r: string) returns (ok: bool, owner: Option<string>)
      modifies `locks
      ensures ok <==> old(MayLock(View(), v, r))
      ensures ok ==> owner == Some(r) && locks == Set(old(locks), v, r, now)
      ensures !ok ==> owner == Get(old(locks), v, now) && locks == old(locks)
    {
      var current := Get(locks, v, now);
      if current == None {
        if Get(locks, v, now) == None {
          locks := Set(locks, v, r, now);
          return true, Some(r);
        }
        current := Get(locks, v, now);
      }
      if current == Some(r) {
        locks := Refresh(locks, v, now);
        return true, Some(r);
      }
      return false, current;
    }

    method ReleaseReviewClaim(v: ReviewId, r: string)
      modifies `locks
      ensures locks == if Get(old(locks), v, now) == Some(r) then old(locks) - {v} else old(locks)
    {
      var current := Get(locks, v, now);
      if current == Some(r) {
        locks := locks - {v};
      }
    }

    /** The released rows come back in whatever order the database chose. */
    method ReleaseExpiredClaims() returns (released: seq<(ReviewId, Option<string>)>, ghost order: seq<ReviewId>)
      modifies `rows, `audit
      ensures Enumerates(order, Expired(old(rows), now))
      ensures View() == Swept(old(View()), order)
      ensures |released| == |order| && forall i | 0 <= i < |order| ::
                order[i] in old(rows) && released[i] == (order[i], old(rows)[order[i]].claimedBy)
    {
      var before, pending := rows, Expired(rows, now);
      rows := Sweep(rows, now);
      released, order := [], [];
      while pending != {}
        invariant pending <= Expired(before, now)
        invariant Enumerates(order, Expired(before, now) - pending)
        invariant rows == Sweep(before, now)
        invariant |released| == |order| && forall i | 0 <= i < |order| ::
            order[i] in before && released[i] == (order[i], before[order[i]].claimedBy)
        invariant audit == old(audit) + ExpiryEntries(before, order)
      {
        var v :| v in pending;
        var holder := before[v].claimedBy;
        released := released + [(v, holder)];
        audit := audit + [ClaimExpired(v, if holder.Some? && holder.value != "" then holder.value else "system")];
        assert (order + [v])[..|order|] == order;
        order, pending := order + [v], pending - {v};
      }
      assert Expired(before, now) - pending == Expired(before, now);
    }

    method ClaimReview(v: ReviewId, r: string) returns (reply: Reply, ghost order: seq<ReviewId>)
      modifies `rows, `locks, `audit
      ensures Enumerates(order, Expired(old(rows), now))
      ensures (View(), reply) == AfterClaim(old(View()), v, r, order)
    {
      var ok, owner := AcquireReviewClaim(v, r);
      if !ok {
        order := SomeOrder(Expired(rows, now));
        return ClaimedByAnother(owner), order;
      }
      var released;
      released, order := ReleaseExpiredClaims();
      if v in rows && Claimable(rows[v], r, now) {
        rows := rows[v := ClaimRow(rows[v], r, now)];
        reply := Done(rows[v]);
        audit := audit + [WasClaimed(v, r)];
      } else {
        ReleaseReviewClaim(v, r);
        assert locks == old(locks) - {v};
        reply := if v in rows then NotClaimable(rows[v].status, rows[v].claimedBy) else NotFound;
      }
    }

    method ResolveReview(v: ReviewId, r: string, verdict: Decision, notes: string) returns (reply: Reply)
      requires verdict != FLAG
      modifies `rows, `locks, `audit
      ensures (View(), reply) == AfterResolve(old(View()), v, r, verdict, notes)
      ensures reply.Done? ==>
                && v in rows && reply.row == rows[v] && rows[v].verdict == Some(verdict)
                && (rows[v].status == Approved <==> verdict == ALLOW)
                && (rows[v].status == Rejected <==> verdict == BLOCK)
    {
      var status := if verdict == ALLOW then Approved else Rejected;
      var text := Text.Strip(notes);
      var owner := Get(locks, v, now);
      if owner == None { return LockExpired; }
      if owner != Some(r) { return ClaimedByAnother(owner); }
      if v !in rows { return NotFound; }
      var model := rows[v].model;
      var override := verdict != model;
      if override && |text| < 3 { return NotesRequired; }
      if !Resolvable(rows[v], r) { return NotClaimed; }
      rows := rows[v := rows[v].(status := status, verdict := Some(verdict), notes := text,
                                 resolvedBy := Some(r), resolvedAt := Some(now))];
      audit := audit + [WasResolved(v, r, verdict, model, override, text, status)];
      ReleaseReviewClaim(v, r);
      reply := Done(rows[v]);
    }

    /** The listing releases dead claims first, so none of them hides work. */
    method ListReviews(status: Option<ReviewStatus>, limit: nat, rank: ReviewId -> Rank)
      returns (shown: seq<(ReviewId, Row)>, ghost order: seq<ReviewId>, ghost page: seq<ReviewId>)
      modifies `rows, `audit
      ensures Enumerates(order, Expired(old(rows), now))
      ensures View() == Swept(old(View()), order)
      ensures IsPage(page, Matching(rows, status), limit, rank, status.Some?)
      ensures |shown| == |page| && forall i | 0 <= i < |page| ::
                page[i] in rows && shown[i] == (page[i], rows[page[i]])
    {
      var released;
      released, order := ReleaseExpiredClaims();
      var found := TakePage(Matching(rows, status), limit, rank, status.Some?);
      PageTells(rows, status, limit, rank, found);
      shown := RowsOf(rows, found);
      page := found;
    }
  }

  // ---------------------------------------------------------------- the page of a listing

  function RowsOf(t: Table, page: seq<ReviewId>): (shown: seq<(ReviewId, Row)>)
    requires forall v | v in page :: v in t
    ensures |shown| == |page| && forall i | 0 <= i < |page| :: page[i] in t && shown[i] == (page[i], t[page[i]])
  {
    if page == [] then [] else [(page[0], t[page[0]])] + RowsOf(t, page[1..])
  }

  /** The two columns a listing sorts by; they are set when a review is queued and no statement updates them. */
  datatype Rank = Rank(priority: int, createdAt: Time)

  /** A listing of one status goes by priority, then oldest first; a listing of all goes newest first. */
  predicate Precedes(a: Rank, b: Rank, byPriority: bool) {
    if byPriority then a.priority < b.priority || (a.priority == b.priority && a.createdAt < b.createdAt)
    else b.createdAt < a.createdAt
  }

  function Matching(t: Table, status: Option<ReviewStatus>): set<ReviewId> {
    set v | v in t && (status.None? || t[v].status == status.value)
  }

  /** In order, as long as the limit and the matches allow, and nothing left out precedes anything shown. */
  ghost predicate IsPage(page: seq<ReviewId>, matching: set<ReviewId>, limit: nat, rank: ReviewId -> Rank,
                         byPriority: bool)
  {
    && (forall v | v in page :: v in matching)
    && |page| == (if |matching| < limit then |matching| else limit)
    && (forall i, j | 0 <= i < j < |page| ::
          page[i] != page[j] && !Precedes(rank(page[j]), rank(page[i]), byPriority))
    && (forall v, w | v in matching && v !in page && w in page :: !Precedes(rank(v), rank(w), byPriority))
  }

  ghost predicate IsFirst(v: ReviewId, s: set<ReviewId>, rank: ReviewId -> Rank, byPriority: bool) {
    v in s && forall w | w in s :: !Precedes(rank(w), rank(v), byPriority)
  }

  lemma SomeFirst(s: set<ReviewId>, rank: ReviewId -> Rank, byPriority: bool)
    requires s != {}
    ensures exists v :: IsFirst(v, s, rank, byPriority)
  {
    var x :| x in s;
    if s == {x} {
      assert IsFirst(x, s, rank, byPriority);
    } else {
      SomeFirst(s - {x}, rank, byPriority);
      var y :| IsFirst(y, s - {x}, rank, byPriority);
      assert IsFirst(if Precedes(rank(x), rank(y), byPriority) then x else y, s, rank, byPriority);
    }
  }

  lemma {:induction false} Distinct(page: seq<ReviewId>, shown: set<ReviewId>)
    requires (forall i, j | 0 <= i < j < |page| :: page[i] != page[j]) && shown == set v | v in page
    ensures |shown| == |page|
  {
    if page != [] {
      var init, last := page[..|page| - 1], page[|page| - 1];
      Distinct(init, set v | v in init);
      assert shown == (set v | v in init) + {last};
    }
  }

  /** A page as long as there are matches leaves none out. */
  lemma AllShown(page: seq<ReviewId>, matching: set<ReviewId>, v: ReviewId)
    requires forall i, j | 0 <= i < j < |page| :: page[i] != page[j]
    requires (forall w | w in page :: w in matching) && |page| == |matching| && v in matching
    ensures v in page
  {
    var shown := set w | w in page;
    Distinct(page, shown);
    assert |matching - shown| == |matching| - |shown| by { assert matching == (matching - shown) + shown; }
  }

  /** A listing shows rows of the asked status only, never more than the limit, and all of them when they are fewer. */
  lemma PageTells(t: Table, status: Option<ReviewStatus>, limit: nat, rank: ReviewId -> Rank, page: seq<ReviewId>)
    requires IsPage(page, Matching(t, status), limit, rank, status.Some?)
    ensures |page| <= limit
    ensures forall v | v in page :: v in t && (status.Some? ==> t[v].status == status.value)
    ensures |page| < limit ==> forall v | v in t && (status.Some? ==> t[v].status == status.value) :: v in page
  {
    forall v | v in t && |page| < limit && (status.Some? ==> t[v].status == status.value) ensures v in page {
      AllShown(page, Matching(t, status), v);
    }
  }

  /** ORDER BY and LIMIT; rows of equal rank come in whatever order the database chose. */
  method TakePage(matching: set<ReviewId>, limit: nat, rank: ReviewId -> Rank, byPriority: bool)
    returns (page: seq<ReviewId>)
    ensures IsPage(page, matching, limit, rank, byPriority)
  {
    page := [];
    var rest := matching;
    while rest != {} && |page| < limit
      invariant rest <= matching && |page| + |rest| == |matching| && |page| <= limit
      invariant forall v :: v in page <==> v in matching && v !in rest
      invariant forall i, j | 0 <= i < j < |page| ::
          page[i] != page[j] && !Precedes(rank(page[j]), rank(page[i]), byPriority)
      invariant forall v, w | v in rest && w in page :: !Precedes(rank(v), rank(w), byPriority)
    {
      SomeFirst(rest, rank, byPriority);
      var v :| v in rest && forall w | w in rest :: !Precedes(rank(w), rank(v), byPriority);
      page, rest := page + [v], rest - {v};
    }
  }

  /** Any finite set can be listed. */
  ghost function SomeOrder(s: set<ReviewId>): (order: seq<ReviewId>)
    ensures Enumerates(order, s)
  {
    if s == {} then []
    else
      var v :| v in s;
      var rest := SomeOrder(s - {v});
      assert forall i :: 0 <= i < |rest| ==> rest[i] in rest;
      rest + [v]
  }
}
