/** The two levels agree: a handler that nobody disturbs does in single steps what the desk does at once. */
module ReviewRefinement {
  import opened Domain
  import opened ReviewClaims
  import opened ReviewInterleaving
  import opened ReviewSafety
  import D = ReviewDesk
  import Text

  /** n steps of handler p in a row; a handler that has ended takes no more. */
  function Alone(s: State, p: nat, n: nat): (t: State)
    requires s.rows.Keys == s.history.Keys
    ensures t.rows.Keys == t.history.Keys
  {
    if n == 0 then s
    else
      var t := Alone(s, p, n - 1);
      if p in t.procs then StepOf(t, p) else t
  }

  function Steps(p: nat, n: nat): seq<Event> { if n == 0 then [] else Steps(p, n - 1) + [Step(p)] }

  lemma {:induction false} AloneIsRun(s: State, p: nat, n: nat)
    requires s.rows.Keys == s.history.Keys
    ensures Run(s, Steps(p, n)) == Alone(s, p, n)
  {
    if n > 0 {
      AloneIsRun(s, p, n - 1);
      OneMore(s, Steps(p, n - 1), Step(p));
    }
  }

  /** What both levels share: table, locks and clock, with nobody at work. */
  predicate Shows(s: State, p: nat, d: D.Desk) {
    p !in s.procs && s.rows == d.rows && s.locks == d.locks && s.now == d.now
  }

  predicate At(s: State, p: nat, proc: Proc, rows: Table, locks: Locks, now: Time) {
    && p in s.procs && s.procs[p] == proc && s.rows == rows && s.locks == locks && s.now == now
    && s.rows.Keys == s.history.Keys
  }

  lemma EndedIsIdle(s: State, p: nat, k: nat, t: State)
    requires s.rows.Keys == s.history.Keys && t == Alone(s, p, k) && p !in t.procs
    ensures Alone(s, p, k + 1) == t
  {
  }

  lemma EndedStays(s: State, p: nat, n: nat, m: nat)
    requires s.rows.Keys == s.history.Keys && n <= m && p !in Alone(s, p, n).procs
    ensures Alone(s, p, m) == Alone(s, p, n)
  {
    var t, k := Alone(s, p, n), n;
    while k < m
      invariant n <= k <= m && Alone(s, p, k) == t
    {
      EndedIsIdle(s, p, k, t);
      k := k + 1;
    }
  }

  /** Two commands on, an allowed claim holds its lock for a full time to live. */
  lemma Locking(b: State, p: nat, v: ReviewId, r: string)
    requires At(b, p, ClaimGet(v, r, b.now), b.rows, b.locks, b.now)
    ensures Get(b.locks, v, b.now) in {None, Some(r)} ==>
              At(Alone(b, p, 2), p, ClaimSweep(v, r, b.now), b.rows, Set(b.locks, v, r, b.now), b.now)
    ensures Get(b.locks, v, b.now) !in {None, Some(r)} ==>
              var t := Alone(b, p, 1);
              p !in t.procs && t.rows == b.rows && t.locks == b.locks && t.now == b.now
  {
    assert Alone(b, p, 1) == StepOf(b, p);
    if Get(b.locks, v, b.now) in {None, Some(r)} {
      assert Alone(b, p, 2) == StepOf(Alone(b, p, 1), p);
    }
  }

  /** The end of an allowed claim that found this table and these locks. */
  predicate ClaimEnds(t: State, p: nat, v: ReviewId, r: string, rows: Table, locks: Locks, now: Time) {
    var swept := Sweep(rows, now);
    && p !in t.procs && t.now == now
    && if v in swept && Claimable(swept[v], r, now)
       then t.rows == swept[v := ClaimRow(swept[v], r, now)] && t.locks == Set(locks, v, r, now)
       else t.rows == swept && t.locks == locks - {v}
  }

  lemma Writing(b: State, p: nat, v: ReviewId, r: string, rows: Table, locks: Locks)
    requires b.rows.Keys == b.history.Keys
    requires At(Alone(b, p, 3), p, ClaimWrite(v, r, b.now), Sweep(rows, b.now), Set(locks, v, r, b.now), b.now)
    ensures ClaimEnds(Alone(b, p, 6), p, v, r, rows, locks, b.now)
  {
    var swept, held := Sweep(rows, b.now), Set(locks, v, r, b.now);
    assert Alone(b, p, 4) == StepOf(Alone(b, p, 3), p);
    if v in swept && Claimable(swept[v], r, b.now) {
      EndedStays(b, p, 4, 6);
    } else {
      assert At(Alone(b, p, 4), p, ReleaseGet(v, r, b.now), swept, held, b.now);
      assert At(Alone(b, p, 5), p, ReleaseDelete(v, r, b.now), swept, held, b.now);
      assert held - {v} == locks - {v};
    }
  }

  lemma Sweeping(b: State, p: nat, v: ReviewId, r: string, n: nat, rows: Table, held: Locks)
    requires b.rows.Keys == b.history.Keys && At(Alone(b, p, n), p, ClaimSweep(v, r, b.now), rows, held, b.now)
    ensures At(Alone(b, p, n + 1), p, ClaimWrite(v, r, b.now), Sweep(rows, b.now), held, b.now)
  {
    assert Alone(b, p, n + 1) == StepOf(Alone(b, p, n), p);
  }

  /** An undisturbed claim in six steps is the desk's claim. */
  lemma ClaimAlone(s: State, v: ReviewId, r: string, audit: seq<D.Entry>, order: seq<ReviewId>)
    requires s.rows.Keys == s.history.Keys && s.spawned !in s.procs && r != ""
    requires D.Enumerates(order, D.Expired(s.rows, s.now))
    ensures Shows(Run(Next(s, BeginClaim(v, r)), Steps(s.spawned, 6)), s.spawned,
                  D.AfterClaim(D.Desk(s.rows, s.locks, audit, s.now), v, r, order).0)
  {
    var b, p := Next(s, BeginClaim(v, r)), s.spawned;
    AloneIsRun(b, p, 6);
    Locking(b, p, v, r);
    if Get(s.locks, v, s.now) in {None, Some(r)} {
      Sweeping(b, p, v, r, 2, s.rows, Set(s.locks, v, r, s.now));
      Writing(b, p, v, r, s.rows, s.locks);
    } else {
      EndedStays(b, p, 1, 6);
    }
  }

  lemma Settling(b: State, p: nat, v: ReviewId, r: string, verdict: Decision, text: string, model: Decision)
    requires b.rows.Keys == b.history.Keys
    requires At(Alone(b, p, 2), p, ResolveWrite(v, r, b.now, verdict, text, model), b.rows, b.locks, b.now)
    requires Get(b.locks, v, b.now) == Some(r) && v in b.rows
    ensures var t := Alone(b, p, 5);
            && p !in t.procs && t.now == b.now
            && if Resolvable(b.rows[v], r)
               then t.rows == b.rows[v := ResolveRow(b.rows[v], r, verdict, text, b.now)] && t.locks == b.locks - {v}
               else t.rows == b.rows && t.locks == b.locks
  {
    if Resolvable(b.rows[v], r) {
      var rows := b.rows[v := ResolveRow(b.rows[v], r, verdict, text, b.now)];
      assert At(Alone(b, p, 3), p, ReleaseGet(v, r, b.now), rows, b.locks, b.now);
      assert At(Alone(b, p, 4), p, ReleaseDelete(v, r, b.now), rows, b.locks, b.now);
    } else {
      assert Alone(b, p, 3) == StepOf(Alone(b, p, 2), p);
      EndedStays(b, p, 3, 5);
    }
  }

  /** An undisturbed resolution in five steps is the desk's resolution. */
  lemma ResolveAlone(s: State, v: ReviewId, r: string, verdict: Decision, notes: string, audit: seq<D.Entry>)
    requires s.rows.Keys == s.history.Keys && s.spawned !in s.procs && r != "" && verdict != FLAG
    ensures Shows(Run(Next(s, BeginResolve(v, r, verdict, notes)), Steps(s.spawned, 5)), s.spawned,
                  D.AfterResolve(D.Desk(s.rows, s.locks, audit, s.now), v, r, verdict, notes).0)
  {
    var b, p, text := Next(s, BeginResolve(v, r, verdict, notes)), s.spawned, Text.Strip(notes);
    AloneIsRun(b, p, 5);
    assert Alone(b, p, 1) == StepOf(b, p);
    if Get(s.locks, v, s.now) != Some(r) {
      EndedStays(b, p, 1, 5);
    } else {
      assert At(Alone(b, p, 1), p, ResolveRead(v, r, s.now, verdict, text), s.rows, s.locks, s.now);
      assert Alone(b, p, 2) == StepOf(Alone(b, p, 1), p);
      if v in s.rows && (verdict == s.rows[v].model || |text| >= 3) {
        Settling(b, p, v, r, verdict, text, s.rows[v].model);
      } else {
        EndedStays(b, p, 2, 5);
      }
    }
  }

  lemma ListingAlone(b: State, p: nat)
    requires At(b, p, ListSweep(b.now), b.rows, b.locks, b.now)
    ensures var t := Run(b, Steps(p, 1));
            p !in t.procs && t.rows == Sweep(b.rows, b.now) && t.locks == b.locks && t.now == b.now
  {
    AloneIsRun(b, p, 1);
    assert Alone(b, p, 0) == b;
  }

  /** And a listing's one statement on the table is the desk's sweep. */
  lemma ListAlone(s: State, audit: seq<D.Entry>, order: seq<ReviewId>)
    requires s.rows.Keys == s.history.Keys && s.spawned !in s.procs
    requires D.Enumerates(order, D.Expired(s.rows, s.now))
    ensures Shows(Run(Next(s, BeginList), Steps(s.spawned, 1)), s.spawned,
                  D.Swept(D.Desk(s.rows, s.locks, audit, s.now), order))
  {
    ListingAlone(Next(s, BeginList), s.spawned);
  }
}
