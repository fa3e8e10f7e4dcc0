/** What survives when review handlers interleave freely, and what does not. */
module ReviewSafety {
  import opened Domain
  import opened ReviewClaims
  import opened ReviewInterleaving

  // ---------------------------------------------------------------- single resolution

  /** At most one resolution ever succeeds on a review, it is the last word, and the row says what it said. */
  lemma SingleResolution(s: State, events: seq<Event>, v: ReviewId, k: nat)
    requires Init(s) && v in Run(s, events).rows
    requires k < |Run(s, events).history[v]| && Run(s, events).history[v][k].Settled?
    ensures var n := Run(s, events);
            var h, row := n.history[v], n.rows[v];
            && (forall j :: 0 <= j < |h| && h[j].Settled? ==> j == k)
            && k == |h| - 1 && k > 0 && h[k - 1].Took? && h[k - 1].r == h[k].r
            && row.claimedBy == row.resolvedBy == Some(h[k].r) && row.resolvedAt == Some(h[k].at)
            && row.verdict == Some(h[k].verdict) && row.notes == h[k].text
            && h[k].verdict != FLAG && row.status == (if h[k].verdict == ALLOW then Approved else Rejected)
            && (h[k].verdict != row.model ==> |row.notes| >= 3)
  {
    RunKeeps(s, events);
    var n := Run(s, events);
    var h, row := n.history[v], n.rows[v];
    assert RowOk(n, v);
    assert LawfulAt(row.model, h, k);
    forall j | 0 <= j < |h| && h[j].Settled? ensures j == k { assert LawfulAt(row.model, h, j); }
    LastChange(row.model, h[..k]);
  }

  lemma {:induction false} RebuiltTells(model: Decision, h: seq<Change>)
    requires Lawful(model, h)
    ensures RowTells(Rebuilt(model, h))
    decreases |h|
  {
    if h != [] {
      var n, row := |h| - 1, Rebuilt(model, h[..|h| - 1]);
      forall k | 0 <= k < n ensures LawfulAt(model, h[..n], k) { assert LawfulAt(model, h, k); }
      RebuiltTells(model, h[..n]);
      LastChange(model, h[..n]);
      assert LawfulAt(model, h, n);
      if n > 0 { assert LawfulAt(model, h, n - 1); }
      match h[n]
      case Took(r, at) => UpdatesTell(row, r, ALLOW, "", at);
      case Freed(_) => UpdatesTell(row, "", ALLOW, "", 0);
      case Settled(r, verdict, text, at) => UpdatesTell(row, r, verdict, text, at);
    }
  }

  /** In every interleaving the columns of every row agree: ALLOW is approved, BLOCK is rejected, and so on. */
  lemma RowsTell(s: State, events: seq<Event>, v: ReviewId)
    requires Init(s) && v in Run(s, events).rows
    ensures RowTells(Run(s, events).rows[v])
  {
    RunKeeps(s, events);
    var n := Run(s, events);
    assert RowOk(n, v);
    RebuiltTells(n.rows[v].model, n.history[v]);
  }

  predicate Closed(row: Row) { row.status != Pending && row.status != Claimed }

  lemma RowStepFreezes(s: State, n: State, proc: Proc, v: ReviewId)
    requires s.rows.Keys == s.history.Keys && RowStep(s, n, proc) && v in s.rows
    ensures v in n.rows && n.rows.Keys == n.history.Keys && n.rows[v].model == s.rows[v].model
    ensures Closed(s.rows[v]) ==> n.rows[v] == s.rows[v]
    ensures s.history[v] <= n.history[v]
  {
  }

  lemma StepFreezes(s: State, e: Event, v: ReviewId)
    requires s.rows.Keys == s.history.Keys && v in s.rows
    ensures v in Next(s, e).rows && Next(s, e).rows[v].model == s.rows[v].model
    ensures Closed(s.rows[v]) ==> Next(s, e).rows[v] == s.rows[v]
    ensures s.history[v] <= Next(s, e).history[v]
  {
    if e.Step? && e.p in s.procs {
      StepMovesRows(s, e.p);
      RowStepFreezes(s, StepOf(s, e.p), s.procs[e.p], v);
    }
  }

  /** Nothing changes a resolved row, no row changes its decision, and no history is rewritten. */
  lemma {:induction false} ResolvedIsFrozen(s: State, events: seq<Event>, more: seq<Event>, v: ReviewId)
    requires Init(s) && v in Run(s, events).rows
    ensures var b, n := Run(s, events), Run(s, events + more);
            && v in n.rows && n.rows[v].model == b.rows[v].model && b.history[v] <= n.history[v]
            && (Closed(b.rows[v]) ==> n.rows[v] == b.rows[v])
    decreases |more|
  {
    if more == [] {
      assert events + more == events;
    } else {
      var init, e := more[..|more| - 1], more[|more| - 1];
      ResolvedIsFrozen(s, events, init, v);
      RunKeeps(s, events + init);
      assert (events + more)[..|events + more| - 1] == events + init;
      StepFreezes(Run(s, events + init), e, v);
    }
  }

  // ---------------------------------------------------------------- no early takeover

  /** A claim leaves its holder only after its stored expiry has really passed, stale clock readings included. */
  lemma NoEarlyTakeover(s: State, events: seq<Event>, e: Event, v: ReviewId)
    requires Init(s) && v in Run(s, events).rows && Run(s, events).rows[v].status == Claimed
    ensures var b := Run(s, events);
            v in Next(b, e).rows
            && (Next(b, e).rows[v].claimedBy != b.rows[v].claimedBy ==>
                  b.rows[v].expiresAt.Some? && b.rows[v].expiresAt.value < b.now)
  {
    RunKeeps(s, events);
    var b := Run(s, events);
    StepFreezes(b, e, v);
    if e.Step? && e.p in b.procs {
      StepMovesRows(b, e.p);
      HolderMoves(b, StepOf(b, e.p), b.procs[e.p], v);
    }
  }

  lemma HolderMoves(b: State, n: State, proc: Proc, v: ReviewId)
    requires Inv(b) && ProcOk(b, proc) && RowStep(b, n, proc) && v in b.rows && v in n.rows
    requires b.rows[v].status == Claimed
    ensures n.rows[v].claimedBy != b.rows[v].claimedBy ==>
              b.rows[v].expiresAt.Some? && b.rows[v].expiresAt.value < b.now
  {
    assert RowOk(b, v);
  }

  // ---------------------------------------------------------------- no stranding

  /** e runs another handler of review v, or stops handler p. */
  predicate Contends(s: State, e: Event, p: nat, v: ReviewId) {
    || e == Crash(p)
    || (e.Step? && e.p != p && e.p in s.procs && !s.procs[e.p].ListSweep? && s.procs[e.p].v == v)
  }

  predicate Uncontended(s: State, events: seq<Event>, p: nat, v: ReviewId)
    requires s.rows.Keys == s.history.Keys
  {
    events == [] || (var n := |events| - 1;
                     Uncontended(s, events[..n], p, v) && !Contends(Run(s, events[..n]), events[n], p, v))
  }

  function StepsOf(events: seq<Event>, p: nat): nat {
    if events == [] then 0
    else StepsOf(events[..|events| - 1], p) + if events[|events| - 1] == Step(p) then 1 else 0
  }

  function Phase(proc: Proc): nat {
    match proc
    case ClaimGet(_, _, _) => 0
    case ClaimSet(_, _, _) => 1
    case ClaimSweep(_, _, _) => 2
    case _ => 3
  }

  /** Handler p is claiming v for r, now being its clock reading, and nothing stands in its way; or it has claimed. */
  ghost predicate OnCourse(s: State, p: nat, v: ReviewId, r: string, now: Time, from: nat) {
    && s.rows.Keys == s.history.Keys && v in s.rows && p < s.spawned && from <= |s.history[v]|
    && if p in s.procs then
         && s.procs[p] in {ClaimGet(v, r, now), ClaimSet(v, r, now), ClaimSweep(v, r, now), ClaimWrite(v, r, now)}
         && (s.rows[v].status == Pending || SqlExpired(s.rows[v], now))
         && (Phase(s.procs[p]) < 2 ==> Get(s.locks, v, s.now) == None)
       else
         Took(r, now) in s.history[v][from..]
  }

  lemma OwnStep(s: State, p: nat, v: ReviewId, r: string, now: Time, from: nat)
    requires OnCourse(s, p, v, r, now, from) && p in s.procs
    ensures OnCourse(StepOf(s, p), p, v, r, now, from)
    ensures p in StepOf(s, p).procs ==> Phase(StepOf(s, p).procs[p]) == Phase(s.procs[p]) + 1 < 4
  {
    var n := StepOf(s, p);
    if s.procs[p].ClaimWrite? {
      assert n.history[v] == s.history[v] + [Took(r, now)];
      assert n.history[v][from..][|s.history[v]| - from] == Took(r, now);
    }
  }

  /** What others do to the rows leaves a free row free and a recorded claim recorded. */
  lemma OtherRows(s: State, n: State, proc: Proc, p: nat, v: ReviewId, r: string, now: Time, from: nat)
    requires OnCourse(s, p, v, r, now, from) && RowStep(s, n, proc) && (proc.ListSweep? || proc.v != v)
    requires n.spawned == s.spawned && n.now == s.now && (p in n.procs <==> p in s.procs)
    requires p in s.procs ==> n.procs[p] == s.procs[p]
    requires Get(n.locks, v, n.now) == Get(s.locks, v, s.now)
    ensures OnCourse(n, p, v, r, now, from)
  {
    RowStepFreezes(s, n, proc, v);
    if p !in s.procs { assert s.history[v][from..] <= n.history[v][from..]; }
  }

  lemma StaysOnCourse(s: State, e: Event, p: nat, v: ReviewId, r: string, now: Time, from: nat)
    requires OnCourse(s, p, v, r, now, from) && !Contends(s, e, p, v)
    ensures OnCourse(Next(s, e), p, v, r, now, from)
    ensures p in Next(s, e).procs ==>
              p in s.procs && Phase(Next(s, e).procs[p]) >= Phase(s.procs[p]) + if e == Step(p) then 1 else 0
  {
    if e.Step? {
      if e.p == p && p in s.procs {
        OwnStep(s, p, v, r, now, from);
      } else if e.p in s.procs {
        StepMovesRows(s, e.p);
        StepStaysLocal(s, e.p, v);
        OtherRows(s, StepOf(s, e.p), s.procs[e.p], p, v, r, now, from);
      }
    }
  }

  lemma {:induction false} ReachesClaim(s: State, events: seq<Event>, p: nat, v: ReviewId, r: string, now: Time,
                                        from: nat)
    requires Inv(s) && OnCourse(s, p, v, r, now, from) && p in s.procs && Phase(s.procs[p]) == 0
    requires Uncontended(s, events, p, v)
    ensures Inv(Run(s, events)) && OnCourse(Run(s, events), p, v, r, now, from)
    ensures p in Run(s, events).procs ==> StepsOf(events, p) <= Phase(Run(s, events).procs[p])
    decreases |events|
  {
    if events != [] {
      var init, e := events[..|events| - 1], events[|events| - 1];
      ReachesClaim(s, init, p, v, r, now, from);
      NextKeeps(Run(s, init), e);
      StaysOnCourse(Run(s, init), e, p, v, r, now, from);
    }
  }

  lemma StartsOnCourse(b: State, v: ReviewId, r: string)
    requires Inv(b) && r != "" && v in b.rows && Open(b.rows[v])
    requires v in b.acquired ==> b.acquired[v] + CLAIM_TTL < b.now
    ensures var begun := Next(b, BeginClaim(v, r));
            && OnCourse(begun, b.spawned, v, r, b.now, |b.history[v]|)
            && b.spawned in begun.procs && begun.procs[b.spawned] == ClaimGet(v, r, b.now)
  {
    assert RowOk(b, v) && LockOk(b, v);
  }

  /** The same from any state that keeps the invariant. */
  lemma ClaimGoesThrough(b: State, v: ReviewId, r: string, more: seq<Event>)
    requires Inv(b) && r != "" && v in b.rows && Open(b.rows[v])
    requires v in b.acquired ==> b.acquired[v] + CLAIM_TTL < b.now
    requires Uncontended(Next(b, BeginClaim(v, r)), more, b.spawned, v)
    ensures var n := Run(Next(b, BeginClaim(v, r)), more);
            && (StepsOf(more, b.spawned) >= 4 ==> b.spawned !in n.procs)
            && (b.spawned !in n.procs ==> v in n.history && |b.history[v]| <= |n.history[v]|
                                          && Took(r, b.now) in n.history[v][|b.history[v]|..])
  {
    NextKeeps(b, BeginClaim(v, r));
    StartsOnCourse(b, v, r);
    var begun := Next(b, BeginClaim(v, r));
    ReachesClaim(begun, more, b.spawned, v, r, b.now, |b.history[v]|);
    CourseEnds(Run(begun, more), b.spawned, v, r, b.now, |b.history[v]|, StepsOf(more, b.spawned));
  }

  lemma CourseEnds(n: State, p: nat, v: ReviewId, r: string, now: Time, from: nat, steps: nat)
    requires OnCourse(n, p, v, r, now, from) && (p in n.procs ==> steps <= Phase(n.procs[p]))
    ensures steps >= 4 ==> p !in n.procs
    ensures p !in n.procs ==> v in n.history && from <= |n.history[v]| && Took(r, now) in n.history[v][from..]
  {
  }

  /**
   * Whatever crashed before, once the time to live of the last acquisition has passed, anybody's claim of an open
   * review goes through within four of its own steps, whatever else happens meanwhile away from that review.
   */
  lemma NoStranding(s: State, events: seq<Event>, v: ReviewId, r: string, more: seq<Event>)
    requires Init(s) && r != ""
    requires var b := Run(s, events);
             && v in b.rows && Open(b.rows[v]) && (v in b.acquired ==> b.acquired[v] + CLAIM_TTL < b.now)
             && Uncontended(Next(b, BeginClaim(v, r)), more, b.spawned, v)
    ensures var b := Run(s, events);
            var n := Run(Next(b, BeginClaim(v, r)), more);
            && (StepsOf(more, b.spawned) >= 4 ==> b.spawned !in n.procs)
            && (b.spawned !in n.procs ==> v in n.history && |b.history[v]| <= |n.history[v]|
                                          && Took(r, b.now) in n.history[v][|b.history[v]|..])
  {
    RunKeeps(s, events);
    ClaimGoesThrough(Run(s, events), v, r, more);
  }

  // ---------------------------------------------------------------- when the updates refuse

  /** r's claim is the last thing that happened to the row. */
  predicate TakenBy(h: seq<Change>, r: string) { h != [] && h[|h| - 1].Took? && h[|h| - 1].r == r }

  /**
   * In every interleaving, a resolution that has passed every check before the update is refused by the update
   * exactly when the last thing that happened to the row is not a claim by the same reviewer; otherwise it succeeds.
   */
  lemma ResolveRefusedIff(s: State, events: seq<Event>, p: nat)
    requires Init(s) && p in Run(s, events).procs && Run(s, events).procs[p].ResolveWrite?
    ensures Run(s, events).rows.Keys == Run(s, events).history.Keys && ResolveDecides(Run(s, events), p)
  {
    RunKeeps(s, events);
    ResolveWrites(Run(s, events), p);
  }

  ghost predicate ResolveDecides(b: State, p: nat)
    requires b.rows.Keys == b.history.Keys && p in b.procs && b.procs[p].ResolveWrite?
  {
    var n, proc := Next(b, Step(p)), b.procs[p];
    && proc.v in b.history && proc.v in n.history
    && (p !in n.procs <==> !TakenBy(b.history[proc.v], proc.r))
    && (if p in n.procs
        then n.history[proc.v] == b.history[proc.v] + [Settled(proc.r, proc.verdict, proc.text, proc.now)]
        else n.rows == b.rows)
  }

  lemma ResolveWrites(b: State, p: nat)
    requires Inv(b) && p in b.procs && b.procs[p].ResolveWrite?
    ensures ResolveDecides(b, p)
  {
    var v := b.procs[p].v;
    assert ProcOk(b, b.procs[p]) && RowOk(b, v);
    LastChange(b.rows[v].model, b.history[v]);
  }

  /** The row is settled, or somebody else's claim on it had not ended by the time the handler read the clock. */
  predicate Unavailable(h: seq<Change>, r: string, now: Time) {
    h != [] && match h[|h| - 1]
               case Settled(_, _, _, _) => true
               case Took(holder, at) => holder != r && now <= at + CLAIM_TTL
               case Freed(_) => false
  }

  /** In every interleaving, a claim that holds its lock and has swept is refused by the update exactly then. */
  lemma ClaimRefusedIff(s: State, events: seq<Event>, p: nat)
    requires Init(s) && p in Run(s, events).procs && Run(s, events).procs[p].ClaimWrite?
    ensures Run(s, events).rows.Keys == Run(s, events).history.Keys && ClaimDecides(Run(s, events), p)
  {
    RunKeeps(s, events);
    ClaimWrites(Run(s, events), p);
  }

  ghost predicate ClaimDecides(b: State, p: nat)
    requires b.rows.Keys == b.history.Keys && p in b.procs && b.procs[p].ClaimWrite?
  {
    var n, proc := Next(b, Step(p)), b.procs[p];
    && n.rows.Keys == b.rows.Keys
    && (p in n.procs <==> proc.v !in b.rows || Unavailable(b.history[proc.v], proc.r, proc.now))
    && (if p in n.procs then n.rows == b.rows
        else proc.v in n.history && n.history[proc.v] == b.history[proc.v] + [Took(proc.r, proc.now)])
  }

  lemma ClaimWrites(b: State, p: nat)
    requires Inv(b) && p in b.procs && b.procs[p].ClaimWrite?
    ensures ClaimDecides(b, p)
  {
    var v := b.procs[p].v;
    if v in b.rows {
      assert RowOk(b, v);
      LastChange(b.rows[v].model, b.history[v]);
    }
  }

  // ---------------------------------------------------------------- what does not survive

  lemma OneMore(s: State, events: seq<Event>, e: Event)
    requires s.rows.Keys == s.history.Keys
    ensures Run(s, events + [e]) == Next(Run(s, events), e)
  {
    assert (events + [e])[..|events + [e]| - 1] == events;
  }

  /** A claim that has its lock and has not yet written its row. */
  lemma HalfClaimed(v: ReviewId, r: string) returns (s: State, events: seq<Event>)
    requires r != ""
    ensures Init(s)
    ensures Run(s, events) == State(map[v := NewRow(BLOCK)], Set(map[], v, r, 0), map[0 := ClaimSweep(v, r, 0)], 1, 0,
                                    map[v := []], map[v := 0])
  {
    s := State(map[v := NewRow(BLOCK)], map[], map[], 0, 0, map[v := []], map[]);
    events := [BeginClaim(v, r)];
    OneMore(s, [], BeginClaim(v, r));
    assert [] + events == events;
    assert Run(s, events) == s.(procs := map[0 := ClaimGet(v, r, 0)], spawned := 1);
    OneMore(s, events, Step(0));
    events := events + [Step(0)];
    assert Run(s, events) == s.(procs := map[0 := ClaimSet(v, r, 0)], spawned := 1);
    OneMore(s, events, Step(0));
    events := events + [Step(0)];
  }

  /**
   * The exact agreement of lock and row is a property of undisturbed handlers only: between its two writes a claim
   * shows a live lock on a pending row, and a resolution then passes the Redis check and still ends refused.
   */
  lemma LockWithoutRow(v: ReviewId, r: string) returns (s: State, events: seq<Event>)
    requires r != ""
    ensures Init(s)
    ensures var n := Run(s, events);
            && Get(n.locks, v, n.now) == Some(r) && v in n.rows && n.rows[v].status == Pending
            && 1 in n.procs && n.procs[1].ResolveWrite?
            && 1 !in Next(n, Step(1)).procs && Next(n, Step(1)).rows == n.rows
  {
    s, events := HalfClaimed(v, r);
    var half := Run(s, events);
    OneMore(s, events, BeginResolve(v, r, BLOCK, ""));
    OneMore(s, events + [BeginResolve(v, r, BLOCK, "")], Step(1));
    OneMore(s, events + [BeginResolve(v, r, BLOCK, "")] + [Step(1)], Step(1));
    events := events + [BeginResolve(v, r, BLOCK, "")] + [Step(1)] + [Step(1)];
    Beside(half, v, r);
  }

  /** A resolution begun beside a half-finished claim gets past its checks, and is refused. */
  lemma Beside(half: State, v: ReviewId, r: string)
    requires r != "" && half.rows.Keys == half.history.Keys
    requires half == State(map[v := NewRow(BLOCK)], Set(map[], v, r, 0), map[0 := ClaimSweep(v, r, 0)], 1, 0,
                           map[v := []], map[v := 0])
    ensures var n := Next(Next(Next(half, BeginResolve(v, r, BLOCK, "")), Step(1)), Step(1));
            && Get(n.locks, v, n.now) == Some(r) && v in n.rows && n.rows[v].status == Pending
            && 1 in n.procs && n.procs[1].ResolveWrite?
            && 1 !in Next(n, Step(1)).procs && Next(n, Step(1)).rows == n.rows
  {
    var s1 := Next(half, BeginResolve(v, r, BLOCK, ""));
    assert s1 == Spawn(half, ResolveGet(v, r, 0, BLOCK, ""));
    var s2 := Next(s1, Step(1));
    assert s2.procs[1] == ResolveRead(v, r, 0, BLOCK, "");
  }
}
