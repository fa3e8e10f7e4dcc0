/** Which review is urgent, and which one a listing shows first, told by the verdict under review and its age. */
module ReviewOrder {
  import opened Domain
  import opened ReviewClaims
  import opened ReviewDesk
  import M = JobMachine
  import E = ExactlyOnce

  // ---------------------------------------------------------------- the priorities stored

  /** Review i is the review of decision k. */
  predicate ReviewOf(db: M.Tables, i: nat, k: nat) {
    i < |db.reviews| && k < |db.decisions| && db.reviews[i].decisionId == db.decisions[k].id
  }

  /** After every run each review row belongs to one decision, which needs a human, and carries its priority. */
  lemma ReviewTellsDecision(es: seq<M.Event>, i: nat, k: nat)
    requires ReviewOf(M.Run(M.INIT, es).db, i, k)
    ensures var db := M.Run(M.INIT, es).db;
            db.decisions[k].envelope.needsReview && E.TellsReview(db.reviews[i], db.decisions[k])
  {
    E.EffectsExactlyOnce(es);
    var db := M.Run(M.INIT, es).db;
    E.HumansAreDecisions(db.decisions, i);
    E.HumansNeedReview(db.decisions, i);
    var x :| 0 <= x < |db.decisions| && db.decisions[x] == E.ForHumans(db.decisions)[i];
    assert x == k;
  }

  /** Rows are read in ascending priority: blocks before all else, then doubtful verdicts, then the rest. */
  lemma UrgencyOrder(es: seq<M.Event>, i: nat, k: nat, x: nat, y: nat)
    requires ReviewOf(M.Run(M.INIT, es).db, i, k) && ReviewOf(M.Run(M.INIT, es).db, x, y)
    ensures var db := M.Run(M.INIT, es).db;
            var p, q, a, b := db.reviews[i].priority, db.reviews[x].priority,
                              db.decisions[k].envelope, db.decisions[y].envelope;
            && p in {10, 20, 50}
            && (a.decision == BLOCK && b.decision != BLOCK ==> p < q)
            && (a.decision != BLOCK && b.decision != BLOCK && a.confidence < 0.6 <= b.confidence ==> p < q)
            && ((a.decision == BLOCK <==> b.decision == BLOCK) && a.confidence <= b.confidence ==> p <= q)
  {
    ReviewTellsDecision(es, i, k);
    ReviewTellsDecision(es, x, y);
  }

  // ---------------------------------------------------------------- what a listing shows

  /** What the columns a listing sorts by were computed from. */
  datatype Facts = Facts(verdict: Decision, confidence: real, createdAt: Time)

  function RankOf(f: Facts): Rank { Rank(M.ReviewPriority(f.verdict, f.confidence), f.createdAt) }

  predicate MoreUrgent(a: Facts, b: Facts) {
    || (a.verdict == BLOCK && b.verdict != BLOCK)
    || (a.verdict != BLOCK && b.verdict != BLOCK && a.confidence < 0.6 <= b.confidence)
  }

  /** a may be shown before b, or instead of b, in a listing of one status: not less urgent, and no younger. */
  predicate MayLead(a: Facts, b: Facts) {
    !MoreUrgent(b, a) && (MoreUrgent(a, b) || a.createdAt <= b.createdAt)
  }

  lemma LeadsIff(a: Facts, b: Facts)
    ensures MayLead(a, b) <==> !Precedes(RankOf(b), RankOf(a), true)
  {
  }

  /**
   * A listing of one status shows the most urgent reviews, the oldest of them first, and leaves none out in favour
   * of one that is less urgent, or as urgent and younger.
   */
  lemma QueueShowsUrgentFirst(page: seq<ReviewId>, matching: set<ReviewId>, limit: nat, facts: ReviewId -> Facts)
    requires IsPage(page, matching, limit, (v: ReviewId) => RankOf(facts(v)), true)
    ensures forall i, j | 0 <= i < j < |page| :: MayLead(facts(page[i]), facts(page[j]))
    ensures forall v, w | v in matching && v !in page && w in page :: MayLead(facts(w), facts(v))
    ensures limit > 0 && matching != {} ==>
              page != [] && forall v | v in matching :: MayLead(facts(page[0]), facts(v))
  {
    forall i, j | 0 <= i < j < |page| ensures MayLead(facts(page[i]), facts(page[j])) {
      LeadsIff(facts(page[i]), facts(page[j]));
    }
    forall v, w | v in matching && v !in page && w in page ensures MayLead(facts(w), facts(v)) {
      LeadsIff(facts(w), facts(v));
    }
    forall v | v in matching && page != [] ensures MayLead(facts(page[0]), facts(v)) {
      if v in page {
        var k :| 0 <= k < |page| && page[k] == v;
        LeadsIff(facts(v), facts(v));
      }
    }
  }

  /** A listing of all reviews shows the newest first, and leaves none out in favour of an older one. */
  lemma HistoryShowsNewestFirst(page: seq<ReviewId>, matching: set<ReviewId>, limit: nat, facts: ReviewId -> Facts)
    requires IsPage(page, matching, limit, (v: ReviewId) => RankOf(facts(v)), false)
    ensures forall i, j | 0 <= i < j < |page| :: facts(page[j]).createdAt <= facts(page[i]).createdAt
    ensures forall v, w | v in matching && v !in page && w in page :: facts(v).createdAt <= facts(w).createdAt
  {
  }
}
