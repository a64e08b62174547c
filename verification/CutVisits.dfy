/** Why the bound on the time in flight counts the crashes in the middle of overdue visits. */
module CutVisits {
  import opened Options
  import opened Jobs
  import opened StoreSpec
  import opened PollerSpec
  import opened SubmitterSpec
  import opened Pipeline
  import opened PipelineTheorems
  import opened PipelineRuns
  import D = PipelineDeadline

  const JOB := "job"

  /** A TorBox entry that carries an id and says nothing else. */
  function Bare(k: int): Item {
    Item(k, 0, "", "", false, 0, false, 0, 0, [])
  }

  predicate IsSubmittedAt(r: Row, since: Time, t: Time, k: int) {
    r.state == Submitted && r.submittedAt == Some(since) && r.updatedAt == t && r.activeID == Some(k) &&
    r.pushoverSentAt.None?
  }

  /** Between two passes, the only job has just been written. */
  predicate IsParked(w: World, since: Time, k: int) {
    && w.poll.Idle? && w.db.rows.Keys == {JOB} && IsSubmittedAt(w.db.rows[JOB], since, w.now, k)
  }

  // ----- One action each -----

  lemma OnlyListing(rows: Table)
    requires rows.Keys == {JOB} && rows[JOB].state.InFlight()
    ensures IsListing(rows, (r: Row) => r.state.InFlight(), [JOB], POLL_LIMIT)
    ensures |D.InFlightIds(rows)| <= POLL_LIMIT
  {
    assert D.InFlightIds(rows) == {JOB};
  }

  lemma Advanced(s: Setup, w: World, t: Time)
    requires w.now <= t
    ensures Enabled(s, w, Advance(t))
    ensures var w' := NextWorld(s, w, Advance(t)); w'.now == t && w'.poll == w.poll && w'.db == w.db
  {
    hide NextSubs, NextPuller, NextClients, IsListing, IsPullListing;
  }

  lemma PassBegun(s: Setup, w: World)
    requires w.poll.Idle? && w.db.rows.Keys == {JOB} && w.db.rows[JOB].state.InFlight()
    ensures Enabled(s, w, BeginPass([JOB])) && |D.InFlightIds(w.db.rows)| <= POLL_LIMIT
    ensures var w' := NextWorld(s, w, BeginPass([JOB]));
            w'.now == w.now && w'.db == w.db && w'.poll == Passing([Listed(JOB, w.db.rows[JOB])], None)
  {
    OnlyListing(w.db.rows);
    hide NextSubs, NextPuller, NextClients, IsListing, IsPullListing;
    assert Snapshots(w.db.rows, [JOB]) == [Listed(JOB, w.db.rows[JOB])];
  }

  lemma VisitBegun(s: Setup, w: World, item: Option<Item>, l: Listed)
    requires w.poll == Passing([l], None)
    ensures Enabled(s, w, BeginVisit(item))
    ensures var w' := NextWorld(s, w, BeginVisit(item));
            w'.now == w.now && w'.db == w.db && w'.poll == Passing([], Some(Start(l, item)))
  {
    hide NextSubs, NextPuller, NextClients, IsListing, IsPullListing;
  }

  /** The visit notes a new id, and so stamps the row. */
  lemma IDNoted(s: Setup, w: World, k: int, since: Time, t: Time, old_k: int)
    requires w.db.rows.Keys == {JOB} && IsSubmittedAt(w.db.rows[JOB], since, t, old_k) && k != 0 && k != old_k
    requires w.poll == Passing([], Some(Start(Listed(JOB, w.db.rows[JOB]), Some(Bare(k)))))
    ensures Enabled(s, w, VisitStep)
    ensures var w' := NextWorld(s, w, VisitStep);
            && w'.now == w.now && w'.poll.Passing? && w'.db.rows.Keys == {JOB}
            && IsSubmittedAt(w'.db.rows[JOB], since, w.now, k)
  {
    hide NextSubs, NextPuller, NextClients, IsListing, IsPullListing, Observe;
  }

  lemma Crashed(s: Setup, w: World)
    ensures Enabled(s, w, Crash)
    ensures var w' := NextWorld(s, w, Crash); w'.now == w.now && w'.db == w.db && w'.poll.Idle?
  {
    hide NextSubs, NextPuller, NextClients, IsListing, IsPullListing;
  }

  /** A visit without an entry leaves a row alone that was written this very instant. */
  lemma NothingFound(s: Setup, w: World, since: Time, k: int)
    requires w.db.rows.Keys == {JOB} && IsSubmittedAt(w.db.rows[JOB], since, w.now, k)
    requires w.poll == Passing([], Some(Start(Listed(JOB, w.db.rows[JOB]), None)))
    ensures Enabled(s, w, VisitStep)
    ensures var w' := NextWorld(s, w, VisitStep); w'.now == w.now && w'.db == w.db && w'.poll == Passing([], None)
  {
    hide NextSubs, NextPuller, NextClients, IsListing, IsPullListing;
  }

  lemma PassEnded(s: Setup, w: World)
    requires w.poll == Passing([], None)
    ensures Enabled(s, w, EndPass) && D.Completes(w, EndPass)
    ensures var w' := NextWorld(s, w, EndPass); w'.now == w.now && w'.db == w.db && w'.poll.Idle?
  {
    hide NextSubs, NextPuller, NextClients, IsListing, IsPullListing;
  }

  lemma OthersComplete(w: World, a: Action)
    ensures !a.EndPass? ==> !D.Completes(w, a)
  {
  }

  // ----- One round -----

  ghost predicate IsReady(s: Setup, tr: Trace, gap: Time, since: Time, k: int) {
    IsPolledTrace(s, tr, gap) && |tr.worlds| == |tr.actions| + 1 && IsParked(End(tr), since, k) &&
      Done(tr) == End(tr).now
  }

  /** Half a round: a pass finds a new id, notes it and is cut off. */
  lemma CutPass(s: Setup, tr: Trace, gap: Time, since: Time, k: int) returns (longer: Trace)
    requires s.Valid() && gap > 0 && IsReady(s, tr, gap, since, k) && k > 0
    ensures IsPolledTrace(s, longer, gap) && |longer.worlds| == |longer.actions| + 1
    ensures End(longer).now == End(tr).now + gap && Done(longer) == Done(tr) && IsParked(End(longer), since, k + 1)
  {
    hide Enabled, NextWorld, IsPolledTrace, D.Completes, Start, D.InFlightIds;
    var w0 := End(tr);
    var row := w0.db.rows[JOB];
    Advanced(s, w0, w0.now + gap);
    OthersComplete(w0, Advance(w0.now + gap));
    longer := ExtendPolled(s, tr, gap, Advance(w0.now + gap));
    var w1 := End(longer);
    PassBegun(s, w1);
    OthersComplete(w1, BeginPass([JOB]));
    longer := ExtendPolled(s, longer, gap, BeginPass([JOB]));
    var w2 := End(longer);
    VisitBegun(s, w2, Some(Bare(k + 1)), Listed(JOB, row));
    OthersComplete(w2, BeginVisit(Some(Bare(k + 1))));
    longer := ExtendPolled(s, longer, gap, BeginVisit(Some(Bare(k + 1))));
    var w3 := End(longer);
    IDNoted(s, w3, k + 1, since, w0.now, k);
    OthersComplete(w3, VisitStep);
    longer := ExtendPolled(s, longer, gap, VisitStep);
    var w4 := End(longer);
    Crashed(s, w4);
    OthersComplete(w4, Crash);
    longer := ExtendPolled(s, longer, gap, Crash);
  }

  /** The other half: a pass that finds nothing completes, with the row fresh again. */
  lemma IdlePass(s: Setup, tr: Trace, gap: Time, since: Time, k: int) returns (longer: Trace)
    requires s.Valid() && gap > 0 && IsPolledTrace(s, tr, gap) && |tr.worlds| == |tr.actions| + 1
    requires IsParked(End(tr), since, k) && End(tr).now <= Done(tr) + gap
    ensures IsReady(s, longer, gap, since, k) && End(longer).now == End(tr).now
  {
    hide Enabled, NextWorld, IsPolledTrace, D.Completes, Start, D.InFlightIds;
    var w0 := End(tr);
    var row := w0.db.rows[JOB];
    PassBegun(s, w0);
    OthersComplete(w0, BeginPass([JOB]));
    longer := ExtendPolled(s, tr, gap, BeginPass([JOB]));
    var w1 := End(longer);
    VisitBegun(s, w1, None, Listed(JOB, row));
    OthersComplete(w1, BeginVisit(None));
    longer := ExtendPolled(s, longer, gap, BeginVisit(None));
    var w2 := End(longer);
    NothingFound(s, w2, since, k);
    OthersComplete(w2, VisitStep);
    longer := ExtendPolled(s, longer, gap, VisitStep);
    var w3 := End(longer);
    PassEnded(s, w3);
    longer := ExtendPolled(s, longer, gap, EndPass);
  }

  lemma {:induction false} Rounds(s: Setup, tr: Trace, gap: Time, since: Time, k: int, horizon: Time)
      returns (longer: Trace)
    requires s.Valid() && gap > 0 && IsReady(s, tr, gap, since, k) && k > 0
    ensures exists k' :: k' > 0 && IsReady(s, longer, gap, since, k')
    ensures |longer.worlds| > 0 && End(longer).now >= horizon
    decreases horizon - End(tr).now
  {
    hide IsParked, IsPolledTrace;
    if End(tr).now >= horizon {
      longer := tr;
    } else {
      longer := CutPass(s, tr, gap, since, k);
      longer := IdlePass(s, longer, gap, since, k + 1);
      longer := Rounds(s, longer, gap, since, k + 1, horizon);
    }
  }

  // ----- From the beginning -----

  const THE_JOB := NewJob("", "", "", Some([0]), None, Usenet, New)

  const ACCEPTED := Created(0, 1, 0, 0)

  predicate IsFresh(w: World) {
    w.poll.Idle? && w.db.rows.Keys == {JOB} && w.db.rows[JOB] == FreshRow(THE_JOB, w.now)
  }

  lemma Added(s: Setup, w: World)
    requires w.db.rows == map[] && JOB !in w.born && w.poll.Idle? && w.subs == map[]
    ensures Enabled(s, w, Add(JOB, THE_JOB))
    ensures var w' := NextWorld(s, w, Add(JOB, THE_JOB)); w'.now == w.now && IsFresh(w') && w'.subs == map[]
  {
    hide NextPuller, NextClients, IsListing, IsPullListing, Observe;
  }

  lemma Claimed(s: Setup, w: World)
    requires s.Valid() && IsFresh(w) && w.subs == map[]
    ensures Enabled(s, w, ClaimNew([JOB]))
    ensures var w' := NextWorld(s, w, ClaimNew([JOB]));
            && w'.now == w.now && w'.poll.Idle? && w'.db.rows.Keys == {JOB}
            && w'.db.rows[JOB] == FreshRow(THE_JOB, w.now).(claimedAt := Some(w.now))
            && w'.subs == map[JOB := Creating(w'.db.rows[JOB])]
  {
    hide NextPuller, NextClients, IsPullListing, Observe;
    assert IsListing(w.db.rows, (r: Row) => Claimable(r, w.now), [JOB], s.pool);
    hide IsListing;
    assert JOB in [JOB];
  }

  lemma Answered(s: Setup, w: World)
    requires w.poll.Idle? && w.db.rows.Keys == {JOB}
    requires w.db.rows[JOB] == FreshRow(THE_JOB, w.now).(claimedAt := Some(w.now)) &&
             w.subs == map[JOB := Creating(w.db.rows[JOB])]
    ensures Enabled(s, w, Answer(JOB, ACCEPTED))
    ensures var w' := NextWorld(s, w, Answer(JOB, ACCEPTED)); w'.now == w.now && IsParked(w', w.now, 1)
  {
    hide NextPuller, NextClients, IsListing, IsPullListing, Observe, NextSubs;
  }

  lemma GenesisTrace(s: Setup, gap: Time)
    requires s.Valid() && gap >= 0
    ensures var tr := Trace([Genesis(0)], []); IsPolledTrace(s, tr, gap) && Done(tr) == 0
  {
  }

  lemma FirstSubmission(s: Setup, gap: Time) returns (tr: Trace)
    requires s.Valid() && gap > 0
    ensures IsReady(s, tr, gap, 0, 1)
  {
    hide Enabled, NextWorld, IsPolledTrace, D.Completes, IsFresh, IsParked;
    GenesisTrace(s, gap);
    tr := Trace([Genesis(0)], []);
    Added(s, End(tr));
    OthersComplete(End(tr), Add(JOB, THE_JOB));
    tr := ExtendPolled(s, tr, gap, Add(JOB, THE_JOB));
    Claimed(s, End(tr));
    OthersComplete(End(tr), ClaimNew([JOB]));
    tr := ExtendPolled(s, tr, gap, ClaimNew([JOB]));
    Answered(s, End(tr));
    OthersComplete(End(tr), Answer(JOB, ACCEPTED));
    tr := ExtendPolled(s, tr, gap, Answer(JOB, ACCEPTED));
  }

  /**
    Without counting those crashes there is no bound at all: however often passes complete and however far
    the horizon, some run meets the conditions of the bound and ends beyond the horizon with a job in flight
    that was submitted at time 0. Every pass that finds its entry notes a new id and is cut off; every pass
    that completes finds nothing.
   */
  lemma OverdueCutsHaveNoBound(s: Setup, gap: Time, horizon: Time) returns (worlds: seq<World>, actions: seq<Action>)
    requires s.Valid() && gap > 0
    ensures IsRun(s, worlds, actions) && D.IsPolled(worlds, actions, gap, |actions|)
    ensures var w := worlds[|actions|];
            && w.now >= horizon
            && JOB in w.db.rows && w.db.rows[JOB].state.InFlight() && w.db.rows[JOB].InFlightSince() == 0
            && w.db.rows[JOB].pushoverSentAt.None?
  {
    var tr := FirstSubmission(s, gap);
    tr := Rounds(s, tr, gap, 0, 1, horizon);
    worlds, actions := tr.worlds, tr.actions;
  }
}
