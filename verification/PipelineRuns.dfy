/** Building runs of the pipeline one action at a time, for promises that fail. */
module PipelineRuns {
  import opened Options
  import opened Jobs
  import opened StoreSpec
  import opened PollerSpec
  import opened SubmitterSpec
  import opened Pipeline
  import opened PipelineTheorems
  import D = PipelineDeadline
  import P = PullerSpec

  datatype Trace = Trace(worlds: seq<World>, actions: seq<Action>)

  ghost predicate IsTrace(s: Setup, tr: Trace) {
    IsRun(s, tr.worlds, tr.actions)
  }

  function End(tr: Trace): World
    requires tr.worlds != []
  {
    tr.worlds[|tr.worlds| - 1]
  }

  lemma Extend(s: Setup, tr: Trace, a: Action) returns (longer: Trace)
    requires IsTrace(s, tr) && Enabled(s, End(tr), a)
    ensures longer.worlds != [] && |longer.worlds| == |longer.actions| + 1
    ensures IsTrace(s, longer) && longer.actions == tr.actions + [a] && longer.worlds == tr.worlds + [End(longer)]
    ensures End(longer) == NextWorld(s, End(tr), a)
  {
    hide Enabled, NextWorld;
    var w := NextWorld(s, End(tr), a);
    longer := Trace(tr.worlds + [w], tr.actions + [a]);
    forall i | 0 <= i < |longer.actions|
      ensures Step(s, longer.worlds[i], longer.actions[i], longer.worlds[i + 1])
    {
      if i < |tr.actions| {
        assert Step(s, tr.worlds[i], tr.actions[i], tr.worlds[i + 1]);
      }
    }
  }

  // ----- Polled runs -----

  function Done(tr: Trace): Time
    requires |tr.worlds| == |tr.actions| + 1
  {
    D.LastPass(tr.worlds, tr.actions, |tr.actions|)
  }

  function Began(tr: Trace): Time
    requires |tr.worlds| == |tr.actions| + 1
  {
    D.PassBegan(tr.worlds, tr.actions, |tr.actions|)
  }

  lemma {:induction false} PassesOfPrefix(tr: Trace, longer: Trace, n: nat)
    requires |tr.worlds| == |tr.actions| + 1 && |longer.worlds| == |longer.actions| + 1 && n < |tr.worlds|
    requires tr.worlds <= longer.worlds && tr.actions <= longer.actions
    ensures D.PassBegan(longer.worlds, longer.actions, n) == D.PassBegan(tr.worlds, tr.actions, n)
    ensures D.LastPass(longer.worlds, longer.actions, n) == D.LastPass(tr.worlds, tr.actions, n)
  {
    hide D.Completes;
    if n > 0 {
      PassesOfPrefix(tr, longer, n - 1);
    }
  }

  ghost predicate IsPolledTrace(s: Setup, tr: Trace, gap: Time) {
    IsTrace(s, tr) && D.IsPolled(tr.worlds, tr.actions, gap, |tr.actions|)
  }

  lemma LongerIsPolled(tr: Trace, longer: Trace, a: Action, gap: Time)
    requires |tr.worlds| == |tr.actions| + 1 && |longer.worlds| == |longer.actions| + 1
    requires tr.worlds <= longer.worlds && longer.actions == tr.actions + [a]
    requires D.IsPolled(tr.worlds, tr.actions, gap, |tr.actions|)
    requires a.BeginPass? ==> |D.InFlightIds(End(tr).db.rows)| <= POLL_LIMIT
    requires End(longer).now <= Done(longer) + gap
    ensures D.IsPolled(longer.worlds, longer.actions, gap, |longer.actions|)
  {
    hide D.Completes, D.InFlightIds, D.LastPass, D.PassBegan;
    var n := |tr.actions|;
    forall k | 0 <= k <= n
      ensures longer.worlds[k] == tr.worlds[k]
      ensures longer.worlds[k].now <= D.LastPass(longer.worlds, longer.actions, k) + gap
    {
      PassesOfPrefix(tr, longer, k);
    }
    assert forall k :: 0 <= k < n ==> longer.actions[k] == tr.actions[k];
  }

  lemma PassesOfLonger(tr: Trace, longer: Trace, a: Action)
    requires |tr.worlds| == |tr.actions| + 1 && |longer.worlds| == |longer.actions| + 1
    requires tr.worlds <= longer.worlds && longer.actions == tr.actions + [a]
    ensures Done(longer) == if D.Completes(End(tr), a) then Began(tr) else Done(tr)
    ensures Began(longer) == if a.BeginPass? then End(tr).now else Began(tr)
  {
    hide D.Completes;
    PassesOfPrefix(tr, longer, |tr.actions|);
  }

  /** One more action of a polled run. */
  lemma ExtendPolled(s: Setup, tr: Trace, gap: Time, a: Action) returns (longer: Trace)
    requires IsPolledTrace(s, tr, gap) && Enabled(s, End(tr), a)
    requires a.BeginPass? ==> |D.InFlightIds(End(tr).db.rows)| <= POLL_LIMIT
    requires NextWorld(s, End(tr), a).now <= (if D.Completes(End(tr), a) then Began(tr) else Done(tr)) + gap
    ensures |longer.worlds| == |longer.actions| + 1
    ensures IsPolledTrace(s, longer, gap) && longer.actions == tr.actions + [a] &&
            End(longer) == NextWorld(s, End(tr), a)
    ensures Done(longer) == if D.Completes(End(tr), a) then Began(tr) else Done(tr)
    ensures Began(longer) == if a.BeginPass? then End(tr).now else Began(tr)
  {
    hide Enabled, NextWorld, D.Completes, D.InFlightIds, IsTrace, D.IsPolled, Done, Began;
    longer := Extend(s, tr, a);
    TraceIsLong(s, tr);
    PassesOfLonger(tr, longer, a);
    LongerIsPolled(tr, longer, a, gap);
  }

  lemma TraceIsLong(s: Setup, tr: Trace)
    requires IsTrace(s, tr)
    ensures |tr.worlds| == |tr.actions| + 1
  {
  }
}
