/** Files of one job that get each other's names: when they do, and what is left of them. */
module Collisions {
  import opened Octets
  import opened Options
  import opened Disks
  import opened Paths
  import opened Confinement
  import opened FanOut
  import Downloader
  import FileList

  /** The elements of the partial file's path. */
  function PartialOf(ps: seq<string>): seq<string>
    requires ps != []
  {
    ps[..|ps| - 1] + [ps[|ps| - 1] + ".partial"]
  }

  /** The same name, or that of the other's partial file. */
  predicate Collide(a: seq<string>, b: seq<string>)
    requires a != [] && b != []
  {
    a == b || a == PartialOf(b) || b == PartialOf(a)
  }

  /** The names safeJoin accepts and that come to something. */
  predicate AreAccepted(cwd: string, target: string, names: seq<string>) {
    forall i :: 0 <= i < |names| ==> Parts(names[i]) != [] && SafeJoin(cwd, target, names[i]).Some?
  }

  /** Where the files go. */
  predicate AreWorksOf(cwd: string, target: string, names: seq<string>, works: seq<Work>) {
    && |works| == |names|
    && forall i :: 0 <= i < |names| && SafeJoin(cwd, target, names[i]).Some? ==>
         var name := SafeJoin(cwd, target, names[i]).value;
         works[i].dest == Downloader.Key(cwd, name) && works[i].partial == Downloader.Key(cwd, name + ".partial")
  }

  lemma KeysAre(cwd: string, target: string, names: seq<string>, works: seq<Work>, i: nat)
    requires IsAbs(cwd) && AreAccepted(cwd, target, names) && AreWorksOf(cwd, target, names, works) && i < |names|
    ensures works[i].dest == Parts(Abs(cwd, target)) + Parts(names[i])
    ensures works[i].partial == Parts(Abs(cwd, target)) + PartialOf(Parts(names[i]))
  {
    hide SafeJoin, Parts, Abs;
    SafeJoinIsExact(cwd, target, names[i]);
    PartialIsConfined(cwd, target, names[i]);
  }

  lemma Cancel(a: seq<string>, x: seq<string>, y: seq<string>)
    ensures a + x == a + y <==> x == y
  {
    if a + x == a + y {
      assert x == (a + x)[|a|..] && y == (a + y)[|a|..];
    }
  }

  lemma PartialIsInjective(a: seq<string>, b: seq<string>)
    requires a != [] && b != []
    ensures PartialOf(a) == PartialOf(b) <==> a == b
    ensures PartialOf(a) != a
  {
    var m, n := |a| - 1, |b| - 1;
    assert PartialOf(a)[m] == a[m] + ".partial" != a[m];
    if PartialOf(a) == PartialOf(b) {
      assert a[m] == PartialOf(a)[m][..|a[m]|] && b[n] == PartialOf(b)[n][..|b[n]|];
      assert a[..m] == PartialOf(a)[..m] && b[..n] == PartialOf(b)[..n];
      assert a == a[..m] + [a[m]] && b == b[..n] + [b[n]];
    }
  }

  /** Two files keep out of each other's way exactly if their names do not collide. */
  lemma PairIsApart(cwd: string, target: string, names: seq<string>, works: seq<Work>, i: nat, j: nat)
    requires IsAbs(cwd) && AreAccepted(cwd, target, names) && AreWorksOf(cwd, target, names, works)
    requires i < |names| && j < |names|
    ensures works[i].dest == works[j].dest <==> Parts(names[i]) == Parts(names[j])
    ensures works[i].partial == works[j].partial <==> Parts(names[i]) == Parts(names[j])
    ensures works[i].dest == works[j].partial <==> Parts(names[i]) == PartialOf(Parts(names[j]))
  {
    hide SafeJoin, Parts, Abs, PartialOf, AreWorksOf;
    KeysAre(cwd, target, names, works, i);
    KeysAre(cwd, target, names, works, j);
    var base, a, b := Parts(Abs(cwd, target)), Parts(names[i]), Parts(names[j]);
    PartialIsInjective(a, b);
    Cancel(base, a, b);
    Cancel(base, PartialOf(a), PartialOf(b));
    Cancel(base, a, PartialOf(b));
  }

  /** The files of a job can be fetched apart from each other exactly if no two of their names collide. */
  lemma SeparateExactly(cwd: string, target: string, names: seq<string>, works: seq<Work>)
    requires IsAbs(cwd) && AreAccepted(cwd, target, names) && AreWorksOf(cwd, target, names, works)
    ensures AreSeparate(works) <==>
            forall i, j :: 0 <= i < j < |names| ==> !Collide(Parts(names[i]), Parts(names[j]))
  {
    hide SafeJoin, Parts, PartialOf, Downloader.Key;
    forall i, j | 0 <= i < |names| && 0 <= j < |names|
      ensures works[i].dest == works[j].dest <==> Parts(names[i]) == Parts(names[j])
      ensures works[i].partial == works[j].partial <==> Parts(names[i]) == Parts(names[j])
      ensures works[i].dest == works[j].partial <==> Parts(names[i]) == PartialOf(Parts(names[j]))
    {
      PairIsApart(cwd, target, names, works, i, j);
    }
    forall i | 0 <= i < |names|
      ensures Parts(names[i]) != PartialOf(Parts(names[i]))
    {
      PartialIsInjective(Parts(names[i]), Parts(names[i]));
    }
  }

  /** For instance, files in two folders of which neither is the release folder collide if their short names agree. */
  lemma ShortNamesCollide(release: string, full1: string, full2: string, short: string)
    requires forall rest :: !FileList.IsBelow(release, full1, rest) && !FileList.IsBelow(release, full2, rest)
    requires short != "" && Parts(short) != []
    ensures var name1 := FileList.RelativeFileName(release, full1, short);
            var name2 := FileList.RelativeFileName(release, full2, short);
            Parts(name1) != [] && Parts(name2) != [] && Collide(Parts(name1), Parts(name2))
  {
    FileList.NothingIsStripped(release, full1);
    FileList.NothingIsStripped(release, full2);
    hide Parts;
  }

  // ----- One after the other -----

  ghost predicate EndsIn(works: seq<Work>, limit: nat, before: Files, states: seq<Run>, actions: seq<Action>, r: Run) {
    IsRun(works, limit, before, states, actions) && states[|actions|] == r
  }

  lemma RunGoesOn(works: seq<Work>, limit: nat, before: Files, states: seq<Run>, actions: seq<Action>, r: Run,
                  a: Action)
      returns (states': seq<Run>, actions': seq<Action>)
    requires EndsIn(works, limit, before, states, actions, r) && Enabled(works, limit, r, a)
    ensures EndsIn(works, limit, before, states', actions', Next(works, limit, r, a))
  {
    hide Enabled, Next;
    states', actions' := states + [Next(works, limit, r, a)], actions + [a];
    forall k | 0 <= k < |actions'|
      ensures IsStep(works, limit, states'[k], actions'[k], states'[k + 1])
    {
      if k < |actions| {
        assert IsStep(works, limit, states[k], actions[k], states[k + 1]);
      }
    }
  }

  lemma FailedIsStuck(w: Work, files: Files, s: Stage, events: seq<Event>, files': Files, s': Stage)
    requires Leads(w, files, s, events, files', s') && s.Failed?
    ensures s' == s
  {
  }

  /** The steps of one file, while no other moves and none has failed. */
  lemma {:induction false} FileRuns(works: seq<Work>, limit: nat, before: Files, states: seq<Run>, actions: seq<Action>,
                                    r: Run, i: nat, events: seq<Event>, files: Files, s: Stage)
      returns (states': seq<Run>, actions': seq<Action>)
    requires EndsIn(works, limit, before, states, actions, r) && i < |works| && i < |r.stages| && r.failure.None?
    requires Leads(works[i], r.files, r.stages[i], events, files, s) && s.Finished?
    ensures EndsIn(works, limit, before, states', actions', Run(files, r.stages[i := s], r.launched, None))
    decreases |events|
  {
    hide EndsIn, Can, FilesAfter, StageAfter;
    if events == [] {
      states', actions' := states, actions;
      assert r.stages[i := s] == r.stages;
    } else {
      var e := events[0];
      var next := StageAfter(works[i], r.stages[i], e);
      var files1 := FilesAfter(works[i], r.files, r.stages[i], e);
      if next.Failed? {
        FailedIsStuck(works[i], files1, next, events[1..], files, s);
      }
      states', actions' := RunGoesOn(works, limit, before, states, actions, r, Step(i, e));
      var r1 := Run(files1, r.stages[i := next], r.launched, None);
      assert Next(works, limit, r, Step(i, e)) == r1;
      states', actions' := FileRuns(works, limit, before, states', actions', r1, i, events[1..], files, s);
      assert r.stages[i := next][i := s] == r.stages[i := s];
    }
  }

  /** What fetching a file leaves on the disk. */
  function After(files: Files, w: Work, env: Downloader.Env): Files {
    Downloader.DiskAfter(files, w.dest, w.partial, w.size, env)
  }

  predicate IsFine(files: Files, w: Work, env: Downloader.Env) {
    w.script == env.chunks && env.mkdirOk &&
    (Downloader.IsThere(files, w.dest, w.size) || Downloader.GoesWell(env, w.size))
  }

  /** One file, launched and fetched while the others wait. */
  lemma OneAfterAnother(works: seq<Work>, limit: nat, before: Files, states: seq<Run>, actions: seq<Action>, r: Run,
                        env: Downloader.Env)
      returns (states': seq<Run>, actions': seq<Action>, s: Stage)
    requires EndsIn(works, limit, before, states, actions, r) && r.failure.None? && |r.stages| == |works|
    requires r.launched < |works| && CountActive(r.stages) < limit
    requires works[r.launched].dest != works[r.launched].partial && IsFine(r.files, works[r.launched], env)
    ensures s.Finished?
    ensures EndsIn(works, limit, before, states', actions',
                   Run(After(r.files, works[r.launched], env), r.stages[r.launched := s], r.launched + 1, None))
  {
    hide EndsIn, Leads, Downloader.GoesWell, Downloader.DiskAfter, CountActive;
    var i := r.launched;
    states', actions' := RunGoesOn(works, limit, before, states, actions, r, Launch);
    var r1 := r.(stages := r.stages[i := Starting], launched := i + 1);
    s := DownloadIsSteps(works[i], r.files, env);
    states', actions' := FileRuns(works, limit, before, states', actions', r1, i, StepsOf(works[i], r.files, env),
                                  After(r.files, works[i], env), s);
    assert r.stages[i := Starting][i := s] == r.stages[i := s];
  }

  lemma StartIsRun(works: seq<Work>, limit: nat, before: Files)
    ensures EndsIn(works, limit, before, [Start(works, before)], [], Start(works, before))
    ensures CountActive(Start(works, before).stages) == 0
  {
    NoneActive(Start(works, before).stages);
  }

  /**
    Two files with one destination: when they are fetched one after the other, with whatever bodies and sizes,
    and both well, Run reports success with one of them missing. What is there is the second body, unless the
    first has the size announced for the second, which is then skipped.
   */
  lemma CollisionLosesAFile(a: Work, b: Work, limit: nat, before: Files, envA: Downloader.Env, envB: Downloader.Env)
      returns (states: seq<Run>, actions: seq<Action>)
    requires limit > 0 && a.dest == b.dest && a.partial == b.partial && a.dest != a.partial
    requires a.script == envA.chunks && b.script == envB.chunks
    requires Downloader.GoesWell(envA, a.size) && Downloader.GoesWell(envB, b.size)
    requires !Downloader.IsThere(before, a.dest, a.size)
    ensures IsRun([a, b], limit, before, states, actions) && IsJoined([a, b], states[|actions|])
    ensures states[|actions|].failure.None?
    ensures Downloader.Body(a.script).Some? && Downloader.Body(b.script).Some?
    ensures var first, second := Downloader.Body(a.script).value, Downloader.Body(b.script).value;
            Lookup(states[|actions|].files, a.dest) ==
            Some(if b.size > 0 && |first| == b.size then first else second)
    ensures a.partial !in states[|actions|].files
  {
    var works := [a, b];
    WellIsWhole(before, a, envA);
    var mid := After(before, a, envA);
    if !Downloader.IsThere(mid, b.dest, b.size) {
      WellIsWhole(mid, b, envB);
    }
    BodyIs(envA, a.size);
    BodyIs(envB, b.size);
    hide EndsIn, CountActive, After, Downloader.GoesWell, Downloader.Body;
    StartIsRun(works, limit, before);
    var s: Stage;
    states, actions := [Start(works, before)], [];
    states, actions, s := OneAfterAnother(works, limit, before, states, actions, Start(works, before), envA);
    var r := Run(mid, Start(works, before).stages[0 := s], 1, None);
    TwoStages(s);
    assert r.stages == [s, Queued];
    var s': Stage;
    states, actions, s' := OneAfterAnother(works, limit, before, states, actions, r, envB);
    EndIs(works, limit, before, states, actions, Run(After(mid, b, envB), r.stages[1 := s'], 2, None));
    SkippedIsSame(mid, b, envB);
  }

  lemma TwoStages(s: Stage)
    requires s.Finished?
    ensures CountActive([s, Queued]) == 0
  {
    assert [s, Queued][1..] == [Queued] && [Queued][1..] == [];
  }

  lemma EndIs(works: seq<Work>, limit: nat, before: Files, states: seq<Run>, actions: seq<Action>, r: Run)
    requires EndsIn(works, limit, before, states, actions, r)
    ensures IsRun(works, limit, before, states, actions) && states[|actions|] == r
  {
  }

  lemma SkippedIsSame(files: Files, w: Work, env: Downloader.Env)
    ensures Downloader.IsThere(files, w.dest, w.size) ==> After(files, w, env) == files
  {
  }

  lemma BodyIs(env: Downloader.Env, size: int)
    requires Downloader.GoesWell(env, size)
    ensures Downloader.Body(env.chunks) == Some(Downloader.Copied(env.chunks).0)
  {
    Downloader.CopyIsWhole(env.chunks);
  }

  lemma WellIsWhole(files: Files, w: Work, env: Downloader.Env)
    requires w.script == env.chunks && Downloader.GoesWell(env, w.size) && w.dest != w.partial
    requires !Downloader.IsThere(files, w.dest, w.size)
    ensures var files' := After(files, w, env);
            Lookup(files', w.dest) == Some(Downloader.Copied(w.script).0) && w.partial !in files'
  {
    hide Downloader.Copied;
  }
}
