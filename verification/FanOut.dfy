/** Fetching all files of a job at once: goroutines interleave step by step over one disk. */
module FanOut {
  import opened Octets
  import opened Options
  import opened Disks
  import Downloader

  /** One file to fetch: where it goes, where it is written first, its size if known, and the server's response. */
  datatype Work = Work(dest: Path, partial: Path, size: int, script: seq<Downloader.Chunk>)

  /** What a failed file left of its partial file. */
  datatype Remains =
    | Untouched                         // rejected before anything was done
    | Removed
    | Stuck                             // the operating system refused a removal

  datatype Stage =
    | Queued                            // not launched
    | Starting                          // launched
    | Requesting(stale: bool)           // an earlier partial file is removed, or was to be and could not
    | Copying(read: nat, got: Bytes)    // partial file open; so many chunks received
    | Spoiled                           // the reader or the disk failed
    | Closing(body: Bytes)              // the response came to its end
    | Publishing(body: Bytes)           // synced, closed, of the right size
    | Finished(published: Option<Bytes>)     // renamed, or skipped
    | Failed(left: Remains)
  {
    predicate IsDone() { Finished? || Failed? }

    predicate IsActive() { !Queued? && !IsDone() }
  }

  /** In an event that removes the partial file, `stays` says that the operating system refused to. */
  datatype Event =
    | Reject                // bad destination or mkdir failed
    | Skip                  // already there
    | Begin(stays: bool)
    | Refuse                // request failed, status >= 400, or the partial file could not be emptied
    | Open
    | Receive               // the next chunk, with more to come
    | Spill                 // the next chunk, not fully taken by the disk or ended by a failing reader
    | End                   // the next chunk, the last one
    | Break(stays: bool)    // given up: cancelled, spoiled, or not synced or closed
    | Close(stays: bool)    // synced and closed; given up if the size is wrong
    | Publish
    | Unpublish(stays: bool)     // rename failed

  datatype Action = Launch | Step(i: nat, e: Event)

  /** `failure` is firstErr: the file that failed first. */
  datatype Run = Run(files: Files, stages: seq<Stage>, launched: nat, failure: Option<nat>)

  predicate Arrives(w: Work, s: Stage, end: Downloader.ReadEnd) {
    s.Copying? && s.read < |w.script| && Downloader.Smooth(w.script[s.read]) && w.script[s.read].end == end
  }

  predicate Spills(w: Work, s: Stage) {
    && s.Copying? && s.read < |w.script| && !w.script[s.read].canceled
    && (!Downloader.Smooth(w.script[s.read]) || w.script[s.read].end.Broken?)
  }

  /**
    The copy loop stops before the next chunk if its context is cancelled: from outside, or by another file's
    failure.
   */
  predicate Stops(w: Work, s: Stage, canceled: bool) {
    s.Copying? && (canceled || s.read >= |w.script| || w.script[s.read].canceled)
  }

  predicate Can(w: Work, files: Files, s: Stage, e: Event, canceled: bool) {
    match e
    case Reject => s.Starting?
    case Skip => s.Starting? && Downloader.IsThere(files, w.dest, w.size)
    case Begin(_) => s.Starting? && !Downloader.IsThere(files, w.dest, w.size)
    case Refuse => s.Requesting?
    case Open => s.Requesting?
    case Receive => Arrives(w, s, Downloader.More)
    case Spill => Spills(w, s)
    case End => Arrives(w, s, Downloader.EOF)
    case Break(_) => Stops(w, s, canceled) || s.Spoiled? || s.Closing?
    case Close(_) => s.Closing?
    case Publish => s.Publishing?
    case Unpublish(_) => s.Publishing?
  }

  predicate RightSize(w: Work, body: Bytes) {
    w.size > 0 ==> |body| == w.size
  }

  function GivenUp(stays: bool): Stage {
    Failed(if stays then Stuck else Removed)
  }

  function StageAfter(w: Work, s: Stage, e: Event): Stage {
    match e
    case Reject => Failed(Untouched)
    case Skip => Finished(None)
    case Begin(stays) => Requesting(stays)
    case Refuse => if s.Requesting? then GivenUp(s.stale) else s
    case Open => Copying(0, [])
    case Receive => if Arrives(w, s, Downloader.More) then Copying(s.read + 1, s.got + w.script[s.read].data) else s
    case Spill => Spoiled
    case End => if Arrives(w, s, Downloader.EOF) then Closing(s.got + w.script[s.read].data) else s
    case Break(stays) => GivenUp(stays)
    case Close(stays) => if !s.Closing? then s else if RightSize(w, s.body) then Publishing(s.body) else GivenUp(stays)
    case Publish => if s.Publishing? then Finished(Some(s.body)) else s
    case Unpublish(stays) => GivenUp(stays)
  }

  function Appended(files: Files, p: Path, data: Bytes): Files {
    if p in files then files[p := files[p] + data] else files
  }

  function FilesAfter(w: Work, files: Files, s: Stage, e: Event): Files {
    match e
    case Begin(stays) => Downloader.Without(files, w.partial, stays)
    case Open => files[w.partial := []]
    case Receive | Spill | End =>
      if s.Copying? && s.read < |w.script| then Appended(files, w.partial, Downloader.Taken(w.script[s.read]))
      else files
    case Break(stays) => Downloader.Without(files, w.partial, stays)
    case Close(stays) =>
      if s.Closing? && !RightSize(w, s.body) then Downloader.Without(files, w.partial, stays) else files
    case Publish => if w.partial in files then files[w.dest := files[w.partial]] - {w.partial} else files
    case Unpublish(stays) => Downloader.Without(files, w.partial, stays)
    case Reject | Skip | Refuse => files
  }

  function CountActive(stages: seq<Stage>): nat {
    if stages == [] then 0 else (if stages[0].IsActive() then 1 else 0) + CountActive(stages[1..])
  }

  predicate Enabled(works: seq<Work>, limit: nat, r: Run, a: Action) {
    match a
    case Launch => r.launched < |works| && r.launched < |r.stages| && CountActive(r.stages) < limit
    case Step(i, e) => i < |works| && i < |r.stages| && Can(works[i], r.files, r.stages[i], e, r.failure.Some?)
  }

  function Next(works: seq<Work>, limit: nat, r: Run, a: Action): Run
    requires Enabled(works, limit, r, a)
  {
    match a
    case Launch => r.(stages := r.stages[r.launched := Starting], launched := r.launched + 1)
    case Step(i, e) =>
      var s := StageAfter(works[i], r.stages[i], e);
      Run(FilesAfter(works[i], r.files, r.stages[i], e), r.stages[i := s], r.launched,
          if s.Failed? && r.failure.None? then Some(i) else r.failure)
  }

  function Start(works: seq<Work>, files: Files): Run {
    Run(files, seq(|works|, _ => Queued), 0, None)
  }

  /** All goroutines have been launched and have ended: wg.Wait returns. */
  predicate IsJoined(works: seq<Work>, r: Run) {
    r.launched == |works| && forall i :: 0 <= i < |r.stages| ==> r.stages[i].IsDone()
  }

  /** No two files share a destination or a partial file, and none is the other's. */
  ghost predicate AreSeparate(works: seq<Work>) {
    && (forall i, j :: 0 <= i < |works| && 0 <= j < |works| ==> works[i].dest != works[j].partial)
    && (forall i, j :: 0 <= i < j < |works| ==> works[i].dest != works[j].dest && works[i].partial != works[j].partial)
  }

  ghost predicate IsOneOf(works: seq<Work>, p: Path) {
    exists i :: 0 <= i < |works| && (p == works[i].dest || p == works[i].partial)
  }

  // ----- What every step keeps -----

  predicate SameIn(files: Files, before: Files, p: Path) {
    Lookup(files, p) == Lookup(before, p)
  }

  /** `got` is the response up to chunk `read`. */
  ghost predicate IsPart(script: seq<Downloader.Chunk>, read: nat, got: Bytes) {
    && read <= |script|
    && var rest := Downloader.Body(script[read..]);
       Downloader.Body(script) == if rest.Some? then Some(got + rest.value) else None
  }

  /**
    What the disk holds for a file at each stage, compared with what it held before the run and with the
    response of the server.
   */
  ghost predicate FileOk(w: Work, before: Files, files: Files, s: Stage) {
    && (if s.Finished? && s.published.Some? then Lookup(files, w.dest) == s.published
        else SameIn(files, before, w.dest))
    && match s
       case Queued | Starting => SameIn(files, before, w.partial)
       case Requesting(stale) => stale || w.partial !in files
       case Copying(read, got) => Lookup(files, w.partial) == Some(got) && IsPart(w.script, read, got)
       case Spoiled => true
       case Closing(body) => Lookup(files, w.partial) == Some(body) && Downloader.Body(w.script) == Some(body)
       case Publishing(body) =>
         Lookup(files, w.partial) == Some(body) && Downloader.Body(w.script) == Some(body) && RightSize(w, body)
       case Finished(body) =>
         if body.Some? then w.partial !in files && Downloader.Body(w.script) == body && RightSize(w, body.value)
         else SameIn(files, before, w.partial) && Downloader.IsThere(before, w.dest, w.size)
       case Failed(left) =>
         match left
         case Untouched => SameIn(files, before, w.partial)
         case Removed => w.partial !in files
         case Stuck => true
  }

  ghost predicate FilesOk(works: seq<Work>, before: Files, r: Run) {
    && |r.stages| == |works|
    && (forall i :: 0 <= i < |works| ==> FileOk(works[i], before, r.files, r.stages[i]))
    && (forall p :: !IsOneOf(works, p) ==> Lookup(r.files, p) == Lookup(before, p))
  }

  ghost predicate CountsOk(limit: nat, r: Run) {
    && r.launched <= |r.stages|
    && CountActive(r.stages) <= limit
    && (forall i :: r.launched <= i < |r.stages| ==> r.stages[i] == Queued)
    && (forall i :: 0 <= i < r.launched ==> r.stages[i] != Queued)
    && (r.failure.Some? ==> r.failure.value < |r.stages| && r.stages[r.failure.value].Failed?)
    && (r.failure.None? ==> forall i :: 0 <= i < |r.stages| ==> !r.stages[i].Failed?)
  }

  lemma {:induction false} CountChanges(stages: seq<Stage>, i: nat, s: Stage)
    requires i < |stages|
    ensures CountActive(stages[i := s]) ==
            CountActive(stages) - (if stages[i].IsActive() then 1 else 0) + (if s.IsActive() then 1 else 0)
    decreases i
  {
    if i > 0 {
      assert stages[i := s][1..] == stages[1..][i - 1 := s];
      CountChanges(stages[1..], i - 1, s);
    } else {
      assert stages[i := s][1..] == stages[1..];
    }
  }

  lemma {:induction false} NoneActive(stages: seq<Stage>)
    requires forall i :: 0 <= i < |stages| ==> stages[i] == Queued
    ensures CountActive(stages) == 0
  {
    if stages != [] {
      NoneActive(stages[1..]);
    }
  }

  /** A step of one file leaves everything but its own two names alone. */
  lemma StepIsLocal(w: Work, files: Files, s: Stage, e: Event, p: Path)
    requires p != w.dest && p != w.partial
    ensures Lookup(FilesAfter(w, files, s, e), p) == Lookup(files, p)
  {
  }

  /** The next chunk belongs to the response; if it is the last one, the response is complete. */
  lemma ChunkArrives(w: Work, s: Stage, end: Downloader.ReadEnd)
    requires Arrives(w, s, end) && IsPart(w.script, s.read, s.got)
    ensures Downloader.Taken(w.script[s.read]) == w.script[s.read].data
    ensures end.More? ==> IsPart(w.script, s.read + 1, s.got + w.script[s.read].data)
    ensures end.EOF? ==> Downloader.Body(w.script) == Some(s.got + w.script[s.read].data)
  {
    var c := w.script[s.read];
    assert w.script[s.read..][0] == c && w.script[s.read..][1..] == w.script[s.read + 1..];
    var rest := Downloader.Body(w.script[s.read + 1..]);
    assert rest.Some? ==> s.got + (c.data + rest.value) == (s.got + c.data) + rest.value;
  }

  lemma StartsEmpty(w: Work)
    ensures IsPart(w.script, 0, [])
  {
    assert w.script[0..] == w.script;
    var body := Downloader.Body(w.script);
    assert body.Some? ==> [] + body.value == body.value;
  }

  lemma StepKeepsOwn(w: Work, before: Files, files: Files, s: Stage, e: Event, canceled: bool)
    requires Can(w, files, s, e, canceled) && FileOk(w, before, files, s) && w.dest != w.partial
    ensures FileOk(w, before, FilesAfter(w, files, s, e), StageAfter(w, s, e))
  {
    hide Downloader.Body, IsPart, Downloader.Smooth, Downloader.Taken;
    if e.Open? {
      StartsEmpty(w);
    } else if e.Receive? {
      ChunkArrives(w, s, Downloader.More);
    } else if e.End? {
      ChunkArrives(w, s, Downloader.EOF);
    }
  }

  lemma FileOkDependsOnItsNames(w: Work, before: Files, files: Files, files': Files, s: Stage)
    requires Lookup(files', w.dest) == Lookup(files, w.dest) && Lookup(files', w.partial) == Lookup(files, w.partial)
    ensures FileOk(w, before, files, s) ==> FileOk(w, before, files', s)
  {
  }

  lemma FilesStay(works: seq<Work>, limit: nat, before: Files, r: Run, a: Action)
    requires AreSeparate(works) && FilesOk(works, before, r) && Enabled(works, limit, r, a)
    requires a.Launch? ==> r.stages[r.launched].Queued?
    ensures FilesOk(works, before, Next(works, limit, r, a))
  {
    hide FileOk, FilesAfter, StageAfter, Can;
    var r' := Next(works, limit, r, a);
    match a
    case Launch =>
      LaunchKeepsOwn(works[r.launched], before, r.files);
    case Step(i, e) =>
      StepKeepsOwn(works[i], before, r.files, r.stages[i], e, r.failure.Some?);
      forall j | 0 <= j < |works| && j != i
        ensures FileOk(works[j], before, r'.files, r'.stages[j])
      {
        StepIsLocal(works[i], r.files, r.stages[i], e, works[j].dest);
        StepIsLocal(works[i], r.files, r.stages[i], e, works[j].partial);
        FileOkDependsOnItsNames(works[j], before, r.files, r'.files, r.stages[j]);
      }
      forall p | !IsOneOf(works, p)
        ensures Lookup(r'.files, p) == Lookup(before, p)
      {
        StepIsLocal(works[i], r.files, r.stages[i], e, p);
      }
  }

  lemma LaunchKeepsOwn(w: Work, before: Files, files: Files)
    requires FileOk(w, before, files, Queued)
    ensures FileOk(w, before, files, Starting)
  {
  }

  lemma CountsStay(works: seq<Work>, limit: nat, r: Run, a: Action)
    requires |r.stages| == |works| && CountsOk(limit, r) && Enabled(works, limit, r, a)
    ensures CountsOk(limit, Next(works, limit, r, a))
  {
    hide FilesAfter, CountActive;
    match a
    case Launch =>
      CountChanges(r.stages, r.launched, Starting);
    case Step(i, e) =>
      CountChanges(r.stages, i, StageAfter(works[i], r.stages[i], e));
  }

  // ----- Whole runs -----

  ghost predicate IsRun(works: seq<Work>, limit: nat, before: Files, states: seq<Run>, actions: seq<Action>) {
    && |states| == |actions| + 1
    && states[0] == Start(works, before)
    && forall k :: 0 <= k < |actions| ==> IsStep(works, limit, states[k], actions[k], states[k + 1])
  }

  ghost predicate IsStep(works: seq<Work>, limit: nat, r: Run, a: Action, r': Run) {
    Enabled(works, limit, r, a) && r' == Next(works, limit, r, a)
  }

  lemma {:induction false} ReachableIsOk(works: seq<Work>, limit: nat, before: Files, states: seq<Run>,
                                         actions: seq<Action>, n: nat)
    requires AreSeparate(works) && IsRun(works, limit, before, states, actions) && n < |states|
    ensures FilesOk(works, before, states[n]) && CountsOk(limit, states[n])
  {
    if n == 0 {
      NoneActive(states[0].stages);
    } else {
      ReachableIsOk(works, limit, before, states, actions, n - 1);
      assert IsStep(works, limit, states[n - 1], actions[n - 1], states[n]);
      hide FilesOk, Next, CountsOk;
      LaunchedIsQueued(works, limit, before, states[n - 1], actions[n - 1]);
      FilesStay(works, limit, before, states[n - 1], actions[n - 1]);
      CountsStay(works, limit, states[n - 1], actions[n - 1]);
    }
  }

  lemma LaunchedIsQueued(works: seq<Work>, limit: nat, before: Files, r: Run, a: Action)
    requires FilesOk(works, before, r) && CountsOk(limit, r) && Enabled(works, limit, r, a)
    ensures |r.stages| == |works| && (a.Launch? ==> r.stages[r.launched].Queued?)
  {
  }

  /**
    At every instant of every interleaving: at most `limit` files are being fetched, each destination is
    what it was before the run or the whole response of its server, of the right size if one is known,
    and no other file on the disk has changed.
   */
  lemma AtomicAtEveryInstant(works: seq<Work>, limit: nat, before: Files, states: seq<Run>, actions: seq<Action>,
                             n: nat)
    requires AreSeparate(works) && IsRun(works, limit, before, states, actions) && n < |states|
    ensures var r := states[n];
            && |r.stages| == |works| && CountActive(r.stages) <= limit
            && (forall i :: 0 <= i < |works| ==>
                  || SameIn(r.files, before, works[i].dest)
                  || IsWhole(works[i], r.files))
            && (forall p :: !IsOneOf(works, p) ==> SameIn(r.files, before, p))
  {
    ReachableIsOk(works, limit, before, states, actions, n);
    hide IsRun, CountActive, Downloader.Body;
    var r := states[n];
    assert forall i :: 0 <= i < |works| ==> FileOk(works[i], before, r.files, r.stages[i]);
  }

  /** The destination holds the response of its server from beginning to end, of the size announced. */
  predicate IsWhole(w: Work, files: Files) {
    w.dest in files && Downloader.Body(w.script) == Some(files[w.dest]) && RightSize(w, files[w.dest])
  }

  /** The file was fetched whole, or was there with the announced size and has been left alone. */
  predicate IsKept(w: Work, before: Files, files: Files) {
    IsWhole(w, files) || (Downloader.IsThere(before, w.dest, w.size) && SameIn(files, before, w.dest))
  }

  /** The failed file left its destination alone, and no new partial file unless a removal was refused. */
  predicate IsSpared(w: Work, before: Files, files: Files, left: Remains) {
    && SameIn(files, before, w.dest)
    && (left.Stuck? || w.partial !in files || SameIn(files, before, w.partial))
  }

  lemma DoneIsDone(w: Work, before: Files, files: Files, s: Stage)
    requires FileOk(w, before, files, s) && s.IsDone()
    ensures s.Finished? ==> IsKept(w, before, files)
    ensures s.Failed? ==> IsSpared(w, before, files, s.left)
  {
    hide Downloader.Body, Downloader.IsThere;
  }

  /**
    When Run returns, all its goroutines have ended; it succeeds exactly if every file did, and then every
    destination holds its whole response, or held a file of the announced size already and was left
    alone. A failed file left its destination alone, and no partial file behind that was not there before
    unless the operating system refused to remove it.
   */
  lemma RunIsAllOrError(works: seq<Work>, limit: nat, before: Files, states: seq<Run>, actions: seq<Action>, n: nat)
    requires AreSeparate(works) && IsRun(works, limit, before, states, actions)
    requires n < |states| && IsJoined(works, states[n])
    ensures var r := states[n];
            && |r.stages| == |works| && CountActive(r.stages) == 0
            && (r.failure.None? <==> forall i :: 0 <= i < |works| ==> r.stages[i].Finished?)
            && (r.failure.None? ==> forall i :: 0 <= i < |works| ==> IsKept(works[i], before, r.files))
            && (forall i :: 0 <= i < |works| && r.stages[i].Failed? ==>
                  IsSpared(works[i], before, r.files, r.stages[i].left))
  {
    hide IsRun, FileOk, SameIn, IsWhole, Downloader.IsThere, CountActive;
    ReachableIsOk(works, limit, before, states, actions, n);
    var r := states[n];
    NoneIsActive(r.stages);
    forall i | 0 <= i < |works|
      ensures r.stages[i].Finished? ==> IsKept(works[i], before, r.files)
      ensures r.stages[i].Failed? ==> IsSpared(works[i], before, r.files, r.stages[i].left)
    {
      DoneIsDone(works[i], before, r.files, r.stages[i]);
    }
    if r.failure.Some? {
      assert !r.stages[r.failure.value].Finished?;
    }
  }

  lemma {:induction false} NoneIsActive(stages: seq<Stage>)
    requires forall i :: 0 <= i < |stages| ==> stages[i].IsDone()
    ensures CountActive(stages) == 0
  {
    if stages != [] {
      NoneIsActive(stages[1..]);
    }
  }

  // ----- The goroutine that runs alone -----

  /** These steps of one file, whose context no other file cancels, lead from here to there. */
  ghost predicate Leads(w: Work, files: Files, s: Stage, events: seq<Event>, files': Files, s': Stage)
    decreases |events|
  {
    if events == [] then files' == files && s' == s
    else
      && Can(w, files, s, events[0], false)
      && Leads(w, FilesAfter(w, files, s, events[0]), StageAfter(w, s, events[0]), events[1..], files', s')
  }

  lemma {:induction false} LeadsOn(w: Work, f0: Files, s0: Stage, first: seq<Event>, f1: Files, s1: Stage,
                                   second: seq<Event>, f2: Files, s2: Stage)
    requires Leads(w, f0, s0, first, f1, s1) && Leads(w, f1, s1, second, f2, s2)
    ensures Leads(w, f0, s0, first + second, f2, s2)
    decreases |first|
  {
    if first == [] {
      assert first + second == second;
    } else {
      assert (first + second)[0] == first[0] && (first + second)[1..] == first[1..] + second;
      var e := first[0];
      hide Can, FilesAfter, StageAfter;
      LeadsOn(w, FilesAfter(w, f0, s0, e), StageAfter(w, s0, e), first[1..], f1, s1, second, f2, s2);
    }
  }

  lemma LeadsOne(w: Work, files: Files, s: Stage, e: Event)
    requires Can(w, files, s, e, false)
    ensures Leads(w, files, s, [e], FilesAfter(w, files, s, e), StageAfter(w, s, e))
  {
    assert [e][1..] == [];
  }

  /** The steps of the copy loop for what is left of the response. */
  function CopySteps(rest: seq<Downloader.Chunk>): seq<Event> {
    if rest == [] || rest[0].canceled then []
    else if !Downloader.Smooth(rest[0]) || rest[0].end.Broken? then [Spill]
    else if rest[0].end.EOF? then [End]
    else [Receive] + CopySteps(rest[1..])
  }

  /** The steps from the end of the copy on. */
  function ClosingSteps(w: Work, env: Downloader.Env): seq<Event> {
    var copied := Downloader.Copied(w.script);
    if copied.1.Some? || !env.syncOk || !env.closeOk then [Break(env.partialStays)]
    else if !RightSize(w, copied.0) then [Close(env.partialStays)]
    else [Close(env.partialStays), if env.renameOk then Publish else Unpublish(env.partialStays)]
  }

  /** The steps downloadFile takes, failure by failure. */
  function StepsOf(w: Work, before: Files, env: Downloader.Env): seq<Event> {
    if !env.mkdirOk then [Reject]
    else if Downloader.IsThere(before, w.dest, w.size) then [Skip]
    else if !Downloader.Answers(env) then [Begin(env.staleStays), Refuse]
    else [Begin(env.staleStays), Open] + CopySteps(w.script) + ClosingSteps(w, env)
  }

  /** Where the copy loop gets to. */
  predicate CopyEnded(w: Work, s: Stage, all: Bytes, err: Option<Downloader.CopyError>) {
    if err.None? then s == Closing(all) else Stops(w, s, false) || s.Spoiled?
  }

  lemma {:induction false} CopyLeads(w: Work, files: Files, read: nat, got: Bytes) returns (s: Stage)
    requires read <= |w.script| && w.partial in files && files[w.partial] == got
    ensures var rest := Downloader.Copied(w.script[read..]);
            && CopyEnded(w, s, got + rest.0, rest.1)
            && Leads(w, files, Copying(read, got), CopySteps(w.script[read..]), files[w.partial := got + rest.0], s)
    decreases |w.script| - read
  {
    var rest := w.script[read..];
    s := Copying(read, got);
    if rest == [] || rest[0].canceled {
      assert got + [] == got && files[w.partial := got] == files;
    } else {
      var c := w.script[read];
      assert rest[0] == c && rest[1..] == w.script[read + 1..];
      if !Downloader.Smooth(c) || c.end.Broken? {
        LeadsOne(w, files, s, Spill);
        s := Spoiled;
      } else if c.end.EOF? {
        LeadsOne(w, files, s, End);
        s := Closing(got + c.data);
      } else {
        LeadsOne(w, files, s, Receive);
        var files' := files[w.partial := got + c.data];
        var later := Downloader.Copied(w.script[read + 1..]).0;
        assert got + (c.data + later) == (got + c.data) + later;
        assert files'[w.partial := (got + c.data) + later] == files[w.partial := got + (c.data + later)];
        var s' := CopyLeads(w, files', read + 1, got + c.data);
        LeadsOn(w, files, s, [Receive], files', Copying(read + 1, got + c.data),
                CopySteps(w.script[read + 1..]), files[w.partial := got + (c.data + later)], s');
        s := s';
      }
    }
  }

  lemma ClosingLeads(w: Work, full: Files, s: Stage, env: Downloader.Env) returns (s': Stage)
    requires w.script == env.chunks && w.partial in full && full[w.partial] == Downloader.Copied(w.script).0
    requires CopyEnded(w, s, Downloader.Copied(w.script).0, Downloader.Copied(w.script).1)
    ensures s'.IsDone() && (s'.Finished? <==> Downloader.IsComplete(env, w.size) && env.renameOk)
    ensures Leads(w, full, s, ClosingSteps(w, env),
                  if !Downloader.IsComplete(env, w.size) || !env.renameOk
                  then Downloader.Without(full, w.partial, env.partialStays)
                  else full[w.dest := Downloader.Copied(w.script).0] - {w.partial}, s')
  {
    hide Downloader.Copied, Leads;
    var copied, stays := Downloader.Copied(w.script), env.partialStays;
    if copied.1.Some? || !env.syncOk || !env.closeOk {
      LeadsOne(w, full, s, Break(stays));
      s' := GivenUp(stays);
    } else if !RightSize(w, copied.0) {
      LeadsOne(w, full, s, Close(stays));
      s' := GivenUp(stays);
    } else {
      var last := if env.renameOk then Publish else Unpublish(stays);
      LeadsOne(w, full, s, Close(stays));
      LeadsOne(w, full, Publishing(copied.0), last);
      s' := StageAfter(w, Publishing(copied.0), last);
      LeadsOn(w, full, s, [Close(stays)], full, Publishing(copied.0), [last],
              FilesAfter(w, full, Publishing(copied.0), last), s');
      assert [Close(stays)] + [last] == [Close(stays), last];
    }
  }

  /**
    Whatever downloadFile does when it runs by itself, this machine does in the steps of that outcome: the
    same disk at the end for a refused removal, a failed request, every kind of failed copy, sync, close,
    size check and rename, and for success; and it finishes exactly if downloadFile does.
   */
  lemma DownloadIsSteps(w: Work, before: Files, env: Downloader.Env) returns (s: Stage)
    requires w.dest != w.partial && w.script == env.chunks
    ensures Leads(w, before, Starting, StepsOf(w, before, env),
                  Downloader.DiskAfter(before, w.dest, w.partial, w.size, env), s)
    ensures s.IsDone()
    ensures s.Finished? <==>
            env.mkdirOk && (Downloader.IsThere(before, w.dest, w.size) || Downloader.GoesWell(env, w.size))
  {
    hide Leads, Downloader.IsComplete, Downloader.Copied, CopySteps, ClosingSteps;
    var stale := env.staleStays;
    if !env.mkdirOk {
      LeadsOne(w, before, Starting, Reject);
      s := Failed(Untouched);
    } else if Downloader.IsThere(before, w.dest, w.size) {
      LeadsOne(w, before, Starting, Skip);
      s := Finished(None);
    } else {
      var cleared := Downloader.Without(before, w.partial, stale);
      var next := if Downloader.Answers(env) then Open else Refuse;
      LeadsOne(w, before, Starting, Begin(stale));
      LeadsOne(w, cleared, Requesting(stale), next);
      LeadsOn(w, before, Starting, [Begin(stale)], cleared, Requesting(stale), [next],
              FilesAfter(w, cleared, Requesting(stale), next), StageAfter(w, Requesting(stale), next));
      assert [Begin(stale)] + [next] == [Begin(stale), next];
      s := GivenUp(stale);
      if Downloader.Answers(env) {
        s := OpenedLeads(w, before, cleared, env);
      }
    }
  }

  /** From the open partial file to the end. */
  lemma OpenedLeads(w: Work, before: Files, cleared: Files, env: Downloader.Env) returns (s: Stage)
    requires w.dest != w.partial && w.script == env.chunks && Downloader.Answers(env)
    requires env.mkdirOk && !Downloader.IsThere(before, w.dest, w.size)
    requires cleared == Downloader.Without(before, w.partial, env.staleStays)
    requires Leads(w, before, Starting, [Begin(env.staleStays), Open], cleared[w.partial := []], Copying(0, []))
    ensures s.IsDone() && (s.Finished? <==> Downloader.IsComplete(env, w.size) && env.renameOk)
    ensures Leads(w, before, Starting, StepsOf(w, before, env),
                  Downloader.DiskAfter(before, w.dest, w.partial, w.size, env), s)
  {
    hide Leads, Downloader.IsComplete, Downloader.Copied, CopySteps, ClosingSteps;
    var emptied := cleared[w.partial := []];
    var all := Downloader.Copied(w.script).0;
    var full := cleared[w.partial := all];
    assert w.script[0..] == w.script && [] + all == all && emptied[w.partial := all] == full;
    var s1 := CopyLeads(w, emptied, 0, []);
    s := ClosingLeads(w, full, s1, env);
    var head := [Begin(env.staleStays), Open];
    LeadsOn(w, before, Starting, head, emptied, Copying(0, []), CopySteps(w.script), full, s1);
    LeadsOn(w, before, Starting, head + CopySteps(w.script), full, s1, ClosingSteps(w, env),
            Downloader.DiskAfter(before, w.dest, w.partial, w.size, env), s);
  }
}
