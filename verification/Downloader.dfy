/** Fetching one file: written beside its destination, then moved over it. */
module Downloader {
  import opened Octets
  import opened Options
  import opened Disks
  import opened Paths
  import opened Confinement

  datatype FileDownload = FileDownload(fileID: int, url: string, destName: string, size: int)

  datatype ReadEnd = More | EOF | Broken

  /** One round of the copy loop: whether the context had been cancelled, what came, what the disk took. */
  datatype Chunk = Chunk(canceled: bool, data: Bytes, accepted: nat, writeFails: bool, end: ReadEnd)

  datatype CopyError = Canceled | WriteFailed | ShortWrite | ReadFailed

  /** The response body as the server sent it, if it came to its end. */
  function Body(chunks: seq<Chunk>): Option<Bytes> {
    if chunks == [] then None
    else
      match chunks[0].end
      case EOF => Some(chunks[0].data)
      case Broken => None
      case More =>
        var rest := Body(chunks[1..]);
        if rest.Some? then Some(chunks[0].data + rest.value) else None
  }

  /** The data of some rounds, one behind the other. */
  function DataOf(chunks: seq<Chunk>): Bytes {
    if chunks == [] then [] else DataOf(chunks[..|chunks| - 1]) + chunks[|chunks| - 1].data
  }

  lemma {:induction false} DataFrom(c: Chunk, rest: seq<Chunk>)
    ensures DataOf([c] + rest) == c.data + DataOf(rest)
    decreases |rest|
  {
    if rest == [] {
      assert [c] + rest == [c] && [c][..0] == [];
      assert [] + c.data == c.data == c.data + [];
    } else {
      var front, last := rest[..|rest| - 1], rest[|rest| - 1];
      DataFrom(c, front);
      assert ([c] + rest)[..|rest|] == [c] + front;
      assert c.data + DataOf(front) + last.data == c.data + (DataOf(front) + last.data);
    }
  }

  /** The body ends with round `n`: all before it announced more. */
  ghost predicate EndsWith(chunks: seq<Chunk>, n: int) {
    0 <= n < |chunks| && chunks[n].end == EOF && forall i :: 0 <= i < n ==> chunks[i].end == More
  }

  lemma NoData()
    ensures DataOf([]) == []
  {
  }

  /** A body has arrived exactly if some round was the end of it, and it is all the data up to there, in order. */
  lemma {:induction false} BodyIsAll(chunks: seq<Chunk>)
    ensures Body(chunks).Some? <==> exists n :: EndsWith(chunks, n)
    ensures forall n :: EndsWith(chunks, n) ==> Body(chunks) == Some(DataOf(chunks[..n + 1]))
  {
    hide DataOf;
    if chunks != [] {
      var c, rest := chunks[0], chunks[1..];
      BodyIsAll(rest);
      forall n | EndsWith(chunks, n)
        ensures Body(chunks) == Some(DataOf(chunks[..n + 1]))
      {
        DataFrom(c, chunks[1..n + 1]);
        assert [c] + chunks[1..n + 1] == chunks[..n + 1];
        if n == 0 {
          NoData();
          assert chunks[1..1] == [] && c.data + [] == c.data;
        } else {
          assert rest[..n] == chunks[1..n + 1];
          assert EndsWith(rest, n - 1);
        }
      }
      if Body(chunks).Some? {
        if c.end == More {
          var n :| EndsWith(rest, n);
          assert forall i :: 0 < i <= n ==> chunks[i] == rest[i - 1];
          assert EndsWith(chunks, n + 1);
        } else {
          assert EndsWith(chunks, 0);
        }
      }
    }
  }

  /** How many rounds it takes to the end of the body or the failure of the reader. */
  function Rounds(chunks: seq<Chunk>): (n: nat)
    ensures n <= |chunks|
  {
    if chunks == [] then 0 else if chunks[0].end != More then 1 else 1 + Rounds(chunks[1..])
  }

  predicate Smooth(c: Chunk) {
    !c.canceled && (c.data != [] ==> !c.writeFails && c.accepted >= |c.data|)
  }

  /** The part of a chunk the disk took. */
  function Taken(c: Chunk): Bytes {
    if c.accepted < |c.data| then c.data[..c.accepted] else c.data
  }

  /** What the copy leaves in the file, and how it ends. A script that runs out stands for a cancelled context. */
  function Copied(chunks: seq<Chunk>): (Bytes, Option<CopyError>) {
    if chunks == [] || chunks[0].canceled then ([], Some(Canceled))
    else
      var c := chunks[0];
      if c.data != [] && c.writeFails then (Taken(c), Some(WriteFailed))
      else if c.data != [] && c.accepted < |c.data| then (Taken(c), Some(ShortWrite))
      else if c.end == EOF then (c.data, None)
      else if c.end == Broken then (c.data, Some(ReadFailed))
      else
        var rest := Copied(chunks[1..]);
        (c.data + rest.0, rest.1)
  }

  /** The copy succeeds exactly when the body comes to its end undisturbed, and then the file holds all of it. */
  lemma {:induction false} CopyIsWhole(chunks: seq<Chunk>)
    ensures Copied(chunks).1.None? <==> Body(chunks).Some? && forall i :: 0 <= i < Rounds(chunks) ==> Smooth(chunks[i])
    ensures Copied(chunks).1.None? ==> Copied(chunks).0 == Body(chunks).value
  {
    if chunks != [] {
      var rest := chunks[1..];
      CopyIsWhole(rest);
      if Smooth(chunks[0]) && chunks[0].end == More {
        assert forall i :: 0 < i < Rounds(chunks) ==> chunks[i] == rest[i - 1];
        assert forall i :: 0 <= i < Rounds(rest) ==> rest[i] == chunks[i + 1];
      }
    }
  }

  /** Since `n`, the disk has changed at most at `p`. */
  ghost predicate OnlyTouched(trace: seq<Files>, n: nat, before: Files, p: Path) {
    n <= |trace| && forall k :: n <= k < |trace| ==> trace[k] - {p} == before - {p}
  }

  /** `got` is what the first `i` rounds wrote of what the copy writes in all. */
  ghost predicate SoFar(chunks: seq<Chunk>, i: nat, got: Bytes)
    requires i <= |chunks|
  {
    Copied(chunks).0 == got + Copied(chunks[i..]).0 && Copied(chunks).1 == Copied(chunks[i..]).1
  }

  lemma CopyStarts(chunks: seq<Chunk>)
    ensures SoFar(chunks, 0, [])
  {
    assert chunks[0..] == chunks;
    assert [] + Copied(chunks).0 == Copied(chunks).0;
  }

  lemma FirstRound(chunks: seq<Chunk>)
    requires chunks != [] && !chunks[0].canceled
    ensures var c := chunks[0]; var all, rest := Copied(chunks), Copied(chunks[1..]);
            if c.data != [] && c.writeFails then all == (Taken(c), Some(WriteFailed))
            else if c.data != [] && c.accepted < |c.data| then all == (Taken(c), Some(ShortWrite))
            else if c.end == EOF then all == (c.data, None)
            else if c.end == Broken then all == (c.data, Some(ReadFailed))
            else all == (c.data + rest.0, rest.1)
  {
  }

  /** One round of the copy loop. */
  lemma CopyRound(chunks: seq<Chunk>, i: nat, got: Bytes)
    requires i < |chunks| && SoFar(chunks, i, got) && !chunks[i].canceled
    ensures var c := chunks[i]; var all := Copied(chunks);
            if c.data != [] && c.writeFails then all == (got + Taken(c), Some(WriteFailed))
            else if c.data != [] && c.accepted < |c.data| then all == (got + Taken(c), Some(ShortWrite))
            else if c.end == EOF then all == (got + c.data, None)
            else if c.end == Broken then all == (got + c.data, Some(ReadFailed))
            else SoFar(chunks, i + 1, got + c.data)
  {
    hide Copied, Taken;
    assert chunks[i..][0] == chunks[i] && chunks[i..][1..] == chunks[i + 1..];
    FirstRound(chunks[i..]);
    var c, later := chunks[i], Copied(chunks[i + 1..]).0;
    assert got + (c.data + later) == (got + c.data) + later;
  }

  lemma CopyStops(chunks: seq<Chunk>, i: nat, got: Bytes)
    requires i <= |chunks| && SoFar(chunks, i, got) && (i == |chunks| || chunks[i].canceled)
    ensures Copied(chunks) == (got, Some(Canceled))
  {
    if i < |chunks| {
      assert chunks[i..][0] == chunks[i];
    }
    assert got + [] == got;
  }

  /** One write to the file, which held `start` and then `got`; the disk may take less than it is given. */
  method Write(disk: Disk, p: Path, c: Chunk, ghost n: nat, ghost before: Files, ghost start: Bytes, ghost got: Bytes)
      returns (w: nat)
    requires disk.files == before[p := start + got] && OnlyTouched(disk.trace, n, before, p)
    modifies disk
    ensures disk.files == before[p := start + (got + Taken(c))] && OnlyTouched(disk.trace, n, before, p)
    ensures w == |Taken(c)| && old(disk.trace) <= disk.trace
  {
    w := if c.accepted < |c.data| then c.accepted else |c.data|;
    assert c.data[..w] == Taken(c);
    disk.Append(p, c.data[..w]);
    assert start + got + Taken(c) == start + (got + Taken(c));
  }

  lemma NothingTouched(trace: seq<Files>, before: Files, p: Path)
    ensures OnlyTouched(trace, |trace|, before, p)
  {
  }

  method CopyWithProgress(disk: Disk, p: Path, chunks: seq<Chunk>) returns (total: nat, err: Option<CopyError>)
    requires p in disk.files
    modifies disk
    ensures disk.files == old(disk.files)[p := old(disk.files)[p] + Copied(chunks).0]
    ensures err == Copied(chunks).1 && total == |Copied(chunks).0|
    ensures old(disk.trace) <= disk.trace && OnlyTouched(disk.trace, |old(disk.trace)|, old(disk.files), p)
  {
    hide Copied, Taken, OnlyTouched, SoFar;
    ghost var n, before, got, start := |disk.trace|, disk.files, [], disk.files[p];
    total := 0;
    var i := 0;
    NothingTouched(disk.trace, before, p);
    CopyStarts(chunks);
    assert start + got == start && before == before[p := start + got];
    while true
      invariant i <= |chunks| && disk.files == before[p := start + got] && total == |got|
      invariant SoFar(chunks, i, got)
      invariant old(disk.trace) <= disk.trace && OnlyTouched(disk.trace, n, before, p)
      decreases |chunks| - i
    {
      if i == |chunks| || chunks[i].canceled {
        CopyStops(chunks, i, got);
        err := Some(Canceled);
        return;
      }
      var c := chunks[i];
      CopyRound(chunks, i, got);
      TakenIs(c);
      assert c.data == [] ==> got + c.data == got;
      if |c.data| > 0 {
        var w := Write(disk, p, c, n, before, start, got);
        total := total + w;
        got := got + Taken(c);
        if c.writeFails {
          err := Some(WriteFailed);
          return;
        }
        if w != |c.data| {
          err := Some(ShortWrite);
          return;
        }
      }
      if c.end == EOF {
        err := None;
        return;
      }
      if c.end == Broken {
        err := Some(ReadFailed);
        return;
      }
      i := i + 1;
    }
  }

  lemma TakenIs(c: Chunk)
    ensures |Taken(c)| == (if c.accepted < |c.data| then c.accepted else |c.data|)
    ensures c.accepted >= |c.data| ==> Taken(c) == c.data
  {
  }

  // ----- One file -----

  /** How the surroundings behave while a file is fetched; `status` is empty if the request failed. */
  datatype Env = Env(mkdirOk: bool, staleStays: bool, status: Option<int>, openOk: bool, chunks: seq<Chunk>,
                     syncOk: bool, closeOk: bool, renameOk: bool, partialStays: bool)

  datatype Outcome = Fetched | Skipped | Error(reason: string)

  function Key(cwd: string, p: string): Path {
    Parts(Abs(cwd, p))
  }

  predicate IsThere(files: Files, dest: Path, size: int) {
    size > 0 && dest in files && |files[dest]| == size
  }

  /** The server answers, and the partial file can be opened. */
  predicate Answers(env: Env) {
    env.status.Some? && env.status.value < 400 && env.openOk
  }

  /** The whole body arrives, reaches the disk and has the size announced. */
  predicate IsComplete(env: Env, size: int) {
    Copied(env.chunks).1.None? && env.syncOk && env.closeOk && (size > 0 ==> |Copied(env.chunks).0| == size)
  }

  /** Everything goes well from the request to the rename. */
  predicate GoesWell(env: Env, size: int) {
    env.mkdirOk && Answers(env) && IsComplete(env, size) && env.renameOk
  }

  /** What is left when a removal may be refused. */
  function Without(files: Files, p: Path, stays: bool): Files {
    if stays then files else files - {p}
  }

  /** The disk when the request and the copy are over. */
  function AfterFetch(files: Files, partial: Path, size: int, env: Env): Files {
    if !Answers(env) then files
    else
      var full := files[partial := Copied(env.chunks).0];
      if IsComplete(env, size) then full else Without(full, partial, env.partialStays)
  }

  /** The disk when the download is over: what every single step of it left there. */
  function DiskAfter(before: Files, dest: Path, partial: Path, size: int, env: Env): Files {
    if !env.mkdirOk || IsThere(before, dest, size) then before
    else
      var full := AfterFetch(Without(before, partial, env.staleStays), partial, size, env);
      if !Answers(env) || !IsComplete(env, size) then full
      else if !env.renameOk then Without(full, partial, env.partialStays)
      else full[dest := Copied(env.chunks).0] - {partial}
  }

  lemma OnlyTouchedJoin(t1: seq<Files>, t2: seq<Files>, n: nat, before: Files, mid: Files, p: Path)
    requires OnlyTouched(t1, n, before, p) && t1 <= t2 && OnlyTouched(t2, |t1|, mid, p) && mid - {p} == before - {p}
    ensures OnlyTouched(t2, n, before, p)
  {
    assert forall k :: n <= k < |t1| ==> t2[k] == t1[k];
  }

  /** Gives a failed download up. */
  method Abandon(disk: Disk, partial: Path, stays: bool, ghost n: nat, ghost before: Files)
    requires OnlyTouched(disk.trace, n, before, partial) && disk.files - {partial} == before - {partial}
    modifies disk
    ensures OnlyTouched(disk.trace, n, before, partial) && disk.files - {partial} == before - {partial}
    ensures old(disk.trace) <= disk.trace && disk.files == Without(old(disk.files), partial, stays)
  {
    disk.Remove(partial, stays);
  }

  method OpenAndCopy(disk: Disk, partial: Path, chunks: seq<Chunk>) returns (written: nat, err: Option<CopyError>)
    modifies disk
    ensures disk.files == old(disk.files)[partial := Copied(chunks).0]
    ensures err == Copied(chunks).1 && written == |Copied(chunks).0|
    ensures old(disk.trace) <= disk.trace && OnlyTouched(disk.trace, |old(disk.trace)|, old(disk.files), partial)
  {
    hide Copied;
    disk.Truncate(partial);
    assert OnlyTouched(disk.trace, |old(disk.trace)|, old(disk.files), partial);
    ghost var t, mid := disk.trace, disk.files;
    written, err := CopyWithProgress(disk, partial, chunks);
    OnlyTouchedJoin(t, disk.trace, |old(disk.trace)|, old(disk.files), mid, partial);
    assert [] + Copied(chunks).0 == Copied(chunks).0;
  }

  /** The request, the copy and the checks: everything between clearing the partial file and the rename. */
  method FetchPartial(disk: Disk, partial: Path, size: int, env: Env) returns (err: Option<string>)
    modifies disk
    ensures err.None? <==> Answers(env) && IsComplete(env, size)
    ensures err.None? ==> partial in disk.files && disk.files[partial] == Copied(env.chunks).0
    ensures disk.files - {partial} == old(disk.files) - {partial}
    ensures disk.files == AfterFetch(old(disk.files), partial, size, env)
    ensures err.Some? && partial in disk.files ==> env.partialStays || partial in old(disk.files)
    ensures old(disk.trace) <= disk.trace && OnlyTouched(disk.trace, |old(disk.trace)|, old(disk.files), partial)
  {
    if env.status.None? {
      return Some("request");
    }
    if env.status.value >= 400 {
      return Some("status");
    }
    if !env.openOk {
      return Some("open");
    }
    hide Copied, OnlyTouched;
    ghost var n, before := |disk.trace|, disk.files;
    var written, copyErr := OpenAndCopy(disk, partial, env.chunks);
    if copyErr.Some? {
      Abandon(disk, partial, env.partialStays, n, before);
      return Some("copy");
    }
    if !env.syncOk {
      Abandon(disk, partial, env.partialStays, n, before);
      return Some("sync");
    }
    if !env.closeOk {
      Abandon(disk, partial, env.partialStays, n, before);
      return Some("close");
    }
    if size > 0 && written != size {
      Abandon(disk, partial, env.partialStays, n, before);
      return Some("size mismatch");
    }
    return None;
  }

  /** What downloadFile promises once the destination is known. */
  ghost predicate Published(before: Files, after: Files, dest: Path, partial: Path, f: FileDownload, env: Env,
                            r: Outcome) {
    var body := Copied(env.chunks).0;
    && (r.Skipped? <==> IsThere(before, dest, f.size))
    && (r.Fetched? <==> !r.Skipped? && GoesWell(env, f.size))
    && (r.Skipped? ==> after == before)
    && (r.Fetched? ==>
          && Body(env.chunks) == Some(body) && (f.size > 0 ==> |body| == f.size)
          && after - {partial} == before[dest := body] - {partial} && partial !in after)
    && (r.Error? ==>
          && after - {partial} == before - {partial}
          && (partial !in after || env.staleStays || env.partialStays))
  }

  /**
    A status below 400, a body that came to its end undisturbed and has the size announced, and nothing refused
    by the operating system.
   */
  predicate NothingFails(env: Env, size: int) {
    && env.status.Some? && env.status.value < 400
    && Body(env.chunks).Some? && (size > 0 ==> |Body(env.chunks).value| == size)
    && (forall i :: 0 <= i < Rounds(env.chunks) ==>
          var c := env.chunks[i];
          !c.canceled && (c.data == [] || (!c.writeFails && c.accepted >= |c.data|)))
    && env.mkdirOk && env.openOk && env.syncOk && env.closeOk && env.renameOk
  }

  /** Skipped exactly if the file is there in its size, fetched exactly if nothing failed, and then whole. */
  ghost predicate IsOutcome(before: Files, after: Files, dest: Path, f: FileDownload, env: Env, r: Outcome) {
    && (r.Skipped? <==> f.size > 0 && dest in before && |before[dest]| == f.size)
    && (r.Fetched? <==> !r.Skipped? && NothingFails(env, f.size))
    && (r.Fetched? ==> dest in after && Some(after[dest]) == Body(env.chunks))
    && (r.Skipped? ==> after == before)
    && (r.Error? ==> Lookup(after, dest) == Lookup(before, dest))
  }

  lemma PublishedIsOutcome(before: Files, after: Files, dest: Path, partial: Path, f: FileDownload, env: Env,
                           r: Outcome)
    requires dest != partial && Published(before, after, dest, partial, f, env, r)
    ensures IsOutcome(before, after, dest, f, env, r)
  {
    hide Copied, Body, Rounds;
    CopyIsWhole(env.chunks);
    if r.Fetched? {
      assert dest in (after - {partial}) && (after - {partial})[dest] == Copied(env.chunks).0;
    }
    if r.Error? {
      assert dest in after <==> dest in after - {partial};
      assert dest in before <==> dest in before - {partial};
    }
  }

  /** At every instant since `n` the destination was what it was before, or the whole body. */
  ghost predicate AtomicSince(trace: seq<Files>, n: nat, before: Files, dest: Path, partial: Path,
                              body: Option<Bytes>) {
    n <= |trace| &&
    forall k :: n <= k < |trace| ==>
      && trace[k] - {dest, partial} == before - {dest, partial}
      && (Lookup(trace[k], dest) == Lookup(before, dest) || (body.Some? && Lookup(trace[k], dest) == body))
  }

  method FetchAndPublish(disk: Disk, dest: Path, partial: Path, f: FileDownload, env: Env) returns (r: Outcome)
    requires dest != partial && env.mkdirOk
    modifies disk
    ensures Published(old(disk.files), disk.files, dest, partial, f, env, r)
    ensures disk.files == DiskAfter(old(disk.files), dest, partial, f.size, env)
    ensures old(disk.trace) <= disk.trace
    ensures AtomicSince(disk.trace, |old(disk.trace)|, old(disk.files), dest, partial,
                        if r.Fetched? then Some(Copied(env.chunks).0) else None)
  {
    hide Copied, Body, Published, AtomicSince, OnlyTouched;
    if f.size > 0 && dest in disk.files && |disk.files[dest]| == f.size {
      SkippedIsPublished(disk.files, dest, partial, f, env);
      NothingHappened(disk.trace, disk.files, dest, partial);
      return Skipped;
    }
    ghost var n, before := |disk.trace|, disk.files;
    var err := ClearAndFetch(disk, partial, f.size, env);
    DestinationIsUntouched(disk.trace, n, before, dest, partial);
    if err.Some? {
      r := Error(err.value);
      ErrorIsPublished(before, disk.files, dest, partial, f, env, r);
      return;
    }
    ghost var t, mid := disk.trace, disk.files;
    if !env.renameOk {
      disk.Remove(partial, env.partialStays);
      r := Error("rename");
      OneMoreState(t, disk.files, n, before, dest, partial, None);
      ErrorIsPublished(before, disk.files, dest, partial, f, env, r);
      return;
    }
    disk.Rename(partial, dest);
    Renamed(before, mid, disk.files, dest, partial);
    FetchedIsPublished(before, disk.files, dest, partial, f, env);
    OneMoreState(t, disk.files, n, before, dest, partial, Some(Copied(env.chunks).0));
    return Fetched;
  }

  lemma Renamed(before: Files, mid: Files, after: Files, dest: Path, partial: Path)
    requires dest != partial && partial in mid && mid - {partial} == before - {partial}
    requires after == mid[dest := mid[partial]] - {partial}
    ensures after - {dest, partial} == before - {dest, partial}
  {
    assert after - {dest, partial} == (mid - {partial}) - {dest};
    assert before - {dest, partial} == (before - {partial}) - {dest};
  }

  lemma SkippedIsPublished(before: Files, dest: Path, partial: Path, f: FileDownload, env: Env)
    requires IsThere(before, dest, f.size)
    ensures Published(before, before, dest, partial, f, env, Skipped)
  {
  }

  lemma ErrorIsPublished(before: Files, after: Files, dest: Path, partial: Path, f: FileDownload, env: Env, r: Outcome)
    requires r.Error? && !IsThere(before, dest, f.size) && !GoesWell(env, f.size)
    requires after - {partial} == before - {partial} && (partial !in after || env.staleStays || env.partialStays)
    ensures Published(before, after, dest, partial, f, env, r)
  {
  }

  lemma FetchedIsPublished(before: Files, after: Files, dest: Path, partial: Path, f: FileDownload, env: Env)
    requires dest != partial && !IsThere(before, dest, f.size) && GoesWell(env, f.size)
    requires after - {dest, partial} == before - {dest, partial} && partial !in after
    requires dest in after && after[dest] == Copied(env.chunks).0
    ensures Published(before, after, dest, partial, f, env, Fetched)
  {
    CopyIsWhole(env.chunks);
    hide Copied, Body;
    var body := Copied(env.chunks).0;
    assert after - {partial} == (after - {dest, partial})[dest := body];
    assert before[dest := body] - {partial} == (before - {dest, partial})[dest := body];
  }

  lemma NothingHappened(trace: seq<Files>, before: Files, dest: Path, partial: Path)
    ensures AtomicSince(trace, |trace|, before, dest, partial, None)
  {
  }

  lemma OneMoreState(trace: seq<Files>, files: Files, n: nat, before: Files, dest: Path, partial: Path,
                     body: Option<Bytes>)
    requires dest != partial && AtomicSince(trace, n, before, dest, partial, None)
    requires if body.Some? then files - {dest, partial} == before - {dest, partial} && Lookup(files, dest) == body
             else files - {partial} == before - {partial}
    ensures AtomicSince(trace + [files], n, before, dest, partial, body)
  {
    if body.None? {
      assert OnlyTouched([files], 0, before, partial);
      DestinationIsUntouched([files], 0, before, dest, partial);
      assert [files][0] == files;
    }
  }

  /** Removes what an earlier run left behind and fetches into the partial file. */
  method ClearAndFetch(disk: Disk, partial: Path, size: int, env: Env) returns (err: Option<string>)
    requires env.mkdirOk
    modifies disk
    ensures err.None? <==> Answers(env) && IsComplete(env, size)
    ensures err.None? ==> partial in disk.files && disk.files[partial] == Copied(env.chunks).0
    ensures disk.files - {partial} == old(disk.files) - {partial}
    ensures disk.files == AfterFetch(Without(old(disk.files), partial, env.staleStays), partial, size, env)
    ensures err.Some? && partial in disk.files ==> env.partialStays || env.staleStays
    ensures old(disk.trace) <= disk.trace && OnlyTouched(disk.trace, |old(disk.trace)|, old(disk.files), partial)
  {
    hide Copied;
    disk.Remove(partial, env.staleStays);
    assert OnlyTouched(disk.trace, |old(disk.trace)|, old(disk.files), partial);
    ghost var t, mid := disk.trace, disk.files;
    err := FetchPartial(disk, partial, size, env);
    OnlyTouchedJoin(t, disk.trace, |old(disk.trace)|, old(disk.files), mid, partial);
  }

  /**
    Publishes a file all at once or not at all: on success the destination holds the whole response body
    (or held a file of the right size already), after an error it is what it was, and at no instant is it
    anything else. Nothing but the destination and its partial file is touched, and no partial file
    outlives an error unless the operating system refuses to remove it.
   */
  method DownloadFile(disk: Disk, cwd: string, target: string, f: FileDownload, env: Env) returns (r: Outcome)
    requires IsAbs(cwd)
    modifies disk
    ensures SafeJoin(cwd, target, f.destName).None? || !env.mkdirOk ==> r.Error? && disk.files == old(disk.files)
    ensures r.Fetched? ==> NothingFails(env, f.size)
    ensures old(disk.trace) <= disk.trace
    ensures SafeJoin(cwd, target, f.destName).Some? && env.mkdirOk ==>
              var name := SafeJoin(cwd, target, f.destName).value;
              var dest, partial := Key(cwd, name), Key(cwd, name + ".partial");
              && dest != partial
              && IsOutcome(old(disk.files), disk.files, dest, f, env, r)
              && Published(old(disk.files), disk.files, dest, partial, f, env, r)
              && disk.files == DiskAfter(old(disk.files), dest, partial, f.size, env)
              && AtomicSince(disk.trace, |old(disk.trace)|, old(disk.files), dest, partial,
                             if r.Fetched? then Some(Copied(env.chunks).0) else None)
  {
    var joined := SafeJoin(cwd, target, f.destName);
    if joined.None? {
      return Error("destination");
    }
    if !env.mkdirOk {
      return Error("mkdir");
    }
    SuffixedIsOther(cwd, joined.value, ".partial");
    hide SafeJoin, Published, AtomicSince, DiskAfter, NothingFails;
    var dest, partial := Key(cwd, joined.value), Key(cwd, joined.value + ".partial");
    ghost var before := disk.files;
    r := FetchAndPublish(disk, dest, partial, f, env);
    PublishedIsOutcome(before, disk.files, dest, partial, f, env, r);
  }

  lemma DestinationIsUntouched(trace: seq<Files>, n: nat, before: Files, dest: Path, partial: Path)
    requires OnlyTouched(trace, n, before, partial) && dest != partial
    ensures AtomicSince(trace, n, before, dest, partial, None)
  {
    forall k | n <= k < |trace|
      ensures trace[k] - {dest, partial} == before - {dest, partial} && Lookup(trace[k], dest) == Lookup(before, dest)
    {
      assert trace[k] - {dest, partial} == (trace[k] - {partial}) - {dest};
      assert before - {dest, partial} == (before - {partial}) - {dest};
      assert dest in trace[k] <==> dest in trace[k] - {partial};
      assert dest in before <==> dest in before - {partial};
    }
  }
}
