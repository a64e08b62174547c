/** What happens to a job's data when a client deletes the job together with it. */
module Discard {
  import opened Options
  import opened Jobs
  import opened Disks
  import opened Paths
  import opened Confinement
  import Matching

  predicate IsDoomed(base: string, dirs: seq<string>, p: Path) {
    exists d :: d in dirs && JobDirUnder(base, d) && Parts(d) <= p
  }

  function Remaining(files: Files, base: string, dirs: seq<string>, spared: set<Path>): Files {
    map p | p in files && (p in spared || !IsDoomed(base, dirs, p)) :: files[p]
  }

  /** The directory the puller was writing to, then the one the row names. */
  function DirsOf(j: Row, abortedDir: string): seq<string> {
    (if abortedDir != "" then [abortedDir] else []) +
    (if j.localPath.GetOr("") != "" then [j.localPath.value] else [])
  }

  /** The file lies in this directory, which may be deleted. */
  predicate IsIn(base: string, dir: string, p: Path) {
    dir != "" && JobDirUnder(base, dir) && Parts(dir) <= p
  }

  lemma DoomedIsIn(j: Row, abortedDir: string, base: string, p: Path)
    ensures IsDoomed(base, DirsOf(j, abortedDir), p) <==>
            IsIn(base, abortedDir, p) || (j.localPath.Some? && IsIn(base, j.localPath.value, p))
    ensures forall d :: d in DirsOf(j, abortedDir) <==> d != "" && (d == abortedDir || j.localPath == Some(d))
  {
    hide JobDirUnder, Parts;
  }

  /**
    Frees the TorBox slot of a job still downloading there and removes its directories. Every file removed
    lies below one of them, at least two elements below the base; every other file stays.
   */
  method Discard(disk: Disk, j: Row, abortedDir: string, base: string, spared: set<Path>)
      returns (released: Option<int>, refused: seq<string>)
    modifies disk
    ensures released ==
            if (j.state == Submitted || j.state == Downloading) && Matching.SoughtID(j) != 0
            then Some(Matching.SoughtID(j)) else None
    ensures disk.files == Remaining(old(disk.files), base, DirsOf(j, abortedDir), spared)
    ensures forall p :: p in disk.files <==>
              && p in old(disk.files)
              && (p in spared
                  || !(IsIn(base, abortedDir, p) || (j.localPath.Some? && IsIn(base, j.localPath.value, p))))
    ensures forall p :: p in disk.files ==> disk.files[p] == old(disk.files)[p]
    ensures forall d :: d in refused <==>
              && d != "" && (d == abortedDir || j.localPath == Some(d)) && !JobDirUnder(base, d)
    ensures forall p :: p in old(disk.files) && p !in disk.files ==>
              IsAbs(base) && Parts(base) <= p && |p| >= |Parts(base)| + 2
  {
    var dirs: seq<string> := [];
    if abortedDir != "" {
      dirs := dirs + [abortedDir];
    }
    released := None;
    if j.state in {Submitted, Downloading} {
      var id := j.EffectiveTorboxID();
      if id != 0 {
        released := Some(id);
      }
    }
    if j.localPath.Some? && j.localPath.value != "" {
      dirs := dirs + [j.localPath.value];
    }
    hide JobDirUnder, Parts, IsDoomed, IsIn;
    Matching.FindForPullIs(j, []);
    assert dirs == DirsOf(j, abortedDir);
    hide DirsOf;
    refused := RemoveDirs(disk, dirs, base, spared);
    forall p {
      DoomedIsIn(j, abortedDir, base, p);
    }
    forall p | p in old(disk.files) && p !in disk.files
      ensures IsAbs(base) && Parts(base) <= p && |p| >= |Parts(base)| + 2
    {
      DoomedIsBelow(base, dirs, p);
    }
  }

  /**
    What a discard does to the files of another job: it spares them all if no directory it removes lies in that
    job's, or the other way round, and it takes them all if one of them is that job's or lies above it.
   */
  lemma DiscardAndOthers(files: Files, base: string, dirs: seq<string>, spared: set<Path>, other: string, p: Path)
    requires p in files && Parts(other) <= p
    ensures (forall d :: d in dirs && JobDirUnder(base, d) ==> !Meets(d, other)) ==>
              p in Remaining(files, base, dirs, spared)
    ensures (exists d :: d in dirs && JobDirUnder(base, d) && Parts(d) <= Parts(other)) && p !in spared ==>
              p !in Remaining(files, base, dirs, spared)
  {
    hide Parts, JobDirUnder;
    if IsDoomed(base, dirs, p) {
      var d :| d in dirs && JobDirUnder(base, d) && Parts(d) <= p;
      BothPrefixes(Parts(d), Parts(other), p);
    }
    if d :| d in dirs && JobDirUnder(base, d) && Parts(d) <= Parts(other) {
      assert Parts(d) <= p;
    }
  }

  method RemoveDirs(disk: Disk, dirs: seq<string>, base: string, spared: set<Path>) returns (refused: seq<string>)
    modifies disk
    ensures disk.files == Remaining(old(disk.files), base, dirs, spared)
    ensures forall d :: d in refused <==> d in dirs && !JobDirUnder(base, d)
  {
    hide JobDirUnder, Parts;
    var seen: set<string> := {};
    refused := [];
    for i := 0 to |dirs|
      invariant seen == set d | d in dirs[..i]
      invariant disk.files == Remaining(old(disk.files), base, dirs[..i], spared)
      invariant forall d :: d in refused <==> d in dirs[..i] && !JobDirUnder(base, d)
    {
      var d := dirs[i];
      assert dirs[..i + 1] == dirs[..i] + [d];
      RemainingOneMore(old(disk.files), base, dirs[..i], d, spared);
      if d in seen {
        continue;
      }
      seen := seen + {d};
      if !JobDirUnder(base, d) {
        refused := refused + [d];
        continue;
      }
      var _ := disk.RemoveAll(Parts(d), spared);
    }
    assert dirs[..|dirs|] == dirs;
  }

  lemma RemainingOneMore(files: Files, base: string, dirs: seq<string>, d: string, spared: set<Path>)
    ensures var rest := Remaining(files, base, dirs, spared);
            Remaining(files, base, dirs + [d], spared) ==
            if d in dirs || !JobDirUnder(base, d) then rest
            else map p | p in rest && (!(Parts(d) <= p) || p in spared) :: rest[p]
  {
    hide JobDirUnder, Parts;
    forall p
      ensures IsDoomed(base, dirs + [d], p) <==> IsDoomed(base, dirs, p) || (JobDirUnder(base, d) && Parts(d) <= p)
    {
      assert d in dirs + [d];
    }
  }

  lemma DoomedIsBelow(base: string, dirs: seq<string>, p: Path)
    requires IsDoomed(base, dirs, p)
    ensures IsAbs(base) && Parts(base) <= p && |p| >= |Parts(base)| + 2
  {
    var d :| d in dirs && JobDirUnder(base, d) && Parts(d) <= p;
    JobDirIsExact(base, d);
    hide Parts, JobDirUnder;
    assert p[..|Parts(base)|] == Parts(d)[..|Parts(base)|];
  }
}
