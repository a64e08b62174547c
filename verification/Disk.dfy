/** The files on disk, by the elements of their absolute paths. */
module Disks {
  import opened Octets
  import opened Options

  type Path = seq<string>
  type Files = map<Path, Bytes>

  function Lookup(files: Files, p: Path): Option<Bytes> {
    if p in files then Some(files[p]) else None
  }

  class Disk {
    var files: Files
    /** Every content the disk has had. */
    ghost var trace: seq<Files>

    /** os.RemoveAll; the operating system may refuse to remove some of the files. */
    method RemoveAll(dir: Path, spared: set<Path>) returns (ok: bool)
      modifies this
      ensures files == map p | p in old(files) && (!(dir <= p) || p in spared) :: old(files)[p]
      ensures ok <==> forall p :: p in files ==> !(dir <= p)
      ensures trace == old(trace) + [files]
    {
      files := map p | p in files && (!(dir <= p) || p in spared) :: files[p];
      ok := forall p | p in files :: !(dir <= p);
      trace := trace + [files];
    }

    method Remove(p: Path, refused: bool)
      modifies this
      ensures files == if refused then old(files) else old(files) - {p}
      ensures trace == old(trace) + [files]
    {
      if !refused {
        files := files - {p};
      }
      trace := trace + [files];
    }

    /** Opens a file for writing from the start. */
    method Truncate(p: Path)
      modifies this
      ensures files == old(files)[p := []]
      ensures trace == old(trace) + [files]
    {
      files := files[p := []];
      trace := trace + [files];
    }

    method Append(p: Path, data: Bytes)
      requires p in files
      modifies this
      ensures files == old(files)[p := old(files)[p] + data]
      ensures trace == old(trace) + [files]
    {
      files := files[p := files[p] + data];
      trace := trace + [files];
    }

    method Rename(from: Path, to: Path)
      requires from in files && from != to
      modifies this
      ensures files == old(files)[to := old(files)[from]] - {from}
      ensures trace == old(trace) + [files]
    {
      files := files[to := files[from]] - {from};
      trace := trace + [files];
    }
  }
}
