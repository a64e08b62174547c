/** Which files of a TorBox entry are downloaded, and under which names. */
module FileList {
  import opened Options
  import opened Text
  import opened Downloader
  import opened PollerSpec
  import opened Paths
  import opened Confinement

  const NOISE: seq<string> := [".nfo", ".sfv", ".txt", ".jpg", ".png", ".srr", ".par2", ".sample"]
  const VIDEO: seq<string> :=
    [".mkv", ".mp4", ".m4v", ".avi", ".ts", ".m2ts", ".mov", ".wmv", ".mpg", ".mpeg", ".webm"]

  predicate IsNoise(name: string) {
    var lower := Lower(name);
    HasAnySuffix(lower, NOISE) || Contains(lower, "/sample/") || Contains(lower, "sample.")
  }

  predicate IsVideo(name: string) {
    HasAnySuffix(Lower(name), VIDEO)
  }

  predicate IsDigit(c: char) {
    '0' <= c <= '9'
  }

  /** The text ends in `start` followed by `n` digits. */
  predicate EndsInNumber(s: string, start: string, n: nat) {
    var k := |s| - n;
    k >= |start| && s[k - |start|..k] == start && forall i :: k <= i < |s| ==> IsDigit(s[i])
  }

  /** .rar, .zip, .7z, .r00 to .r999 and split parts like .001. */
  predicate IsArchive(name: string) {
    var lower := Lower(name);
    || HasSuffix(lower, ".rar") || HasSuffix(lower, ".zip") || HasSuffix(lower, ".7z")
    || EndsInNumber(lower, ".r", 2) || EndsInNumber(lower, ".r", 3) || EndsInNumber(lower, ".", 3)
  }

  predicate IsWanted(f: ListedFile) {
    !IsNoise(f.name) && !IsArchive(f.name)
  }

  /** What is left of a name without the release folder and one slash. */
  function Rest(release: string, full: string): string {
    TrimPrefix(TrimPrefix(full, release + "/"), "/")
  }

  /** Where a file goes below the job's directory. */
  function RelativeFileName(release: string, full: string, short: string): string {
    var trimmed := Rest(release, full);
    if trimmed == "" || trimmed == full then
      if short != "" then short else Paths.Base(full)
    else trimmed
  }

  /** The answer to a link request: a link, or an error. */
  type Link = Option<string>

  datatype Built =
    | ArchivesOnly
    | NoLink(fileID: int)
    | NothingPlayable
    | Files(downloads: seq<FileDownload>, total: int)

  /** A listed file, and the answer a request for its link gets. */
  datatype Offer = Offer(file: ListedFile, link: Link)

  // ----- What the loops compute -----

  predicate SomeVideo(offers: seq<Offer>) {
    exists o :: o in offers && !IsNoise(o.file.name) && IsVideo(o.file.name)
  }

  predicate SomeArchive(offers: seq<Offer>) {
    exists o :: o in offers && !IsNoise(o.file.name) && IsArchive(o.file.name)
  }

  function Wanted(offers: seq<Offer>): seq<Offer> {
    if offers == [] then []
    else if IsWanted(offers[|offers| - 1].file) then Wanted(offers[..|offers| - 1]) + [offers[|offers| - 1]]
    else Wanted(offers[..|offers| - 1])
  }

  function TotalSize(offers: seq<Offer>): int {
    if offers == [] then 0 else TotalSize(offers[..|offers| - 1]) + offers[|offers| - 1].file.size
  }

  function ToDownload(release: string, o: Offer): FileDownload {
    FileDownload(o.file.id, o.link.GetOr(""), RelativeFileName(release, o.file.name, o.file.shortName), o.file.size)
  }

  function Downloads(release: string, offers: seq<Offer>): seq<FileDownload> {
    seq(|offers|, i requires 0 <= i < |offers| => ToDownload(release, offers[i]))
  }

  predicate AllLinked(offers: seq<Offer>) {
    forall i :: 0 <= i < |offers| ==> offers[i].link.Some?
  }

  /** The first file without a link. */
  ghost predicate FirstUnlinked(offers: seq<Offer>, fileID: int) {
    exists i :: 0 <= i < |offers| && AllLinked(offers[..i]) && offers[i].link.None? && offers[i].file.id == fileID
  }

  /**
    The list, or why there is none: archives without a video are left alone; otherwise every wanted file in
    order, or the first wanted file without a link.
   */
  method BuildFileList(release: string, offers: seq<Offer>) returns (r: Built)
    ensures r.ArchivesOnly? <==>
              && (exists o :: o in offers && !IsNoise(o.file.name) && IsArchive(o.file.name))
              && !(exists o :: o in offers && !IsNoise(o.file.name) && IsVideo(o.file.name))
    ensures r.NoLink? ==> FirstUnlinked(Wanted(offers), r.fileID)
    ensures r.NothingPlayable? <==> !SomeArchive(offers) && Wanted(offers) == []
    ensures r.Files? <==>
              (SomeArchive(offers) ==> SomeVideo(offers)) && Wanted(offers) != [] && AllLinked(Wanted(offers))
    ensures r.Files? ==> r.downloads == Downloads(release, Wanted(offers)) && r.total == TotalSize(Wanted(offers))
    ensures r.Files? ==> |r.downloads| == |Wanted(offers)|
    ensures r.Files? ==>
              forall i :: 0 <= i < |r.downloads| ==>
                var d, o := r.downloads[i], Wanted(offers)[i];
                && d.fileID == o.file.id && Some(d.url) == o.link && d.size == o.file.size
                && d.destName == RelativeFileName(release, o.file.name, o.file.shortName)
  {
    hide IsNoise, IsVideo, IsArchive, RelativeFileName, AllLinked, FirstUnlinked, Downloads;
    var hasVideo, hasArchive := false, false;
    for i := 0 to |offers|
      invariant hasVideo == SomeVideo(offers[..i]) && hasArchive == SomeArchive(offers[..i])
    {
      var name := offers[i].file.name;
      assert offers[..i + 1] == offers[..i] + [offers[i]];
      if IsNoise(name) {
        continue;
      }
      hasVideo := hasVideo || IsVideo(name);
      hasArchive := hasArchive || IsArchive(name);
    }
    assert offers[..|offers|] == offers;
    if hasArchive && !hasVideo {
      return ArchivesOnly;
    }
    if hasVideo {
      SomethingIsWanted(offers);
    }
    r := CollectLinks(release, offers);
    if r.NoLink? {
      UnlinkedIsNotAllLinked(Wanted(offers), r.fileID);
    }
    if r.Files? {
      DownloadsAre(release, Wanted(offers));
    }
  }

  lemma DownloadsAre(release: string, offers: seq<Offer>)
    requires AllLinked(offers)
    ensures |Downloads(release, offers)| == |offers|
    ensures forall i :: 0 <= i < |offers| ==>
              var d, o := Downloads(release, offers)[i], offers[i];
              && d.fileID == o.file.id && Some(d.url) == o.link && d.size == o.file.size
              && d.destName == RelativeFileName(release, o.file.name, o.file.shortName)
  {
    hide RelativeFileName;
  }

  method CollectLinks(release: string, offers: seq<Offer>) returns (r: Built)
    ensures !r.ArchivesOnly?
    ensures r.NoLink? ==> FirstUnlinked(Wanted(offers), r.fileID)
    ensures r.NothingPlayable? <==> Wanted(offers) == []
    ensures r.Files? ==>
              && Wanted(offers) != [] && AllLinked(Wanted(offers))
              && r.downloads == Downloads(release, Wanted(offers)) && r.total == TotalSize(Wanted(offers))
  {
    hide IsWanted, ToDownload, Wanted, TotalSize;
    var out: seq<FileDownload>, total := [], 0;
    NothingWanted(offers);
    for i := 0 to |offers|
      invariant Wanted(offers[..i]) <= Wanted(offers)
      invariant AllLinked(Wanted(offers[..i]))
      invariant out == Downloads(release, Wanted(offers[..i])) && total == TotalSize(Wanted(offers[..i]))
    {
      var o := offers[i];
      WantedOneMore(offers, i);
      if !IsWanted(o.file) {
        continue;
      }
      if o.link.None? {
        ghost var k := |Wanted(offers[..i])|;
        assert Wanted(offers)[k] == o && Wanted(offers)[..k] == Wanted(offers[..i]);
        return NoLink(o.file.id);
      }
      DownloadsOneMore(release, Wanted(offers[..i]), o);
      out := out + [ToDownload(release, o)];
      total := total + o.file.size;
    }
    assert offers[..|offers|] == offers;
    if |out| == 0 {
      return NothingPlayable;
    }
    return Files(out, total);
  }

  lemma UnlinkedIsNotAllLinked(offers: seq<Offer>, fileID: int)
    requires FirstUnlinked(offers, fileID)
    ensures offers != [] && !AllLinked(offers)
  {
  }

  lemma NothingWanted(offers: seq<Offer>)
    ensures Wanted(offers[..0]) == [] && TotalSize([]) == 0
  {
  }

  lemma DownloadsOneMore(release: string, offers: seq<Offer>, o: Offer)
    ensures Downloads(release, offers + [o]) == Downloads(release, offers) + [ToDownload(release, o)]
  {
    hide ToDownload;
  }

  lemma WantedOneMore(offers: seq<Offer>, i: nat)
    requires i < |offers|
    ensures Wanted(offers[..i + 1]) ==
            if IsWanted(offers[i].file) then Wanted(offers[..i]) + [offers[i]] else Wanted(offers[..i])
    ensures Wanted(offers[..i + 1]) <= Wanted(offers)
    ensures IsWanted(offers[i].file) ==>
              TotalSize(Wanted(offers[..i + 1])) == TotalSize(Wanted(offers[..i])) + offers[i].file.size
  {
    hide IsWanted;
    assert offers[..i + 1][..i] == offers[..i];
    WantedOfPrefix(offers, i + 1);
    assert (Wanted(offers[..i]) + [offers[i]])[..|Wanted(offers[..i])|] == Wanted(offers[..i]);
  }

  lemma {:induction false} WantedOfPrefix(offers: seq<Offer>, i: nat)
    requires i <= |offers|
    ensures Wanted(offers[..i]) <= Wanted(offers)
    decreases |offers| - i
  {
    hide IsWanted;
    if i == |offers| {
      assert offers[..i] == offers;
    } else {
      WantedOfPrefix(offers, i + 1);
      assert offers[..i + 1][..i] == offers[..i];
    }
  }

  /** Nothing in the list is noise or an archive, and it keeps every other file. */
  lemma {:induction false} WantedIsExact(offers: seq<Offer>, o: Offer)
    ensures o in Wanted(offers) <==> o in offers && IsWanted(o.file)
  {
    hide IsWanted;
    if offers != [] {
      WantedIsExact(offers[..|offers| - 1], o);
      assert offers == offers[..|offers| - 1] + [offers[|offers| - 1]];
    }
  }

  lemma WantedIsEither(o: Offer)
    ensures Wanted([o]) == if !IsNoise(o.file.name) && !IsArchive(o.file.name) then [o] else []
    ensures TotalSize([o]) == o.file.size
  {
    hide IsNoise, IsArchive;
    assert [o][..0] == [];
  }

  lemma WantedLast(offers: seq<Offer>, o: Offer)
    ensures Wanted(offers + [o]) == Wanted(offers) + Wanted([o])
    ensures TotalSize(offers + [o]) == TotalSize(offers) + TotalSize([o])
  {
    hide IsNoise, IsArchive;
    assert (offers + [o])[..|offers|] == offers;
    WantedIsEither(o);
    assert Wanted(offers) + [] == Wanted(offers);
  }

  /**
    The list keeps the order of the files, and each of them as often as it comes, if it is neither noise nor an
    archive; the total adds their sizes up.
   */
  lemma {:induction false} WantedInOrder(a: seq<Offer>, b: seq<Offer>)
    ensures Wanted(a + b) == Wanted(a) + Wanted(b)
    ensures TotalSize(a + b) == TotalSize(a) + TotalSize(b)
    ensures forall o :: Wanted([o]) == if !IsNoise(o.file.name) && !IsArchive(o.file.name) then [o] else []
    ensures forall o :: TotalSize([o]) == o.file.size
    decreases |b|
  {
    forall o {
      WantedIsEither(o);
    }
    NothingWanted([]);
    hide Wanted, TotalSize, IsNoise, IsArchive;
    if b == [] {
      assert a + b == a && Wanted(a) + [] == Wanted(a);
    } else {
      var front, last := b[..|b| - 1], b[|b| - 1];
      WantedInOrder(a, front);
      WantedLast(a + front, last);
      WantedLast(front, last);
      assert a + b == a + front + [last] && b == front + [last];
      assert Wanted(a) + Wanted(front) + Wanted([last]) == Wanted(a) + (Wanted(front) + Wanted([last]));
    }
  }

  // ----- What a name says -----

  /** The name ends in one of these. */
  ghost predicate EndsIn(s: string, ends: seq<string>) {
    exists stem, e :: e in ends && s == stem + e
  }

  lemma SuffixSplits(s: string, suffix: string)
    ensures HasSuffix(s, suffix) <==> exists stem :: s == stem + suffix
  {
    if HasSuffix(s, suffix) {
      assert s == s[..|s| - |suffix|] + suffix;
    }
  }

  lemma AnySuffixSplits(s: string, ends: seq<string>)
    ensures HasAnySuffix(s, ends) <==> EndsIn(s, ends)
  {
    forall e | e in ends
      ensures HasSuffix(s, e) <==> exists stem :: s == stem + e
    {
      SuffixSplits(s, e);
    }
    hide HasSuffix;
  }

  lemma ContainsSplits(s: string, sub: string)
    ensures Contains(s, sub) <==> exists a, b :: s == a + sub + b
  {
    if Contains(s, sub) {
      var i :| 0 <= i <= |s| && OccursAt(s, sub, i);
      assert s == s[..i] + sub + s[i + |sub|..];
    }
    if a, b :| s == a + sub + b {
      assert OccursAt(s, sub, |a|);
    }
  }

  lemma NumberSplits(s: string, start: string, n: nat)
    ensures EndsInNumber(s, start, n) <==>
            exists stem, digits ::
              && |digits| == n && s == stem + start + digits
              && forall i :: 0 <= i < n ==> '0' <= digits[i] <= '9'
  {
    if EndsInNumber(s, start, n) {
      var k := |s| - n;
      assert s == s[..k - |start|] + start + s[k..];
    }
    if stem, digits :| && |digits| == n && s == stem + start + digits
                       && forall i :: 0 <= i < n ==> '0' <= digits[i] <= '9' {
      assert forall i :: 0 <= i < n ==> s[|s| - n + i] == digits[i];
    }
  }

  /**
    What counts as a video, as noise and as an archive, whatever the case: the endings, a sample by its folder or
    name, and for archives also the numbered parts .r00 to .r999 and .000 to .999.
   */
  lemma NamesAreJudged(name: string)
    ensures var s := Lower(name);
            && (IsVideo(name) <==>
                  EndsIn(s, [".mkv", ".mp4", ".m4v", ".avi", ".ts", ".m2ts", ".mov", ".wmv", ".mpg", ".mpeg", ".webm"]))
            && (IsNoise(name) <==>
                  || EndsIn(s, [".nfo", ".sfv", ".txt", ".jpg", ".png", ".srr", ".par2", ".sample"])
                  || (exists a, b :: s == a + "/sample/" + b)
                  || (exists a, b :: s == a + "sample." + b))
            && (IsArchive(name) <==>
                  || EndsIn(s, [".rar", ".zip", ".7z"])
                  || exists stem, start, digits ::
                       && s == stem + start + digits
                       && ((start == ".r" && 2 <= |digits| <= 3) || (start == "." && |digits| == 3))
                       && forall i :: 0 <= i < |digits| ==> '0' <= digits[i] <= '9')
  {
    hide Lower, EndsIn, HasAnySuffix, HasSuffix, Contains, EndsInNumber;
    var s := Lower(name);
    AnySuffixSplits(s, VIDEO);
    AnySuffixSplits(s, NOISE);
    ContainsSplits(s, "/sample/");
    ContainsSplits(s, "sample.");
    ArchiveSplits(s);
    NumberSplits(s, ".r", 2);
    NumberSplits(s, ".r", 3);
    NumberSplits(s, ".", 3);
  }

  lemma ArchiveSplits(s: string)
    ensures EndsIn(s, [".rar", ".zip", ".7z"]) <==> HasSuffix(s, ".rar") || HasSuffix(s, ".zip") || HasSuffix(s, ".7z")
  {
    hide HasSuffix;
    SuffixSplits(s, ".rar");
    SuffixSplits(s, ".zip");
    SuffixSplits(s, ".7z");
    var ends := [".rar", ".zip", ".7z"];
    assert ends[0] in ends && ends[1] in ends && ends[2] in ends;
  }

  lemma SuffixChars(s: string, suffix: string)
    ensures HasSuffix(s, suffix) ==> forall k :: 0 <= k < |suffix| ==> s[|s| - |suffix| + k] == suffix[k]
  {
    if HasSuffix(s, suffix) {
      forall k | 0 <= k < |suffix|
        ensures s[|s| - |suffix| + k] == suffix[k]
      {
        assert s[|s| - |suffix|..][k] == suffix[k];
      }
    }
  }

  /** The last character of an archive's name is that of an archive extension, or its last two are digits. */
  predicate EndsLikeArchive(s: string) {
    |s| >= 2 && (s[|s| - 1] in "rpz" || (IsDigit(s[|s| - 1]) && IsDigit(s[|s| - 2])))
  }

  lemma ArchiveEnds(name: string)
    requires IsArchive(name)
    ensures EndsLikeArchive(Lower(name))
  {
    var s := Lower(name);
    SuffixChars(s, ".rar");
    SuffixChars(s, ".zip");
    SuffixChars(s, ".7z");
  }

  lemma VideoEnds(s: string, v: string)
    requires v in VIDEO && HasSuffix(s, v)
    ensures !EndsLikeArchive(s)
  {
    SuffixChars(s, v);
    assert s[|s| - 1] == v[|v| - 1] && s[|s| - 2] == v[|v| - 2];
  }

  /** No archive ends like a video. */
  lemma VideoIsNoArchive(name: string)
    ensures !(IsVideo(name) && IsArchive(name))
  {
    if IsVideo(name) {
      var v :| v in VIDEO && HasSuffix(Lower(name), v);
      VideoEnds(Lower(name), v);
    }
    if IsArchive(name) {
      ArchiveEnds(name);
    }
    hide EndsLikeArchive;
  }

  /** Once the list is not given up for its archives, no video is left out of it. */
  lemma VideosAreKept(offers: seq<Offer>, o: Offer)
    requires o in offers && !IsNoise(o.file.name) && IsVideo(o.file.name)
    ensures o in Wanted(offers)
  {
    VideoIsNoArchive(o.file.name);
    WantedIsExact(offers, o);
    hide IsNoise, IsArchive, IsVideo;
  }

  lemma SomethingIsWanted(offers: seq<Offer>)
    requires SomeVideo(offers)
    ensures Wanted(offers) != []
  {
    var o :| o in offers && !IsNoise(o.file.name) && IsVideo(o.file.name);
    VideosAreKept(offers, o);
  }

  // ----- Where the files land -----

  /** A name below the release folder loses exactly that folder. */
  lemma ReleaseFolderIsStripped(release: string, rest: string, short: string)
    requires rest != "" && rest[0] != '/'
    ensures RelativeFileName(release, release + "/" + rest, short) == rest
  {
    assert TrimPrefix(release + "/" + rest, release + "/") == rest;
  }

  /** `full` lies below the release folder, or is named from the root, and `rest` is what follows. */
  predicate IsBelow(release: string, full: string, rest: string) {
    rest != "" &&
    ((full == release + "/" + rest && rest[0] != '/')
     || full == release + "/" + "/" + rest
     || (full == "/" + rest && !(release + "/" <= full)))
  }

  /** Something is left, and something has been taken off. */
  predicate IsStripped(release: string, full: string) {
    Rest(release, full) != "" && Rest(release, full) != full
  }

  lemma StrippedIsBelow(release: string, full: string)
    requires IsStripped(release, full)
    ensures IsBelow(release, full, Rest(release, full))
  {
    var once := TrimPrefix(full, release + "/");
    assert HasPrefix(full, release + "/") ==> full == release + "/" + once;
    assert HasPrefix(once, "/") ==> once == "/" + once[1..];
    assert HasPrefix(once, "/") && HasPrefix(full, release + "/") ==>
        full == release + "/" + "/" + once[1..];
  }

  lemma BelowIsStripped(release: string, full: string, rest: string)
    requires IsBelow(release, full, rest)
    ensures IsStripped(release, full) && Rest(release, full) == rest
  {
    if full == release + "/" + rest && rest[0] != '/' {
      assert TrimPrefix(full, release + "/") == rest;
    } else if full == release + "/" + "/" + rest {
      assert full == (release + "/") + ("/" + rest);
      assert TrimPrefix(full, release + "/") == "/" + rest;
      assert ("/" + rest)[1..] == rest;
    } else {
      assert full[1..] == rest;
    }
  }

  /**
    A file below the release folder, or named from the root, keeps its place: it lands below the job's
    directory as deep as it was below the folder or the root, or it is refused, exactly if what is left of its
    name is absolute, climbs out or holds a null byte.
   */
  lemma ReleaseFilesLand(cwd: string, target: string, release: string, full: string, short: string, rest: string)
    requires IsAbs(cwd) && IsBelow(release, full, rest)
    ensures var joined := SafeJoin(cwd, target, RelativeFileName(release, full, short));
            && (joined.Some? <==> !IsAbs(rest) && '\0' !in rest && !ClimbsFirst(Parts(rest)))
            && (joined.Some? ==> Parts(Abs(cwd, joined.value)) == Parts(Abs(cwd, target)) + Parts(rest))
  {
    BelowIsStripped(release, full, rest);
    assert RelativeFileName(release, full, short) == rest;
    hide RelativeFileName, SafeJoin, Parts, Abs, Rest;
    SafeJoinIsExact(cwd, target, rest);
  }

  lemma PartsOfName(name: string)
    requires IsName(name)
    ensures !IsAbs(name) && Parts(name) == if name == "." then [] else [name]
  {
    hide Split;
    SplitName(name);
    assert name[0] in name;
    assert [name][1..] == [] && [] + [name] == [name];
    assert Reduce(false, [], [name]) == Push(false, [], name);
  }

  /** The last element of a path that ends in a name is this name. */
  lemma BaseIsLast(dir: string, name: string)
    requires IsName(name)
    ensures Base(name) == name && Base(dir + "/" + name) == name
  {
    SplitName(name);
    SplitSlash(dir, name);
  }

  /** The last element of a path is one element, unless the path is nothing but slashes. */
  lemma BaseIsName(full: string)
    ensures Base(full) == "/" || IsName(Base(full))
  {
    assert IsName(".");
    var ps := Split(full);
    if full != "" && ps != [] {
      assert IsName(ps[|ps| - 1]);
    }
    hide Split;
  }

  lemma NothingIsStripped(release: string, full: string)
    requires forall rest :: !IsBelow(release, full, rest)
    ensures !IsStripped(release, full)
  {
    if IsStripped(release, full) {
      StrippedIsBelow(release, full);
    }
  }

  /**
    Any other file lands under its short name or, if it has none, under the last element of its own: directly in
    the job's directory if that is one element, as it is unless the short name holds a slash. It is refused
    exactly if that name is absolute, climbs out or holds a null byte; "." names the directory itself.
   */
  lemma OtherFilesLandFlat(cwd: string, target: string, release: string, full: string, short: string)
    requires IsAbs(cwd) && forall rest :: !IsBelow(release, full, rest)
    ensures var name := if short != "" then short else Base(full);
            var joined := SafeJoin(cwd, target, RelativeFileName(release, full, short));
            && (joined.Some? <==> !IsAbs(name) && '\0' !in name && !ClimbsFirst(Parts(name)))
            && (joined.Some? ==> Parts(Abs(cwd, joined.value)) == Parts(Abs(cwd, target)) + Parts(name))
            && (IsName(name) ==>
                  && (joined.Some? <==> name != ".." && '\0' !in name)
                  && Parts(name) == if name == "." then [] else [name])
            && (short == "" ==> name == "/" || IsName(name))
    ensures forall dir, last :: IsName(last) && (full == last || full == dir + "/" + last) ==> Base(full) == last
  {
    BaseIsName(full);
    forall dir, last | IsName(last) && (full == last || full == dir + "/" + last)
      ensures Base(full) == last
    {
      BaseIsLast(dir, last);
    }
    NothingIsStripped(release, full);
    var name := if short != "" then short else Base(full);
    assert RelativeFileName(release, full, short) == name;
    hide RelativeFileName, SafeJoin, Parts, Abs, Split, Base, IsBelow;
    if IsName(name) {
      PartsOfName(name);
    }
    NothingHasNoParts();
    SafeJoinIsExact(cwd, target, name);
  }
}
