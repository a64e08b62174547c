/** Where files may be written and which directories may be deleted. */
module Confinement {
  import opened Options
  import opened Paths
  import Text

  predicate ClimbsFirst(ps: seq<string>) {
    ps != [] && ps[0] == ".."
  }

  function SafeJoin(cwd: string, base: string, rel: string): Option<string> {
    if rel == "" then Some(base)
    else if IsAbs(rel) || '\0' in rel then None
    else
      var cleaned := Clean(rel);
      if cleaned == ".." || Text.HasPrefix(cleaned, "../") then None
      else
        var joined := Join(base, cleaned);
        var back := Rel(Abs(cwd, base), Abs(cwd, joined));
        if back.None? || ClimbsFirst(back.value) then None else Some(joined)
  }

  predicate JobDirUnder(base: string, dir: string) {
    base != "" && dir != "" && IsAbs(dir) &&
    var rel := Rel(Clean(base), Clean(dir));
    rel.Some? && !ClimbsFirst(rel.value) && |rel.value| >= 2
  }

  /** `p` is `base` or below it. */
  predicate Under(cwd: string, base: string, p: string) {
    Parts(Abs(cwd, base)) <= Parts(Abs(cwd, p))
  }

  /** The test on the cleaned text finds exactly the paths that start by climbing. */
  lemma ClimbsIff(rel: string)
    requires !IsAbs(rel)
    ensures Clean(rel) == ".." || Text.HasPrefix(Clean(rel), "../") <==> ClimbsFirst(Parts(rel))
  {
    var ps, text := Parts(rel), Clean(rel);
    PartsAreNormal(rel);
    if ps != [] {
      SplitJoinSlash(ps);
      assert Split(text) == ps;
      if text == ".." {
        SplitName("..");
      } else if Text.HasPrefix(text, "../") {
        assert text == ".." + "/" + text[3..];
        SplitSlash("..", text[3..]);
        SplitName("..");
      }
    }
  }

  lemma OrdinaryUnlessClimbing(rel: string)
    requires !IsAbs(rel) && !ClimbsFirst(Parts(rel))
    ensures AreOrdinary(Parts(rel))
  {
    PartsAreNormal(rel);
  }

  /** Extending a path by ordinary elements extends its absolute form by them. */
  lemma AbsExtends(cwd: string, base: string, p: string, ps: seq<string>)
    requires IsAbs(cwd) && IsAbs(p) == IsAbs(base) && AreOrdinary(ps) && Parts(p) == Parts(base) + ps
    ensures Parts(Abs(cwd, p)) == Parts(Abs(cwd, base)) + ps
  {
    AbsByParts(cwd, base);
    AbsByParts(cwd, p);
    ReduceAppend(true, Parts(cwd), Parts(base), ps);
    ReduceOrdinary(true, Reduce(true, Parts(cwd), Parts(base)), ps);
  }

  /** The joined path before the last check: cleaned, and with the elements of both. */
  lemma JoinedParts(cwd: string, base: string, rel: string)
    requires IsAbs(cwd) && rel != "" && !IsAbs(rel) && !ClimbsFirst(Parts(rel))
    ensures var joined := Join(base, Clean(rel));
            && Parts(joined) == Parts(base) + Parts(rel) && IsAbs(joined) == IsAbs(base)
            && Parts(Abs(cwd, joined)) == Parts(Abs(cwd, base)) + Parts(rel)
  {
    var joined := Join(base, Clean(rel));
    var ps := Parts(rel);
    OrdinaryUnlessClimbing(rel);
    PartsAreNormal(rel);
    CleanKeepsParts(rel);
    PartsOfJoin(base, Clean(rel));
    assert Reduce(IsAbs(base), Parts(base), Split(Clean(rel))) == Parts(base) + ps by {
      SplitJoinSlash(ps);
      SplitName(".");
      ReduceOrdinary(IsAbs(base), Parts(base), ps);
      assert Reduce(IsAbs(base), Parts(base), ["."]) == Parts(base);
    }
    AbsExtends(cwd, base, joined, ps);
  }

  /**
    safeJoin succeeds exactly for names that are neither absolute nor contain a null byte nor climb out
    of the base once cleaned; then the result is the base extended by the cleaned name.
   */
  lemma SafeJoinIsExact(cwd: string, base: string, rel: string)
    requires IsAbs(cwd)
    ensures SafeJoin(cwd, base, rel).Some? <==> rel == "" || (!IsAbs(rel) && '\0' !in rel && !ClimbsFirst(Parts(rel)))
    ensures SafeJoin(cwd, base, rel).Some? ==>
              var joined := SafeJoin(cwd, base, rel).value;
              && Under(cwd, base, joined)
              && Parts(Abs(cwd, joined)) == Parts(Abs(cwd, base)) + Parts(rel)
              && (rel != "" ==> joined == Join(base, Clean(rel)))
  {
    hide Reduce, Split, Clean, Abs, Join;
    if rel == "" {
      assert Parts(rel) == [] by { NothingHasNoParts(); }
    } else if !IsAbs(rel) {
      ClimbsIff(rel);
      if !ClimbsFirst(Parts(rel)) {
        JoinedParts(cwd, base, rel);
        var a, b := Abs(cwd, base), Abs(cwd, Join(base, Clean(rel)));
        AbsByParts(cwd, base);
        AbsByParts(cwd, Join(base, Clean(rel)));
        RelToPrefix(a, b);
        RootedIsOrdinary(b);
        assert Parts(b)[|Parts(a)|..] == Parts(rel);
      }
    }
  }

  lemma NothingHasNoParts()
    ensures Parts("") == []
  {
  }

  lemma {:induction false} JoinSlashSuffix(ps: seq<string>, suffix: string)
    requires ps != []
    ensures JoinSlash(ps) + suffix == JoinSlash(ps[..|ps| - 1] + [ps[|ps| - 1] + suffix])
    decreases |ps|
  {
    var qs := ps[..|ps| - 1] + [ps[|ps| - 1] + suffix];
    if |ps| > 1 {
      assert qs[1..] == ps[1..][..|ps| - 2] + [ps[1..][|ps| - 2] + suffix];
      JoinSlashSuffix(ps[1..], suffix);
    }
  }

  /** The path with a suffix on its last element. */
  lemma SuffixedParts(rooted: bool, front: seq<string>, last: string, suffix: string)
    requires IsNormal(rooted, front + [last]) && AreNames(front + [last]) && IsOrdinary(last)
    requires IsName(suffix) && |suffix| > 2
    ensures var p := Render(rooted, front + [last]) + suffix;
            Parts(p) == front + [last + suffix] && IsAbs(p) == rooted
  {
    var ps, qs := front + [last], front + [last + suffix];
    assert forall i :: 0 <= i < |qs| ==> qs[i] == if i < |front| then ps[i] else ps[i] + suffix;
    assert ps[|front|] == last && IsName(last);
    assert IsNormal(rooted, qs) && AreNames(qs);
    JoinSlashSuffix(ps, suffix);
    assert ps[..|ps| - 1] == front;
    assert Render(rooted, ps) + suffix == Render(rooted, qs);
    PartsOfRender(rooted, qs);
  }

  /** A joined path that ends in an ordinary element, with the suffix of a partial file. */
  lemma PartialParts(a: string, b: string, front: seq<string>, last: string)
    requires Parts(Join(a, b)) == front + [last] && IsOrdinary(last)
    ensures Parts(Join(a, b) + ".partial") == front + [last + ".partial"]
    ensures IsAbs(Join(a, b) + ".partial") == IsAbs(Join(a, b))
  {
    PartsAreNormal(Join(a, b));
    JoinIsClean(a, b);
    NothingHasNoParts();
    hide Parts, Join, Render, IsAbs;
    SuffixedParts(IsAbs(Join(a, b)), front, last, ".partial");
  }

  lemma JoinIsClean(a: string, b: string)
    ensures Join(a, b) == "" || Join(a, b) == Render(IsAbs(Join(a, b)), Parts(Join(a, b)))
  {
    if a == "" && b != "" { CleanKeepsParts(b); }
    else if b == "" && a != "" { CleanKeepsParts(a); }
    else if a != "" { CleanKeepsParts(a + "/" + b); }
  }

  /**
    The partial file lies under the base as well, next to its destination, if the cleaned name is not empty.
   */
  lemma PartialIsConfined(cwd: string, base: string, rel: string)
    requires IsAbs(cwd) && Parts(rel) != [] && SafeJoin(cwd, base, rel).Some?
    ensures var joined := SafeJoin(cwd, base, rel).value; var n := |Parts(rel)| - 1;
            && Under(cwd, base, joined + ".partial")
            && Parts(Abs(cwd, joined + ".partial")) ==
               Parts(Abs(cwd, base)) + (Parts(rel)[..n] + [Parts(rel)[n] + ".partial"])
  {
    NothingHasNoParts();
    SafeJoinIsExact(cwd, base, rel);
    hide *;
    var bs, ps, n := Parts(base), Parts(rel), |Parts(rel)| - 1;
    var partial := Join(base, Clean(rel)) + ".partial";
    var qs := ps[..n] + [ps[n] + ".partial"];
    SafeRelParts(cwd, base, rel);
    LastOfSum(bs, ps, ps[n] + ".partial");
    PartialParts(base, Clean(rel), bs + ps[..n], ps[n]);
    AbsExtends(cwd, base, partial, qs);
    UnderIfExtended(cwd, base, partial, qs);
  }

  lemma SafeRelParts(cwd: string, base: string, rel: string)
    requires IsAbs(cwd) && Parts(rel) != [] && SafeJoin(cwd, base, rel).Some?
    ensures var n := |Parts(rel)| - 1; var joined := Join(base, Clean(rel));
            && rel != "" && IsOrdinary(Parts(rel)[n]) && AreOrdinary(Parts(rel)[..n] + [Parts(rel)[n] + ".partial"])
            && Parts(joined) == Parts(base) + Parts(rel) && IsAbs(joined) == IsAbs(base)
  {
    NothingHasNoParts();
    SafeJoinIsExact(cwd, base, rel);
    OrdinaryUnlessClimbing(rel);
    JoinedParts(cwd, base, rel);
    hide Parts, Join, Clean;
  }

  lemma LastOfSum(a: seq<string>, b: seq<string>, x: string)
    requires b != []
    ensures var n := |b| - 1; a + b == a + b[..n] + [b[n]] && a + b[..n] + [x] == a + (b[..n] + [x])
  {
  }

  lemma UnderIfExtended(cwd: string, base: string, p: string, ps: seq<string>)
    requires Parts(Abs(cwd, p)) == Parts(Abs(cwd, base)) + ps
    ensures Under(cwd, base, p)
  {
  }

  // ----- Exactly when the partial file stays under the base -----

  /** The text of the path ends in an ordinary element, which a suffix would change. */
  predicate EndsInName(p: string) {
    !EndsOpen(p) && Split(p) != [] && IsOrdinary(Split(p)[|Split(p)| - 1])
  }

  lemma DifferentLast(front: seq<string>, x: string, y: string)
    requires x != y
    ensures !(front + [x] <= front + [y])
  {
    assert (front + [x])[|front|] == x && (front + [y])[|front|] == y;
  }

  /** One more element against the same element with a suffix. */
  lemma LastElementAndSuffix(kept: seq<string>, c: string, suffix: string)
    requires suffix != "" && AreOrdinary(kept)
    ensures Reduce(true, kept, [c]) <= kept + [c + suffix] <==> !IsOrdinary(c)
  {
    if IsOrdinary(c) {
      assert Reduce(true, kept, [c]) == kept + [c];
      DifferentLast(kept, c, c + suffix);
    }
  }

  /** A path with a suffix lies under the path itself exactly if its text does not end in a name. */
  lemma SuffixedIsUnder(cwd: string, p: string, suffix: string)
    requires IsAbs(cwd) && IsName(suffix) && |suffix| > 2
    ensures Under(cwd, p, p + suffix) <==> !EndsInName(p)
  {
    hide Split, Abs, Parts, Reduce, IsOrdinary, AreOrdinary;
    var kept, c := SuffixedKey(cwd, p, suffix);
    if !EndsOpen(p) {
      LastElementAndSuffix(kept, c, suffix);
    } else {
      assert kept <= kept + [suffix];
    }
  }

  /** A cleaned path ends in a name exactly if it has elements and the last is not "..". */
  lemma CleanedEndsInName(rooted: bool, ps: seq<string>)
    requires IsNormal(rooted, ps) && AreNames(ps)
    ensures EndsInName(Render(rooted, ps)) <==> ps != [] && ps[|ps| - 1] != ".."
  {
    hide Split, IsNormal;
    if ps == [] {
      SplitName(".");
    } else {
      RenderedEnd(rooted, ps);
      LastIsNoDot(rooted, ps);
      hide Render;
    }
  }

  lemma LastIsNoDot(rooted: bool, ps: seq<string>)
    requires IsNormal(rooted, ps) && ps != []
    ensures ps[|ps| - 1] != "."
  {
  }

  /** The text of a cleaned path that has elements ends with the last of them. */
  lemma RenderedEnd(rooted: bool, ps: seq<string>)
    requires AreNames(ps) && ps != []
    ensures Split(Render(rooted, ps)) == ps && !EndsOpen(Render(rooted, ps))
  {
    hide Split, JoinSlash, AreNames;
    SplitJoinSlash(ps);
    JoinSlashEnd(ps);
    SplitSkip(JoinSlash(ps));
  }

  lemma {:induction false} JoinSlashEnd(ps: seq<string>)
    requires AreNames(ps) && ps != []
    ensures var s := JoinSlash(ps); s != "" && s[|s| - 1] != '/'
    decreases |ps|
  {
    if |ps| == 1 {
      NameIsNotEmpty(ps[0]);
    } else {
      JoinSlashEnd(ps[1..]);
    }
  }

  /** The destination of a name that cleans to nothing is the cleaned base. */
  lemma EmptyNameIsBase(cwd: string, base: string, rel: string)
    requires IsAbs(cwd) && rel != "" && Parts(rel) == [] && SafeJoin(cwd, base, rel).Some?
    ensures var joined := SafeJoin(cwd, base, rel).value;
            && Parts(Abs(cwd, joined)) == Parts(Abs(cwd, base))
            && joined == Render(IsAbs(base), Parts(base))
  {
    SafeJoinIsExact(cwd, base, rel);
    JoinedParts(cwd, base, rel);
    var joined := Join(base, Clean(rel));
    JoinIsClean(base, Clean(rel));
    assert Clean(rel) == ".";
    assert joined != "" by { DotIsNotDropped(base); }
    assert Parts(base) + [] == Parts(base) && Parts(Abs(cwd, base)) + [] == Parts(Abs(cwd, base));
  }

  lemma DotIsNotDropped(base: string)
    ensures Join(base, ".") != ""
  {
    hide Parts;
    var s := if base == "" then "." else base + "/" + ".";
    PartsAreNormal(s);
    SplitJoinSlash(Parts(s));
  }

  /**
    Exactly when the partial file of a destination safeJoin accepts lies under the base: always for a name
    with an element left after cleaning; for a name that cleans to nothing only if the base has no last name of
    its own; and for no name at all only if the text of the base does not end in one.
   */
  lemma PartialIsConfinedExactly(cwd: string, base: string, rel: string)
    requires IsAbs(cwd) && SafeJoin(cwd, base, rel).Some?
    ensures var partial := SafeJoin(cwd, base, rel).value + ".partial";
            Under(cwd, base, partial) <==>
            if rel == "" then !EndsInName(base)
            else Parts(rel) != [] || Parts(base) == [] || Parts(base)[|Parts(base)| - 1] == ".."
  {
    assert IsName(".partial");
    hide *;
    if rel == "" {
      NoNameIsBase(cwd, base);
      SuffixedIsUnder(cwd, base, ".partial");
    } else if Parts(rel) != [] {
      PartialIsConfined(cwd, base, rel);
    } else {
      EmptyNameIsBase(cwd, base, rel);
      PartsAreNormal(base);
      CleanedEndsInName(IsAbs(base), Parts(base));
      var joined := SafeJoin(cwd, base, rel).value;
      SuffixedIsUnder(cwd, joined, ".partial");
      UnderSamePath(cwd, base, joined, joined + ".partial");
    }
  }

  lemma NoNameIsBase(cwd: string, base: string)
    ensures SafeJoin(cwd, base, "") == Some(base)
  {
  }

  lemma UnderSamePath(cwd: string, p: string, q: string, r: string)
    requires Parts(Abs(cwd, p)) == Parts(Abs(cwd, q))
    ensures Under(cwd, p, r) <==> Under(cwd, q, r)
  {
  }

  /** A directory counts as a job's exactly when it is absolute and at least two elements below an absolute base. */
  lemma JobDirIsExact(base: string, dir: string)
    ensures JobDirUnder(base, dir) <==>
            IsAbs(base) && IsAbs(dir) && Parts(base) <= Parts(dir) && |Parts(dir)| >= |Parts(base)| + 2
  {
    CleanKeepsParts(base);
    CleanKeepsParts(dir);
    RelToPrefix(Clean(base), Clean(dir));
    if IsAbs(dir) {
      RootedIsOrdinary(dir);
    }
    hide Parts, Clean;
  }

  // ----- The directory of a job -----

  predicate IsSpace(c: char) {
    c in " \t\n\r" || c == 11 as char || c == 12 as char
  }

  function TrimLeft(s: string): string {
    if s != "" && IsSpace(s[0]) then TrimLeft(s[1..]) else s
  }

  function TrimRight(s: string): string {
    if s != "" && IsSpace(s[|s| - 1]) then TrimRight(s[..|s| - 1]) else s
  }

  function ReplaceSlashes(s: string): string {
    seq(|s|, i requires 0 <= i < |s| => if s[i] == '/' then '_' else s[i])
  }

  function Sanitize(name: string): string {
    var trimmed := TrimRight(TrimLeft(ReplaceSlashes(name)));
    if trimmed == "" then "untitled" else trimmed
  }

  lemma {:induction false} TrimLeftKeeps(s: string, c: char)
    ensures c !in s ==> c !in TrimLeft(s)
  {
    if s != "" && IsSpace(s[0]) {
      TrimLeftKeeps(s[1..], c);
    }
  }

  lemma {:induction false} TrimRightKeeps(s: string, c: char)
    ensures c !in s ==> c !in TrimRight(s)
  {
    if s != "" && IsSpace(s[|s| - 1]) {
      TrimRightKeeps(s[..|s| - 1], c);
    }
  }

  /** Whatever the release is called, its directory name is one path element. */
  lemma SanitizedIsName(name: string)
    ensures IsName(Sanitize(name))
  {
    TrimLeftKeeps(ReplaceSlashes(name), '/');
    TrimRightKeeps(TrimLeft(ReplaceSlashes(name)), '/');
  }

  predicate IsBlank(s: string) {
    forall i :: 0 <= i < |s| ==> IsSpace(s[i])
  }

  /** Neither begins nor ends with a space. */
  predicate IsTrim(s: string) {
    s != "" ==> !IsSpace(s[0]) && !IsSpace(s[|s| - 1])
  }

  lemma {:induction false} TrimLeftDrops(left: string, s: string)
    requires IsBlank(left) && (s == "" || !IsSpace(s[0]))
    ensures TrimLeft(left + s) == s
  {
    if left == "" {
      assert left + s == s;
    } else {
      assert (left + s)[1..] == left[1..] + s;
      TrimLeftDrops(left[1..], s);
    }
  }

  lemma {:induction false} TrimRightDrops(s: string, right: string)
    requires IsBlank(right) && (s == "" || !IsSpace(s[|s| - 1]))
    ensures TrimRight(s + right) == s
  {
    if right == "" {
      assert s + right == s;
    } else {
      var front := right[..|right| - 1];
      assert (s + right)[..|s + right| - 1] == s + front;
      TrimRightDrops(s, front);
    }
  }

  lemma BlankTrims(s: string)
    requires IsBlank(s)
    ensures TrimLeft(s) == ""
  {
    TrimLeftDrops(s, "");
    assert s + "" == s;
  }

  lemma ReplacedMiddle(left: string, core: string, right: string)
    requires IsBlank(left) && IsTrim(core) && IsBlank(right)
    ensures ReplaceSlashes(left + core + right) == left + ReplaceSlashes(core) + right
    ensures IsTrim(ReplaceSlashes(core))
  {
  }

  /**
    The directory name of a release: its text without the spaces around it, each slash made "_", or "untitled" if
    nothing is left.
   */
  lemma SanitizedExactly(left: string, core: string, right: string)
    requires IsBlank(left) && IsTrim(core) && IsBlank(right)
    ensures var name := Sanitize(left + core + right);
            if core == "" then name == "untitled"
            else |name| == |core| && forall i :: 0 <= i < |core| ==> name[i] == if core[i] == '/' then '_' else core[i]
  {
    ReplacedMiddle(left, core, right);
    var mid := ReplaceSlashes(core);
    hide ReplaceSlashes;
    if core == "" {
      BlankTrims(left + core + right);
    } else {
      assert left + mid + right == left + (mid + right);
      TrimLeftDrops(left, mid + right);
      TrimRightDrops(mid, right);
    }
  }

  function CategoryOf(category: string): string {
    if category == "" then "other" else category
  }

  /** The directory of a job below the base. */
  function Subdir(category: string, release: string): string {
    Join(CategoryOf(category), Sanitize(release))
  }

  lemma SubdirParts(category: string, release: string)
    ensures var c := CategoryOf(category);
            && Subdir(category, release) != "" && IsAbs(Subdir(category, release)) == IsAbs(c)
            && Parts(Subdir(category, release)) == Reduce(IsAbs(c), Parts(c), [Sanitize(release)])
  {
    var c, s := CategoryOf(category), Sanitize(release);
    SanitizedIsName(release);
    NameIsNotEmpty(s);
    PartsOfJoin(c, s);
    SplitName(s);
    JoinHasText(c, s);
  }

  lemma JoinHasText(a: string, b: string)
    requires a != "" && b != ""
    ensures Join(a, b) != ""
  {
    hide Parts;
    PartsAreNormal(a + "/" + b);
    SplitJoinSlash(Parts(a + "/" + b));
  }

  /**
    The directory a job is downloaded to, whatever its category and release are called: safeJoin accepts it
    exactly if the category is not absolute, no null byte is in it and it does not climb out, and Discard may
    delete it exactly if two elements are left of category and release. For a release not called "." or ".."
    those are the elements of the category and then the release.
   */
  lemma TargetIsJobDir(cwd: string, base: string, category: string, release: string)
    requires IsAbs(cwd)
    ensures var sub := Subdir(category, release); var target := SafeJoin(cwd, base, sub);
            && (target.Some? <==> !IsAbs(category) && '\0' !in sub && !ClimbsFirst(Parts(sub)))
            && (target.Some? ==>
                  && Parts(target.value) == Parts(base) + Parts(sub)
                  && Parts(Abs(cwd, target.value)) == Parts(Abs(cwd, base)) + Parts(sub)
                  && (JobDirUnder(base, target.value) <==> IsAbs(base) && |Parts(sub)| >= 2))
    ensures IsOrdinary(Sanitize(release)) ==>
              Parts(Subdir(category, release)) ==
              Parts(if category == "" then "other" else category) + [Sanitize(release)]
  {
    var sub := Subdir(category, release);
    SubdirParts(category, release);
    hide Sanitize, Parts, Clean, Join, JobDirUnder, SafeJoin, Subdir;
    SafeJoinIsExact(cwd, base, sub);
    if SafeJoin(cwd, base, sub).Some? {
      JoinedParts(cwd, base, sub);
      JobDirIsExact(base, Join(base, Clean(sub)));
    }
  }

  /**
    The category folder itself, and everything above it, is spared exactly if the release is not called "." or
    "..": then, and only then, the directory of a job lies strictly below the folder of its category.
   */
  lemma JobDirIsBelowCategory(cwd: string, base: string, category: string, release: string)
    requires IsAbs(cwd) && SafeJoin(cwd, base, Subdir(category, release)).Some?
    ensures var folder := Join(base, Clean(CategoryOf(category)));
            var target := SafeJoin(cwd, base, Subdir(category, release)).value;
            && Parts(Abs(cwd, folder)) == Parts(Abs(cwd, base)) + Parts(CategoryOf(category))
            && (Parts(Abs(cwd, folder)) < Parts(Abs(cwd, target)) <==> IsOrdinary(Sanitize(release)))
  {
    var c, s := CategoryOf(category), Sanitize(release);
    TargetIsJobDir(cwd, base, category, release);
    SubdirParts(category, release);
    hide Sanitize, Parts, Clean, Join, SafeJoin, Subdir, JobDirUnder, Abs;
    ReduceOne(Parts(c), s);
    CategoryDoesNotClimb(c, s);
    JoinedParts(cwd, base, c);
    var b, n := Parts(Abs(cwd, base)), Parts(Subdir(category, release));
    SamePrefix(b, Parts(c), n);
  }

  lemma ReduceOne(kept: seq<string>, s: string)
    ensures Reduce(false, kept, [s]) == Push(false, kept, s)
  {
    assert [s][1..] == [];
  }

  lemma CategoryDoesNotClimb(c: string, s: string)
    requires !IsAbs(c) && !ClimbsFirst(Push(false, Parts(c), s))
    ensures !ClimbsFirst(Parts(c))
    ensures Parts(c) < Push(false, Parts(c), s) <==> IsOrdinary(s)
  {
    PartsAreNormal(c);
    hide Parts;
  }

  // ----- When two jobs get in each other's way -----

  /** Where a job is downloaded to. */
  function JobDir(base: string, category: string, release: string): string {
    Join(base, Subdir(category, release))
  }

  /** One directory lies in the other. */
  predicate Meets(a: string, b: string) {
    Parts(a) <= Parts(b) || Parts(b) <= Parts(a)
  }

  lemma JobDirParts(base: string, category: string, release: string)
    requires IsAbs(base) && !IsAbs(category) && !ClimbsFirst(Parts(Subdir(category, release)))
    ensures Parts(JobDir(base, category, release)) == Parts(base) + Parts(Subdir(category, release))
  {
    var sub := Subdir(category, release);
    SubdirParts(category, release);
    hide Subdir, Join, Parts;
    PartsOfJoin(base, sub);
    OrdinaryUnlessClimbing(sub);
    RootedIsOrdinary(base);
    SubIsAdded(Parts(base), sub);
  }

  lemma SubIsAdded(kept: seq<string>, sub: string)
    requires !IsAbs(sub) && AreOrdinary(kept) && AreOrdinary(Parts(sub))
    ensures Reduce(true, kept, Split(sub)) == kept + Parts(sub)
  {
    ReduceReduced(kept, [], Split(sub));
    ReduceOrdinary(true, kept, Parts(sub));
  }

  /** Below one base the directories of two jobs meet exactly if what their categories and releases come to does. */
  lemma MeetsBySubdir(base: string, c1: string, r1: string, c2: string, r2: string)
    requires IsAbs(base) && !IsAbs(c1) && !IsAbs(c2)
    requires !ClimbsFirst(Parts(Subdir(c1, r1))) && !ClimbsFirst(Parts(Subdir(c2, r2)))
    ensures Meets(JobDir(base, c1, r1), JobDir(base, c2, r2)) <==>
            Parts(Subdir(c1, r1)) <= Parts(Subdir(c2, r2)) || Parts(Subdir(c2, r2)) <= Parts(Subdir(c1, r1))
  {
    hide Parts, Subdir, JobDir;
    JobDirParts(base, c1, r1);
    JobDirParts(base, c2, r2);
    SamePrefix(Parts(base), Parts(Subdir(c1, r1)), Parts(Subdir(c2, r2)));
    SamePrefix(Parts(base), Parts(Subdir(c2, r2)), Parts(Subdir(c1, r1)));
  }

  lemma SamePrefix(a: seq<string>, x: seq<string>, y: seq<string>)
    ensures a + x <= a + y <==> x <= y
  {
    if a + x <= a + y {
      assert x == (a + x)[|a|..] && y == (a + y)[|a|..];
      assert forall i :: 0 <= i < |x| ==> x[i] == (a + x)[|a| + i] && y[i] == (a + y)[|a| + i];
    }
    if x <= y {
      assert a + y == a + x + y[|x|..];
    }
  }

  /** A download into `target` can put a file into `dir`: some name it may be given lands there. */
  ghost predicate CanLandIn(cwd: string, target: string, dir: string) {
    exists rel :: IsLanding(cwd, target, rel, dir)
  }

  predicate IsLanding(cwd: string, target: string, rel: string, dir: string) {
    && Parts(rel) != [] && SafeJoin(cwd, target, rel).Some?
    && Parts(dir) <= Parts(Abs(cwd, SafeJoin(cwd, target, rel).value))
  }

  /** ... exactly if one of the directories lies in the other. */
  lemma CanLandExactly(cwd: string, target: string, dir: string)
    requires IsAbs(cwd) && IsAbs(target) && IsAbs(dir) && '\0' !in dir
    ensures CanLandIn(cwd, target, dir) <==> Meets(target, dir)
  {
    hide Parts, SafeJoin, Abs;
    AbsByParts(cwd, target);
    if CanLandIn(cwd, target, dir) {
      var rel :| IsLanding(cwd, target, rel, dir);
      SafeJoinIsExact(cwd, target, rel);
      BothPrefixes(Parts(target), Parts(dir), Parts(target) + Parts(rel));
    }
    if Parts(dir) <= Parts(target) {
      OneName(cwd, target, dir);
    } else if Parts(target) <= Parts(dir) {
      TheRest(cwd, target, dir);
    }
  }

  lemma BothPrefixes(a: seq<string>, b: seq<string>, c: seq<string>)
    requires a <= c && b <= c
    ensures a <= b || b <= a
  {
    if |a| <= |b| {
      assert forall i :: 0 <= i < |a| ==> a[i] == c[i] && b[i] == c[i];
    } else {
      assert forall i :: 0 <= i < |b| ==> a[i] == c[i] && b[i] == c[i];
    }
  }

  lemma OneName(cwd: string, target: string, dir: string)
    requires IsAbs(cwd) && IsAbs(target) && Parts(dir) <= Parts(target)
    ensures CanLandIn(cwd, target, dir)
  {
    var rel := "x";
    SplitName(rel);
    assert Parts(rel) == ["x"] by { ReduceOrdinary(false, [], ["x"]); }
    AbsByParts(cwd, target);
    hide Parts, SafeJoin, Abs, Split;
    SafeJoinIsExact(cwd, target, rel);
    assert Parts(dir) <= Parts(target) + ["x"];
    assert IsLanding(cwd, target, rel, dir);
  }

  lemma TheRest(cwd: string, target: string, dir: string)
    requires IsAbs(cwd) && IsAbs(target) && IsAbs(dir) && '\0' !in dir
    requires Parts(target) <= Parts(dir) && Parts(target) != Parts(dir)
    ensures CanLandIn(cwd, target, dir)
  {
    hide Parts, SafeJoin, Abs, Split, JoinSlash;
    var ps := Parts(dir)[|Parts(target)|..];
    PartsAreNormal(dir);
    RootedIsOrdinary(dir);
    NoNulls(dir);
    var rel := JoinSlash(ps);
    JoinedName(ps);
    AbsByParts(cwd, target);
    SafeJoinIsExact(cwd, target, rel);
    assert Parts(target) + ps == Parts(dir);
    assert IsLanding(cwd, target, rel, dir);
  }

  lemma JoinedName(ps: seq<string>)
    requires ps != [] && AreNames(ps) && AreOrdinary(ps) && AreClean(ps)
    ensures var rel := JoinSlash(ps); Parts(rel) == ps && !IsAbs(rel) && '\0' !in rel && !ClimbsFirst(ps)
  {
    SplitJoinSlash(ps);
    ReduceOrdinary(false, [], ps);
    JoinSlashIsClean(ps);
    assert [] + ps == ps;
  }

  predicate AreClean(ps: seq<string>) {
    forall i :: 0 <= i < |ps| ==> '\0' !in ps[i]
  }

  lemma {:induction false} JoinSlashIsClean(ps: seq<string>)
    requires AreClean(ps)
    ensures '\0' !in JoinSlash(ps)
    decreases |ps|
  {
    if |ps| > 1 {
      JoinSlashIsClean(ps[1..]);
    }
  }

  lemma {:induction false} SplitIsClean(s: string)
    requires '\0' !in s
    ensures AreClean(Split(s))
    decreases |s|
  {
    if s != "" {
      if s[0] == '/' {
        SplitIsClean(s[1..]);
      } else {
        SplitIsClean(s[SlashAt(s)..]);
      }
    }
  }

  lemma {:induction false} ReduceIsClean(rooted: bool, kept: seq<string>, ps: seq<string>)
    requires AreClean(kept) && AreClean(ps)
    ensures AreClean(Reduce(rooted, kept, ps))
    decreases |ps|
  {
    if ps != [] {
      ReduceIsClean(rooted, Push(rooted, kept, ps[0]), ps[1..]);
    }
  }

  lemma NoNulls(s: string)
    requires '\0' !in s
    ensures AreClean(Parts(s))
  {
    SplitIsClean(s);
    ReduceIsClean(IsAbs(s), [], Split(s));
  }
}
