/** Lexical paths: cleaning, joining and relating slash-separated names. */
module Paths {
  import opened Options

  predicate IsAbs(s: string) {
    s != "" && s[0] == '/'
  }

  /** A path element as it can stand between slashes. */
  predicate IsName(c: string) {
    c != "" && '/' !in c
  }

  predicate AreNames(ps: seq<string>) {
    forall i :: 0 <= i < |ps| ==> IsName(ps[i])
  }

  /** Neither "." nor "..". */
  predicate IsOrdinary(c: string) {
    c != "." && c != ".."
  }

  predicate AreOrdinary(ps: seq<string>) {
    forall i :: 0 <= i < |ps| ==> IsOrdinary(ps[i])
  }

  /** The length of the part before the first slash. */
  function SlashAt(s: string): (n: nat)
    ensures n <= |s| && '/' !in s[..n] && (n < |s| ==> s[n] == '/')
  {
    if s == "" || s[0] == '/' then 0
    else
      var n := SlashAt(s[1..]);
      assert s[..n + 1] == [s[0]] + s[1..][..n];
      n + 1
  }

  /** The non-empty elements between the slashes. */
  function Split(s: string): (ps: seq<string>)
    ensures AreNames(ps)
    decreases |s|
  {
    if s == "" then []
    else if s[0] == '/' then Split(s[1..])
    else
      var n := SlashAt(s);
      [s[..n]] + Split(s[n..])
  }

  /** What the next element does to the elements kept so far. */
  function Push(rooted: bool, kept: seq<string>, c: string): seq<string> {
    if c == "." then kept
    else if c == ".." then
      if kept != [] && kept[|kept| - 1] != ".." then kept[..|kept| - 1]
      else if rooted then kept
      else kept + [c]
    else kept + [c]
  }

  function Reduce(rooted: bool, kept: seq<string>, ps: seq<string>): seq<string>
    decreases |ps|
  {
    if ps == [] then kept else Reduce(rooted, Push(rooted, kept, ps[0]), ps[1..])
  }

  /** The elements of the cleaned path. */
  function Parts(s: string): seq<string> {
    Reduce(IsAbs(s), [], Split(s))
  }

  function JoinSlash(ps: seq<string>): string {
    if ps == [] then ""
    else if |ps| == 1 then ps[0]
    else ps[0] + "/" + JoinSlash(ps[1..])
  }

  function Render(rooted: bool, ps: seq<string>): string {
    if rooted then "/" + JoinSlash(ps) else if ps == [] then "." else JoinSlash(ps)
  }

  function Clean(s: string): string {
    Render(IsAbs(s), Parts(s))
  }

  function Join(a: string, b: string): string {
    if a == "" && b == "" then ""
    else if a == "" then Clean(b)
    else if b == "" then Clean(a)
    else Clean(a + "/" + b)
  }

  /** The absolute form of a path for a process working in `cwd`. */
  function Abs(cwd: string, s: string): string {
    if IsAbs(s) then Clean(s) else Join(cwd, s)
  }

  function Shared(a: seq<string>, b: seq<string>): (n: nat)
    ensures n <= |a| && n <= |b| && a[..n] == b[..n]
    ensures n < |a| && n < |b| ==> a[n] != b[n]
  {
    if a == [] || b == [] || a[0] != b[0] then 0 else 1 + Shared(a[1..], b[1..])
  }

  function Ups(n: nat): seq<string> {
    if n == 0 then [] else [".."] + Ups(n - 1)
  }

  /** The way from one path to another, if it can be told from their texts. */
  function Rel(base: string, target: string): Option<seq<string>> {
    if IsAbs(base) != IsAbs(target) then None
    else
      var b, t := Parts(base), Parts(target);
      var n := Shared(b, t);
      if n < |b| && b[n] == ".." then None else Some(Ups(|b| - n) + t[n..])
  }

  /** path.Base: the last element. */
  function Base(s: string): string {
    if s == "" then "."
    else
      var ps := Split(s);
      if ps == [] then "/" else ps[|ps| - 1]
  }

  // ----- Cleaning -----

  /** What cleaning leaves: no ".", and ".." only at the front of a path that is not rooted. */
  ghost predicate IsNormal(rooted: bool, ps: seq<string>) {
    forall i :: 0 <= i < |ps| ==>
      ps[i] != "." && (ps[i] == ".." ==> !rooted && forall j :: 0 <= j < i ==> ps[j] == "..")
  }

  lemma PushKeepsNormal(rooted: bool, kept: seq<string>, c: string)
    requires IsNormal(rooted, kept) && AreNames(kept) && IsName(c)
    ensures IsNormal(rooted, Push(rooted, kept, c)) && AreNames(Push(rooted, kept, c))
  {
    if c == ".." && kept != [] && kept[|kept| - 1] == ".." && !rooted {
      assert forall j :: 0 <= j < |kept| - 1 ==> kept[j] == "..";
    }
  }

  lemma {:induction false} ReduceIsNormal(rooted: bool, kept: seq<string>, ps: seq<string>)
    requires IsNormal(rooted, kept) && AreNames(kept) && AreNames(ps)
    ensures IsNormal(rooted, Reduce(rooted, kept, ps)) && AreNames(Reduce(rooted, kept, ps))
    decreases |ps|
  {
    if ps != [] {
      PushKeepsNormal(rooted, kept, ps[0]);
      hide IsNormal, Push;
      ReduceIsNormal(rooted, Push(rooted, kept, ps[0]), ps[1..]);
    }
  }

  lemma {:induction false} ReduceAppend(rooted: bool, kept: seq<string>, a: seq<string>, b: seq<string>)
    ensures Reduce(rooted, kept, a + b) == Reduce(rooted, Reduce(rooted, kept, a), b)
    decreases |a|
  {
    if a == [] {
      assert a + b == b;
    } else {
      assert (a + b)[1..] == a[1..] + b;
      ReduceAppend(rooted, Push(rooted, kept, a[0]), a[1..], b);
    }
  }

  lemma {:induction false} ReduceOrdinary(rooted: bool, kept: seq<string>, ps: seq<string>)
    requires AreOrdinary(ps)
    ensures Reduce(rooted, kept, ps) == kept + ps
    decreases |ps|
  {
    if ps != [] {
      assert IsOrdinary(ps[0]);
      ReduceOrdinary(rooted, kept + [ps[0]], ps[1..]);
      assert kept + [ps[0]] + ps[1..] == kept + ps;
    }
  }

  /** Cleaned elements stay as they are. */
  lemma {:induction false} ReduceNormal(rooted: bool, kept: seq<string>, ps: seq<string>)
    requires IsNormal(rooted, kept + ps)
    ensures Reduce(rooted, kept, ps) == kept + ps
    decreases |ps|
  {
    if ps == [] {
      assert kept + ps == kept;
    } else {
      assert (kept + ps)[|kept|] == ps[0];
      assert forall j :: 0 <= j < |kept| ==> (kept + ps)[j] == kept[j];
      assert Push(rooted, kept, ps[0]) == kept + [ps[0]];
      assert kept + [ps[0]] + ps[1..] == kept + ps;
      hide IsNormal, Push;
      ReduceNormal(rooted, kept + [ps[0]], ps[1..]);
    }
  }

  lemma PartsAreNormal(s: string)
    ensures IsNormal(IsAbs(s), Parts(s)) && AreNames(Parts(s))
  {
    ReduceIsNormal(IsAbs(s), [], Split(s));
  }

  // ----- Splitting and rendering -----

  lemma SplitName(c: string)
    requires IsName(c)
    ensures Split(c) == [c]
  {
    var n := SlashAt(c);
    assert n == |c|;
    assert c[..n] == c && c[n..] == "";
  }

  lemma {:induction false} SlashAtIs(s: string, n: nat)
    requires n < |s| && '/' !in s[..n] && s[n] == '/'
    ensures SlashAt(s) == n
  {
    if n > 0 {
      assert s[0] == s[..n][0] && s[1..][..n - 1] == s[..n][1..];
      SlashAtIs(s[1..], n - 1);
    }
  }

  lemma SplitSkip(s: string)
    ensures Split("/" + s) == Split(s)
  {
    assert ("/" + s)[1..] == s;
  }

  lemma SplitHead(c: string, rest: string)
    requires IsName(c) && (rest == "" || rest[0] == '/')
    ensures Split(c + rest) == [c] + Split(rest)
  {
    var s := c + rest;
    assert s[0] == c[0] && c[0] in c;
    if rest == "" {
      SplitName(c);
      assert s == c;
    } else {
      assert s[..|c|] == c && s[|c|..] == rest;
      SlashAtIs(s, |c|);
    }
  }

  lemma HeadOf(s: string) returns (c: string, rest: string)
    requires s != "" && s[0] != '/'
    ensures s == c + rest && IsName(c) && (rest == "" || rest[0] == '/')
  {
    var n := SlashAt(s);
    c, rest := s[..n], s[n..];
  }

  lemma {:induction false} SplitSlash(a: string, b: string)
    ensures Split(a + "/" + b) == Split(a) + Split(b)
    decreases |a|
  {
    hide Split, IsName;
    if a == "" {
      SplitSkip(b);
      SplitNothing();
      assert "" + "/" + b == "/" + b;
    } else if a[0] == '/' {
      SplitSkip(a[1..] + "/" + b);
      SplitSkip(a[1..]);
      assert a + "/" + b == "/" + (a[1..] + "/" + b) && a == "/" + a[1..];
      SplitSlash(a[1..], b);
    } else {
      var c, rest := HeadOf(a);
      NameIsNotEmpty(c);
      assert a + "/" + b == c + (rest + "/" + b);
      SplitHead(c, rest + "/" + b);
      SplitHead(c, rest);
      SplitSlash(rest, b);
    }
  }

  lemma SplitNothing()
    ensures Split("") == []
  {
  }

  lemma NameIsNotEmpty(c: string)
    requires IsName(c)
    ensures c != "" && c[0] != '/' && c[|c| - 1] != '/'
  {
    assert c[0] in c && c[|c| - 1] in c;
  }

  lemma {:induction false} SplitJoinSlash(ps: seq<string>)
    requires AreNames(ps)
    ensures Split(JoinSlash(ps)) == ps
    ensures !IsAbs(JoinSlash(ps)) && (ps != [] ==> JoinSlash(ps) != "")
    decreases |ps|
  {
    if ps != [] {
      assert IsName(ps[0]) && ps[0][0] in ps[0];
      SplitName(ps[0]);
      if |ps| == 1 {
        assert ps == [ps[0]];
      } else {
        SplitJoinSlash(ps[1..]);
        SplitSlash(ps[0], JoinSlash(ps[1..]));
      }
    }
  }

  /** Rendering cleaned elements and cleaning the text again gives the same elements. */
  lemma PartsOfRender(rooted: bool, ps: seq<string>)
    requires IsNormal(rooted, ps) && AreNames(ps)
    ensures Parts(Render(rooted, ps)) == ps && IsAbs(Render(rooted, ps)) == rooted
  {
    SplitJoinSlash(ps);
    ReduceNormal(rooted, [], ps);
    assert [] + ps == ps;
    if rooted {
      assert ("/" + JoinSlash(ps))[1..] == JoinSlash(ps);
    } else if ps == [] {
      SplitName(".");
      assert Reduce(false, [], ["."]) == [];
    }
  }

  lemma CleanKeepsParts(s: string)
    ensures Parts(Clean(s)) == Parts(s) && IsAbs(Clean(s)) == IsAbs(s)
  {
    PartsAreNormal(s);
    PartsOfRender(IsAbs(s), Parts(s));
  }

  lemma SplitThree(a: string, m: string, b: string)
    requires IsName(m)
    ensures Split(a + "/" + m + "/" + b) == Split(a) + [m] + Split(b)
  {
    hide Split;
    SplitSlash(a + "/" + m, b);
    SplitSlash(a, m);
    SplitName(m);
  }

  /** An element may be left out between others if it does nothing to those kept so far. */
  lemma ReduceSkips(rooted: bool, a: seq<string>, mid: seq<string>, b: seq<string>)
    requires Reduce(rooted, Reduce(rooted, [], a), mid) == Reduce(rooted, [], a)
    ensures Reduce(rooted, [], a + mid + b) == Reduce(rooted, [], a + b)
  {
    ReduceAppend(rooted, [], a + mid, b);
    ReduceAppend(rooted, [], a, mid);
    ReduceAppend(rooted, [], a, b);
  }

  lemma NameAndBack(rooted: bool, kept: seq<string>, c: string)
    requires IsOrdinary(c)
    ensures Reduce(rooted, kept, [c, ".."]) == kept && Reduce(rooted, kept, ["."]) == kept
    ensures Reduce(true, [], [".."]) == []
  {
    assert [c, ".."][1..] == [".."] && [".."][1..] == [] && ["."][1..] == [];
    assert Push(rooted, kept + [c], "..") == kept;
  }

  lemma SameClean(s: string, t: string)
    requires IsAbs(s) == IsAbs(t) && Parts(s) == Parts(t)
    ensures Clean(s) == Clean(t)
  {
    hide Parts;
  }

  /** The rules of cleaning a path: doubled slashes, "." and a name followed by ".." go, as does ".." at the root. */
  lemma CleanByRules(a: string, b: string, c: string)
    requires a != "" && IsName(c) && IsOrdinary(c)
    ensures Clean(a + "/" + "/" + b) == Clean(a + "/" + b)
    ensures Clean(a + "/" + "." + "/" + b) == Clean(a + "/" + b)
    ensures Clean(a + "/" + (c + "/" + "..") + "/" + b) == Clean(a + "/" + b)
    ensures Clean("/" + (".." + "/" + b)) == Clean("/" + b)
  {
    hide Split, Clean, Reduce;
    SplitSlash(a, b);
    NameAndBack(IsAbs(a), Reduce(IsAbs(a), [], Split(a)), c);
    SplitSlash(a + "/", b);
    SplitSlash(a, "");
    SplitNothing();
    assert a + "/" + "" == a + "/" && Split(a) + [] == Split(a);
    SameClean(a + "/" + "/" + b, a + "/" + b);
    SplitThree(a, ".", b);
    ReduceSkips(IsAbs(a), Split(a), ["."], Split(b));
    SameClean(a + "/" + "." + "/" + b, a + "/" + b);
    SplitSlash(a + "/" + (c + "/" + ".."), b);
    SplitSlash(a, c + "/" + "..");
    SplitSlash(c, "..");
    SplitName(c);
    SplitName("..");
    assert Split(c + "/" + "..") == [c, ".."];
    ReduceSkips(IsAbs(a), Split(a), [c, ".."], Split(b));
    SameClean(a + "/" + (c + "/" + "..") + "/" + b, a + "/" + b);
    SplitSkip(".." + "/" + b);
    SplitSkip(b);
    SplitSlash("..", b);
    ReduceAppend(true, [], [".."], Split(b));
    assert ("/" + (".." + "/" + b))[0] == '/' == ("/" + b)[0];
    NameAndBack(true, [], c);
    SameClean("/" + (".." + "/" + b), "/" + b);
  }

  /** ... and nothing else: a path of ordinary names between single slashes is clean. */
  lemma CleanIsClean(ps: seq<string>)
    requires ps != [] && AreNames(ps) && AreOrdinary(ps)
    ensures Clean(JoinSlash(ps)) == JoinSlash(ps) && Clean("/" + JoinSlash(ps)) == "/" + JoinSlash(ps)
  {
    SplitJoinSlash(ps);
    SplitSkip(JoinSlash(ps));
    ReduceOrdinary(false, [], ps);
    ReduceOrdinary(true, [], ps);
    hide Split, Reduce, JoinSlash;
    assert [] + ps == ps;
  }

  /** Joining appends the second path's elements to the first's and reduces what is left of "..". */
  lemma PartsOfJoin(a: string, b: string)
    requires !IsAbs(b)
    ensures Parts(Join(a, b)) == Reduce(IsAbs(a), Parts(a), Split(b)) && IsAbs(Join(a, b)) == IsAbs(a)
  {
    if a == "" && b == "" {
    } else if a == "" {
      CleanKeepsParts(b);
    } else if b == "" {
      CleanKeepsParts(a);
    } else {
      CleanKeepsParts(a + "/" + b);
      SplitSlash(a, b);
      ReduceAppend(IsAbs(a), [], Split(a), Split(b));
      assert (a + "/" + b)[0] == a[0];
    }
  }

  lemma PartsOfAbs(cwd: string, s: string)
    requires IsAbs(cwd)
    ensures IsAbs(Abs(cwd, s))
    ensures Parts(Abs(cwd, s)) == if IsAbs(s) then Parts(s) else Reduce(true, Parts(cwd), Split(s))
  {
    if IsAbs(s) {
      CleanKeepsParts(s);
    } else {
      PartsOfJoin(cwd, s);
    }
  }

  /** The relative path is the remainder exactly when the base is a prefix; otherwise it starts with "..". */
  lemma RelToPrefix(base: string, target: string)
    ensures var r := Rel(base, target);
            && (IsAbs(base) == IsAbs(target) && Parts(base) <= Parts(target) ==>
                  r == Some(Parts(target)[|Parts(base)|..]))
            && (r.Some? && !(Parts(base) <= Parts(target)) ==> r.value != [] && r.value[0] == "..")
  {
    var b, t := Parts(base), Parts(target);
    var n := Shared(b, t);
    if b <= t {
      assert n == |b|;
      assert Ups(0) + t[n..] == t[n..];
    } else if n == |b| {
      assert b == t[..n];
    }
  }

  // ----- Absolute forms -----

  lemma PushTwice(kept: seq<string>, st: seq<string>, c: string)
    requires AreOrdinary(kept) && IsNormal(false, st)
    ensures Reduce(true, kept, Push(false, st, c)) == Push(true, Reduce(true, kept, st), c)
  {
    if c == ".." && st != [] && st[|st| - 1] != ".." {
      assert st == st[..|st| - 1] + [st[|st| - 1]];
      ReduceAppend(true, kept, st[..|st| - 1], [st[|st| - 1]]);
    } else {
      ReduceAppend(true, kept, st, [c]);
    }
  }

  /** Cleaning a relative path first makes no difference to where it leads. */
  lemma {:induction false} ReduceReduced(kept: seq<string>, st: seq<string>, ps: seq<string>)
    requires AreOrdinary(kept) && IsNormal(false, st) && AreNames(st) && AreNames(ps)
    ensures Reduce(true, kept, Reduce(false, st, ps)) == Reduce(true, Reduce(true, kept, st), ps)
    decreases |ps|
  {
    if ps != [] {
      PushTwice(kept, st, ps[0]);
      PushKeepsNormal(false, st, ps[0]);
      hide Push, IsNormal;
      ReduceReduced(kept, Push(false, st, ps[0]), ps[1..]);
    }
  }

  lemma RootedIsOrdinary(s: string)
    requires IsAbs(s)
    ensures AreOrdinary(Parts(s))
  {
    PartsAreNormal(s);
  }

  lemma AbsByParts(cwd: string, s: string)
    requires IsAbs(cwd)
    ensures IsAbs(Abs(cwd, s))
    ensures Parts(Abs(cwd, s)) == if IsAbs(s) then Parts(s) else Reduce(true, Parts(cwd), Parts(s))
  {
    PartsOfAbs(cwd, s);
    if !IsAbs(s) {
      RootedIsOrdinary(cwd);
      ReduceReduced(Parts(cwd), [], Split(s));
    }
  }

  // ----- A suffix on a path -----

  /** A suffix extends the last element, or becomes one if the path ends in a slash. */
  lemma {:induction false} SplitSuffix(s: string, suffix: string)
    requires IsName(suffix)
    ensures if s == "" || s[|s| - 1] == '/' then Split(s + suffix) == Split(s) + [suffix]
            else
              var ps := Split(s);
              ps != [] && Split(s + suffix) == ps[..|ps| - 1] + [ps[|ps| - 1] + suffix]
    decreases |s|
  {
    hide Split;
    if s == "" {
      assert s + suffix == suffix;
      SplitName(suffix);
      SplitNothing();
    } else if s[0] == '/' {
      SplitSkip(s[1..] + suffix);
      SplitSkip(s[1..]);
      assert s + suffix == "/" + (s[1..] + suffix) && s == "/" + s[1..];
      SplitSuffix(s[1..], suffix);
    } else {
      var c, rest := HeadOf(s);
      NameIsNotEmpty(c);
      if rest == "" {
        assert s == c;
        SplitName(c + suffix);
        SplitName(c);
      } else {
        assert s + suffix == c + (rest + suffix) && rest[|rest| - 1] == s[|s| - 1];
        SplitHead(c, rest + suffix);
        SplitHead(c, rest);
        SplitSuffix(rest, suffix);
      }
    }
  }

  /** The elements a path starts from: its own root or the working directory. */
  function Kept(cwd: string, s: string): seq<string> {
    if IsAbs(s) then [] else Parts(cwd)
  }

  lemma KeyIs(cwd: string, s: string)
    requires IsAbs(cwd)
    ensures Parts(Abs(cwd, s)) == Reduce(true, Kept(cwd, s), Split(s)) && AreOrdinary(Kept(cwd, s))
  {
    PartsOfAbs(cwd, s);
    RootedIsOrdinary(cwd);
  }

  lemma SuffixKeepsRoot(cwd: string, s: string, suffix: string)
    requires IsName(suffix)
    ensures IsAbs(s + suffix) == IsAbs(s) && Kept(cwd, s + suffix) == Kept(cwd, s)
  {
    NameIsNotEmpty(suffix);
  }

  lemma {:induction false} ReduceStaysOrdinary(kept: seq<string>, ps: seq<string>)
    requires AreOrdinary(kept)
    ensures AreOrdinary(Reduce(true, kept, ps))
    decreases |ps|
  {
    if ps != [] {
      assert AreOrdinary(Push(true, kept, ps[0]));
      ReduceStaysOrdinary(Push(true, kept, ps[0]), ps[1..]);
    }
  }

  lemma ReduceLonger(kept: seq<string>, c: string)
    requires |c| > 2
    ensures Reduce(true, kept, [c]) == kept + [c]
  {
  }

  predicate EndsOpen(s: string) {
    s == "" || s[|s| - 1] == '/'
  }

  /** The file a path names, and the one it names with a suffix. */
  lemma SuffixedKey(cwd: string, s: string, suffix: string) returns (kept: seq<string>, c: string)
    requires IsAbs(cwd) && IsName(suffix) && |suffix| > 2
    ensures AreOrdinary(kept)
    ensures EndsOpen(s) ==> Parts(Abs(cwd, s)) == kept && Parts(Abs(cwd, s + suffix)) == kept + [suffix]
    ensures !EndsOpen(s) ==>
              && Split(s) != [] && c == Split(s)[|Split(s)| - 1]
              && Parts(Abs(cwd, s)) == Reduce(true, kept, [c]) && Parts(Abs(cwd, s + suffix)) == kept + [c + suffix]
  {
    hide Split, Abs, Parts, Reduce, Kept, AreOrdinary, IsName, IsAbs;
    KeyIs(cwd, s);
    KeyIs(cwd, s + suffix);
    SuffixKeepsRoot(cwd, s, suffix);
    SplitSuffix(s, suffix);
    var start, ps := Kept(cwd, s), Split(s);
    if EndsOpen(s) {
      kept, c := Reduce(true, start, ps), "";
      ReduceOneLonger(start, ps, suffix);
    } else {
      var front := ps[..|ps| - 1];
      c := ps[|ps| - 1];
      kept := Reduce(true, start, front);
      assert ps == front + [c];
      ReduceAppend(true, start, front, [c]);
      ReduceOneLonger(start, front, c + suffix);
    }
  }

  lemma ReduceOneLonger(start: seq<string>, ps: seq<string>, c: string)
    requires AreOrdinary(start) && |c| > 2
    ensures var kept := Reduce(true, start, ps); AreOrdinary(kept) && Reduce(true, start, ps + [c]) == kept + [c]
  {
    ReduceAppend(true, start, ps, [c]);
    ReduceLonger(Reduce(true, start, ps), c);
    ReduceStaysOrdinary(start, ps);
    hide Reduce, AreOrdinary;
  }

  lemma LastElementDiffers(kept: seq<string>, c: string, suffix: string)
    requires suffix != ""
    ensures Reduce(true, kept, [c]) != kept + [c + suffix]
  {
    assert (kept + [c + suffix])[|kept|] == c + suffix != c;
  }

  /** No path names the same file as the path with a suffix does. */
  lemma SuffixedIsOther(cwd: string, s: string, suffix: string)
    requires IsAbs(cwd) && IsName(suffix) && |suffix| > 2
    ensures Parts(Abs(cwd, s)) != Parts(Abs(cwd, s + suffix))
  {
    hide Split, Abs, Parts, Reduce;
    var kept, c := SuffixedKey(cwd, s, suffix);
    if !EndsOpen(s) {
      LastElementDiffers(kept, c, suffix);
    } else {
      assert |kept + [suffix]| > |kept|;
    }
  }
}
