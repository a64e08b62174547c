/** Which entry of a TorBox list belongs to a job. */
module Matching {
  import opened Options
  import opened Jobs
  import opened PollerSpec
  import Text

  /** Some entry carries the id `k`, which is one. */
  ghost predicate IsCarried(items: seq<Item>, k: int) {
    k != 0 && exists i :: 0 <= i < |items| && (items[i].id == k || items[i].queueID == k)
  }

  ghost predicate IsLastWith(items: seq<Item>, k: int, it: Item) {
    exists i ::
      && 0 <= i < |items| && items[i] == it && (it.id == k || it.queueID == k)
      && forall m :: i < m < |items| ==> items[m].id != k && items[m].queueID != k
  }

  ghost predicate IsFirstWith(items: seq<Item>, k: int, it: Item) {
    exists i ::
      && 0 <= i < |items| && items[i] == it && (it.id == k || it.queueID == k)
      && forall m :: 0 <= m < i ==> items[m].id != k && items[m].queueID != k
  }

  ghost predicate IsNamed(items: seq<Item>, name: string) {
    exists i :: 0 <= i < |items| && items[i].name == name
  }

  ghost predicate IsFirstNamed(items: seq<Item>, name: string, it: Item) {
    exists i ::
      && 0 <= i < |items| && items[i] == it && it.name == name
      && forall m :: 0 <= m < i ==> items[m].name != name
  }

  /** The file name without its ending ".nzb". */
  function ReleaseOf(filename: string): string {
    if |filename| >= 4 && filename[|filename| - 4..] == ".nzb" then filename[..|filename| - 4] else filename
  }

  /** The poller's choice: the last entry with the active id, or with the queue id, or the first of the name. */
  ghost predicate IsPollMatch(j: Row, items: seq<Item>, found: Option<Item>) {
    if j.activeID.Some? && IsCarried(items, j.activeID.value) then
      found.Some? && IsLastWith(items, j.activeID.value, found.value)
    else if j.queueID.Some? && IsCarried(items, j.queueID.value) then
      found.Some? && IsLastWith(items, j.queueID.value, found.value)
    else if IsNamed(items, ReleaseOf(j.filename)) then
      found.Some? && IsFirstNamed(items, ReleaseOf(j.filename), found.value)
    else found.None?
  }

  /** The id the puller asks for: the active one, or the queue's, or none. */
  function SoughtID(j: Row): int {
    match (j.activeID, j.queueID)
    case (Some(k), _) => k
    case (None, Some(k)) => k
    case (None, None) => 0
  }

  /** The puller's choice in the full list: the first entry with the id sought, or of the folder recorded. */
  ghost predicate IsPullMatch(j: Row, items: seq<Item>, found: Option<Item>) {
    if IsCarried(items, SoughtID(j)) then found.Some? && IsFirstWith(items, SoughtID(j), found.value)
    else if j.folder.Some? && IsNamed(items, j.folder.value) then
      found.Some? && IsFirstNamed(items, j.folder.value, found.value)
    else found.None?
  }

  /** An entry without the id, put last, makes no difference. */
  lemma LastStays(items: seq<Item>, last: Item, k: int, it: Item)
    requires IsLastWith(items, k, it) && last.id != k && last.queueID != k
    ensures IsLastWith(items + [last], k, it)
  {
    var i :| 0 <= i < |items| && items[i] == it && (it.id == k || it.queueID == k) &&
             forall m :: i < m < |items| ==> items[m].id != k && items[m].queueID != k;
    assert (items + [last])[i] == it;
  }

  lemma CarriedByLonger(items: seq<Item>, last: Item, k: int)
    ensures IsCarried(items + [last], k) <==> IsCarried(items, k) || last.Carries(k)
  {
    assert forall i :: 0 <= i < |items| ==> (items + [last])[i] == items[i];
    assert (items + [last])[|items|] == last;
  }

  lemma {:induction false} LastCarryingIs(items: seq<Item>, k: int)
    ensures LastCarrying(items, k).Some? <==> IsCarried(items, k)
    ensures LastCarrying(items, k).Some? ==> IsLastWith(items, k, LastCarrying(items, k).value)
  {
    if items != [] {
      var front, last := items[..|items| - 1], items[|items| - 1];
      assert items == front + [last];
      LastCarryingIs(front, k);
      CarriedByLonger(front, last, k);
      if last.Carries(k) {
        assert IsLastWith(items, k, items[|items| - 1]);
      } else if LastCarrying(front, k).Some? {
        hide IsLastWith, IsCarried;
        LastStays(front, last, k, LastCarrying(front, k).value);
      }
    }
  }

  /** The first entry that passes a test, by its place. */
  ghost predicate IsFirst(items: seq<Item>, test: Item -> bool, i: int) {
    0 <= i < |items| && test(items[i]) && forall m :: 0 <= m < i ==> !test(items[m])
  }

  lemma {:induction false} FirstIs(items: seq<Item>, test: Item -> bool)
    ensures First(items, test).None? ==> forall i :: 0 <= i < |items| ==> !test(items[i])
    ensures First(items, test).Some? ==> exists i :: IsFirst(items, test, i) && First(items, test) == Some(items[i])
  {
    if items != [] {
      if test(items[0]) {
        assert IsFirst(items, test, 0);
      } else {
        var rest := items[1..];
        FirstIs(rest, test);
        if First(rest, test).Some? {
          var i :| IsFirst(rest, test, i) && First(rest, test) == Some(rest[i]);
          assert forall m :: 0 < m <= i ==> items[m] == rest[m - 1];
          assert IsFirst(items, test, i + 1);
        } else {
          assert forall m :: 0 < m < |items| ==> items[m] == rest[m - 1];
        }
      }
    }
  }

  lemma FirstNamedIs(items: seq<Item>, name: string, test: Item -> bool)
    requires forall it :: test(it) <==> it.name == name
    ensures First(items, test).Some? <==> IsNamed(items, name)
    ensures First(items, test).Some? ==> IsFirstNamed(items, name, First(items, test).value)
  {
    FirstIs(items, test);
    if First(items, test).Some? {
      var i :| IsFirst(items, test, i) && First(items, test) == Some(items[i]);
      assert items[i].name == name;
    }
  }

  lemma FirstWithIs(items: seq<Item>, k: int, test: Item -> bool)
    requires forall it: Item :: test(it) <==> it.Carries(k)
    ensures First(items, test).Some? <==> IsCarried(items, k)
    ensures First(items, test).Some? ==> IsFirstWith(items, k, First(items, test).value)
  {
    FirstIs(items, test);
    if First(items, test).Some? {
      var i :| IsFirst(items, test, i) && First(items, test) == Some(items[i]);
      assert items[i].Carries(k);
      assert forall m :: 0 <= m < i ==> !items[m].Carries(k);
    } else {
      assert forall m :: 0 <= m < |items| ==> !items[m].Carries(k);
    }
  }

  /** The poller's search, whatever the list holds. */
  lemma FindForPollIs(j: Row, items: seq<Item>)
    ensures IsPollMatch(j, items, FindForPoll(j, items))
  {
    if j.activeID.Some? { LastCarryingIs(items, j.activeID.value); }
    if j.queueID.Some? { LastCarryingIs(items, j.queueID.value); }
    FirstNamedIs(items, ReleaseOf(j.filename), (it: Item) => it.name == Text.TrimSuffix(j.filename, ".nzb"));
    hide LastCarrying, First, IsLastWith, IsCarried, IsNamed, IsFirstNamed;
  }

  /** The puller's search of the full list. */
  lemma FindForPullIs(j: Row, items: seq<Item>)
    ensures j.EffectiveTorboxID() == SoughtID(j)
    ensures IsPullMatch(j, items, FindForPull(j, items))
  {
    FirstWithIs(items, SoughtID(j), (it: Item) => it.Carries(j.EffectiveTorboxID()));
    if j.folder.Some? {
      FirstNamedIs(items, j.folder.value, (it: Item) => it.name == j.folder.value);
    }
    hide First, IsFirstWith, IsCarried, IsNamed, IsFirstNamed;
  }

  /** ... which is made only if TorBox's answer to the request by id is not about that id. */
  lemma FindItemIs(j: Row, byID: Option<Item>, items: seq<Item>)
    ensures var k := SoughtID(j);
            if byID.Some? && k != 0 && (byID.value.id == k || byID.value.queueID == k)
            then FindItem(j, byID, items) == byID
            else IsPullMatch(j, items, FindItem(j, byID, items))
  {
    FindForPullIs(j, items);
    hide FindForPull, IsPullMatch;
  }
}
