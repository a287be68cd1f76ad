/** The tag ledger of the main screen: the set `foundTags` of IDs seen so far and
    the list `tagList` of records shown, newest first sighting on top. */
module Ledger {

  /** One displayed tag: its ID, last signal strength and last sighting time. */
  datatype TagInfo = TagInfo(tagId: string, rssi: int, timestamp: int)

  /** The IDs that occur in a list of records. */
  function IdsOf(list: seq<TagInfo>): set<string> {
    set i | 0 <= i < |list| :: list[i].tagId
  }

  predicate NoDuplicateIds(list: seq<TagInfo>) {
    forall i, j :: 0 <= i < j < |list| ==> list[i].tagId != list[j].tagId
  }

  /** The record list after a repeat sighting: the first record with this ID
      takes the new signal strength and time, nothing else changes. */
  function UpdateFirst(list: seq<TagInfo>, tagId: string, rssi: int, now: int): (r: seq<TagInfo>)
    ensures |r| == |list|
    decreases |list|
  {
    if list == [] then []
    else if list[0].tagId == tagId then [list[0].(rssi := rssi, timestamp := now)] + list[1..]
    else [list[0]] + UpdateFirst(list[1..], tagId, rssi, now)
  }

  /** The first record with the ID is the one a left-to-right search stops at. */
  lemma {:induction false} UpdateFirstAt(list: seq<TagInfo>, tagId: string, rssi: int, now: int, i: nat)
    requires i < |list| && list[i].tagId == tagId
    requires forall j :: 0 <= j < i ==> list[j].tagId != tagId
    ensures UpdateFirst(list, tagId, rssi, now) == list[i := list[i].(rssi := rssi, timestamp := now)]
    decreases i
  {
    if i > 0 {
      UpdateFirstAt(list[1..], tagId, rssi, now, i - 1);
    }
  }

  /** The record list after a sighting: an unseen ID is prepended, a known one updated in place. */
  function Observe(list: seq<TagInfo>, tagId: string, rssi: int, now: int): seq<TagInfo> {
    if tagId !in IdsOf(list) then [TagInfo(tagId, rssi, now)] + list
    else UpdateFirst(list, tagId, rssi, now)
  }

  datatype Sighting = Sighting(tagId: string, rssi: int, now: int)

  /** The record list after a series of sightings, in order. */
  function ObserveAll(list: seq<TagInfo>, sightings: seq<Sighting>): seq<TagInfo>
    decreases |sightings|
  {
    if sightings == [] then list
    else
      var s := sightings[|sightings| - 1];
      Observe(ObserveAll(list, sightings[..|sightings| - 1]), s.tagId, s.rssi, s.now)
  }

  lemma IdsOfCons(r: TagInfo, list: seq<TagInfo>)
    ensures IdsOf([r] + list) == {r.tagId} + IdsOf(list)
  {
    var l := [r] + list;
    forall id | id in IdsOf(l) ensures id in {r.tagId} + IdsOf(list) {
      var i :| 0 <= i < |l| && l[i].tagId == id;
      if i > 0 { assert list[i - 1].tagId == id; }
    }
    forall id | id in IdsOf(list) ensures id in IdsOf(l) {
      var i :| 0 <= i < |list| && list[i].tagId == id;
      assert l[i + 1].tagId == id;
    }
    assert l[0].tagId == r.tagId;
  }

  /** Under no duplicates, a repeat sighting changes exactly the record with that
      ID, and only its signal strength and time. */
  lemma {:induction false} UpdateFirstChangesOnlyMatch(list: seq<TagInfo>, tagId: string, rssi: int, now: int)
    requires NoDuplicateIds(list)
    ensures var r := UpdateFirst(list, tagId, rssi, now);
      forall i :: 0 <= i < |list| ==>
        r[i] == if list[i].tagId == tagId then list[i].(rssi := rssi, timestamp := now) else list[i]
    decreases |list|
  {
    if list != [] {
      var r := UpdateFirst(list, tagId, rssi, now);
      var tail := list[1..];
      assert NoDuplicateIds(tail) by {
        forall i, j | 0 <= i < j < |tail| ensures tail[i].tagId != tail[j].tagId {
          assert tail[i] == list[i + 1] && tail[j] == list[j + 1];
        }
      }
      UpdateFirstChangesOnlyMatch(tail, tagId, rssi, now);
      forall i | 0 <= i < |list|
        ensures r[i] == if list[i].tagId == tagId then list[i].(rssi := rssi, timestamp := now) else list[i]
      {
        if i > 0 {
          if list[0].tagId == tagId {
            assert list[i].tagId != tagId;
          } else {
            assert r[i] == UpdateFirst(tail, tagId, rssi, now)[i - 1];
          }
        }
      }
    }
  }

  lemma {:induction false} UpdateFirstKeepsIds(list: seq<TagInfo>, tagId: string, rssi: int, now: int)
    requires NoDuplicateIds(list)
    ensures var r := UpdateFirst(list, tagId, rssi, now);
      IdsOf(r) == IdsOf(list) &&
      NoDuplicateIds(r) &&
      forall i :: 0 <= i < |list| ==> r[i].tagId == list[i].tagId
  {
    UpdateFirstChangesOnlyMatch(list, tagId, rssi, now);
    var r := UpdateFirst(list, tagId, rssi, now);
    assert forall i :: 0 <= i < |list| ==> r[i].tagId == list[i].tagId;
    assert IdsOf(r) == IdsOf(list) by {
      forall id | id in IdsOf(r) ensures id in IdsOf(list) {
        var i :| 0 <= i < |r| && r[i].tagId == id;
        assert list[i].tagId == id;
      }
      forall id | id in IdsOf(list) ensures id in IdsOf(r) {
        var i :| 0 <= i < |list| && list[i].tagId == id;
        assert r[i].tagId == id;
      }
    }
  }

  /** A first sighting puts a new record on top and shifts the old ones down unchanged. */
  lemma ObserveNew(list: seq<TagInfo>, tagId: string, rssi: int, now: int)
    requires tagId !in IdsOf(list)
    ensures var r := Observe(list, tagId, rssi, now);
      |r| == |list| + 1 && r[0] == TagInfo(tagId, rssi, now) &&
      (forall i :: 0 <= i < |list| ==> r[i + 1] == list[i]) &&
      IdsOf(r) == IdsOf(list) + {tagId}
  {
    IdsOfCons(TagInfo(tagId, rssi, now), list);
  }

  /** A repeat sighting keeps length, order and IDs, updates the matching record's
      signal strength and time, and leaves every other record alone. */
  lemma ObserveSeen(list: seq<TagInfo>, tagId: string, rssi: int, now: int)
    requires NoDuplicateIds(list) && tagId in IdsOf(list)
    ensures var r := Observe(list, tagId, rssi, now);
      |r| == |list| && IdsOf(r) == IdsOf(list) &&
      forall i :: 0 <= i < |list| ==>
        r[i] == if list[i].tagId == tagId then TagInfo(tagId, rssi, now) else list[i]
  {
    UpdateFirstChangesOnlyMatch(list, tagId, rssi, now);
    UpdateFirstKeepsIds(list, tagId, rssi, now);
  }

  /** Every sighting keeps the list free of duplicate IDs and adds its ID to the IDs. */
  lemma ObserveKeepsNoDuplicates(list: seq<TagInfo>, tagId: string, rssi: int, now: int)
    requires NoDuplicateIds(list)
    ensures NoDuplicateIds(Observe(list, tagId, rssi, now))
    ensures IdsOf(Observe(list, tagId, rssi, now)) == IdsOf(list) + {tagId}
  {
    if tagId in IdsOf(list) {
      UpdateFirstKeepsIds(list, tagId, rssi, now);
    } else {
      var r := Observe(list, tagId, rssi, now);
      ObserveNew(list, tagId, rssi, now);
      forall i, j | 0 <= i < j < |r| ensures r[i].tagId != r[j].tagId {
        if i == 0 {
          assert r[j].tagId == list[j - 1].tagId;
        } else {
          assert r[i] == list[i - 1] && r[j] == list[j - 1];
        }
      }
    }
  }

  /** With no duplicate IDs, the number of distinct IDs is the number of records. */
  lemma {:induction false} CountIsLength(list: seq<TagInfo>)
    requires NoDuplicateIds(list)
    ensures |IdsOf(list)| == |list|
    decreases |list|
  {
    if list != [] {
      var tail := list[1..];
      assert NoDuplicateIds(tail) by {
        forall i, j | 0 <= i < j < |tail| ensures tail[i].tagId != tail[j].tagId {
          assert tail[i] == list[i + 1] && tail[j] == list[j + 1];
        }
      }
      CountIsLength(tail);
      assert list == [list[0]] + tail;
      IdsOfCons(list[0], tail);
      forall i | 0 <= i < |tail| ensures tail[i].tagId != list[0].tagId {
        assert tail[i] == list[i + 1];
      }
    }
  }

  /** Sightings [A, B, A, C] leave three records in the order C, B, A, with A
      holding the signal strength and time of its second sighting. */
  lemma ScenarioABAC(a: string, b: string, c: string, r1: int, r2: int, r3: int, r4: int,
                     t1: int, t2: int, t3: int, t4: int)
    requires a != b && a != c && b != c
    ensures var l := ObserveAll([], [Sighting(a, r1, t1), Sighting(b, r2, t2), Sighting(a, r3, t3), Sighting(c, r4, t4)]);
      l == [TagInfo(c, r4, t4), TagInfo(b, r2, t2), TagInfo(a, r3, t3)] &&
      |IdsOf(l)| == 3
  {
    var s := [Sighting(a, r1, t1), Sighting(b, r2, t2), Sighting(a, r3, t3), Sighting(c, r4, t4)];
    assert s[..3][..2][..1][..0] == [];
    var l1 := Observe([], a, r1, t1);
    assert l1 == [TagInfo(a, r1, t1)];
    assert ObserveAll([], s[..1]) == l1;
    IdsOfCons(TagInfo(a, r1, t1), []);
    var l2 := Observe(l1, b, r2, t2);
    assert l2 == [TagInfo(b, r2, t2), TagInfo(a, r1, t1)];
    assert ObserveAll([], s[..2]) == l2;
    IdsOfCons(TagInfo(b, r2, t2), l1);
    assert a in IdsOf(l2);
    var l3 := Observe(l2, a, r3, t3);
    assert l2[1..] == l1;
    assert UpdateFirst(l1, a, r3, t3) == [TagInfo(a, r3, t3)];
    assert l3 == [TagInfo(b, r2, t2), TagInfo(a, r3, t3)];
    assert s[..3][..2] == s[..2] && s[..3][2] == Sighting(a, r3, t3);
    assert ObserveAll([], s[..3]) == l3;
    IdsOfCons(TagInfo(b, r2, t2), [TagInfo(a, r3, t3)]);
    IdsOfCons(TagInfo(a, r3, t3), []);
    var l4 := Observe(l3, c, r4, t4);
    assert l4 == [TagInfo(c, r4, t4)] + l3;
    IdsOfCons(TagInfo(c, r4, t4), l3);
    assert IdsOf(l4) == {a, b, c};
  }

  /** Sightings T1, T1, T2 from an empty ledger: the first and third are new
      (each shows the "new tag" notice), the second is an update; two records
      remain, T2 on top. */
  lemma ScenarioT1T1T2(t1: string, t2: string, r1: int, r2: int, r3: int, n1: int, n2: int, n3: int)
    requires t1 != t2
    ensures var l1 := Observe([], t1, r1, n1);
      var l2 := Observe(l1, t1, r2, n2);
      var l3 := Observe(l2, t2, r3, n3);
      t1 !in IdsOf([]) && t1 in IdsOf(l1) && t2 !in IdsOf(l2) &&
      l3 == [TagInfo(t2, r3, n3), TagInfo(t1, r2, n2)] && |IdsOf(l3)| == 2
  {
    var l1 := Observe([], t1, r1, n1);
    IdsOfCons(TagInfo(t1, r1, n1), []);
    var l2 := Observe(l1, t1, r2, n2);
    assert l2 == [TagInfo(t1, r2, n2)];
    IdsOfCons(TagInfo(t1, r2, n2), []);
    var l3 := Observe(l2, t2, r3, n3);
    IdsOfCons(TagInfo(t2, r3, n3), l2);
    assert IdsOf(l3) == {t1, t2};
  }

  class TagLedger {
    var foundTags: set<string>
    var tagList: seq<TagInfo>

    /** The set holds exactly the IDs in the list, and the list has no duplicate IDs. */
    ghost predicate Valid()
      reads this
    {
      foundTags == IdsOf(tagList) && NoDuplicateIds(tagList)
    }

    constructor ()
      ensures Valid() && foundTags == {} && tagList == []
    {
      foundTags := {};
      tagList := [];
    }

    /** `onTagFound`; `isNew` tells whether the "new tag" notice is shown. */
    method OnTagFound(tagId: string, rssi: int, now: int) returns (isNew: bool)
      requires Valid()
      modifies this
      ensures Valid()
      ensures isNew <==> tagId !in old(foundTags)
      ensures tagList == Observe(old(tagList), tagId, rssi, now)
      ensures foundTags == old(foundTags) + {tagId}
    {
      ObserveKeepsNoDuplicates(tagList, tagId, rssi, now);
      if tagId !in foundTags {
        foundTags := foundTags + {tagId};
        tagList := [TagInfo(tagId, rssi, now)] + tagList;
        isNew := true;
      } else {
        isNew := false;
        var i := 0;
        while i < |tagList|
          invariant 0 <= i <= |tagList|
          invariant tagList == old(tagList)
          invariant forall j :: 0 <= j < i ==> tagList[j].tagId != tagId
        {
          if tagList[i].tagId == tagId {
            UpdateFirstAt(tagList, tagId, rssi, now, i);
            tagList := tagList[i := tagList[i].(rssi := rssi, timestamp := now)];
            break;
          }
          i := i + 1;
        }
      }
    }

    /** `clearTags`: forgets every tag. */
    method ClearTags()
      modifies this
      ensures Valid() && foundTags == {} && tagList == []
    {
      foundTags := {};
      tagList := [];
    }

    /** `updateTagCount` shows the size of `foundTags`, which is the number of records. */
    method TagCount() returns (n: nat)
      requires Valid()
      ensures n == |foundTags|
      ensures n == |tagList|
    {
      CountIsLength(tagList);
      n := |foundTags|;
    }
  }
}
