/**
 The two halves together: the dataset the extraction script writes, read
 back by the region resolver.

 `Written(s, d)` says the store holds exactly what the script writes for
 `d`: `states.json` holds the states list, and each level directory holds
 one file per group, named after the group's parent key. The lemmas show
 that every record the script accepts is listed under its parent and, when
 codes are unique within a level, found again by its own code.
 */
module Publish {
  import opened Wrappers
  import opened Regions
  import opened Location
  import opened Extract

  /** `dir` holds one decoded file per group of `groups`, named after its key, and nothing else. */
  ghost predicate Holds(dir: Dir, groups: Groups)
  {
    && (forall i :: 0 <= i < |dir| ==> dir[i].0 in groups && dir[i].1 == Decoded(groups[dir[i].0]))
    && (forall k :: k in groups ==> exists i :: 0 <= i < |dir| && dir[i].0 == k)
  }

  ghost predicate Written(s: Store, d: Dataset)
  {
    && s.states == Decoded(d.states)
    && Holds(s.cities, d.cities)
    && Holds(s.districts, d.districts)
    && Holds(s.villages, d.villages)
  }

  /** A record the script emits at level `lvl`. */
  ghost predicate AcceptedAt(r: Region, lvl: Level)
  {
    Place(r.code).Some? && Place(r.code).value.level == lvl
  }

  /** Within level `lvl`, tuples with the same code carry the same record. */
  ghost predicate UniqueCodesAt(matches: seq<Pair>, lvl: Level)
  {
    forall i, j :: 0 <= i < |matches| && 0 <= j < |matches|
                   && AcceptedAt(Record(matches[i]), lvl)
                   && Record(matches[i]).code == Record(matches[j]).code
                   ==> Record(matches[i]) == Record(matches[j])
  }

  lemma HoldsAt(s: Store, d: Dataset, lvl: Level)
    requires lvl != State && Written(s, d)
    ensures Holds(DirOf(s, lvl), GroupsAt(d, lvl))
  {
  }

  /** `GetStates` serves the accepted dot-free codes, in input order. */
  lemma StatesServed(s: Store, matches: seq<Pair>)
    requires Written(s, Partition(matches))
    ensures GetStates(s) == Ok(Selected(matches, Slot(State, "")))
  {
    StatesInOrder(matches);
  }

  /**
   A direct lookup serves exactly the group of its parent key: the records
   the script put there, in input order; a parent no record names has no
   file and the read fails.
   */
  lemma GroupServed(s: Store, matches: seq<Pair>, lvl: Level, key: string)
    requires lvl != State && Written(s, Partition(matches))
    ensures Selected(matches, Slot(lvl, key)) != [] ==>
              ListChildren(s, lvl, key) == Ok(Selected(matches, Slot(lvl, key)))
    ensures Selected(matches, Slot(lvl, key)) == [] ==>
              ListChildren(s, lvl, key) == Err(StorageError(FilePath(lvl, key)))
  {
    var d := Partition(matches);
    var dir := DirOf(s, lvl);
    var groups := GroupsAt(d, lvl);
    HoldsAt(s, d, lvl);
    PartitionKeys(matches, lvl, key);
    PartitionGroups(matches, Slot(lvl, key));
    if key in groups {
      var f := Open(dir, key);
      assert f.Some?;
      var i :| 0 <= i < |dir| && dir[i] == (key, f.value);
    }
  }

  /** Every record of a level directory the script wrote comes from an accepted tuple of that level. */
  lemma LevelRecordFromInput(s: Store, matches: seq<Pair>, lvl: Level, x: Region)
    requires lvl != State && Written(s, Partition(matches))
    requires x in AllRecords(DirOf(s, lvl))
    ensures AcceptedAt(x, lvl)
    ensures exists m :: 0 <= m < |matches| && Record(matches[m]) == x
  {
    var dir := DirOf(s, lvl);
    var groups := GroupsAt(Partition(matches), lvl);
    HoldsAt(s, Partition(matches), lvl);
    var i := FileOfRecord(dir, x);
    var key := dir[i].0;
    PartitionGroups(matches, Slot(lvl, key));
    var m := SelectedMembers(matches, Slot(lvl, key), x);
  }

  /** The index of a decoded file holding `x`. */
  lemma {:induction false} FileOfRecord(dir: Dir, x: Region) returns (i: nat)
    requires x in AllRecords(dir)
    ensures i < |dir| && dir[i].1.Decoded? && x in dir[i].1.regions
  {
    match dir[0].1
    case Bad =>
      i := FileOfRecord(dir[1..], x);
      i := i + 1;
    case Decoded(rs) =>
      if x in rs {
        i := 0;
      } else {
        i := FileOfRecord(dir[1..], x);
        i := i + 1;
      }
  }

  /** Unique codes in the input make codes identify records in the level directory. */
  lemma UniqueInputUniqueLevel(s: Store, matches: seq<Pair>, lvl: Level)
    requires lvl != State && Written(s, Partition(matches))
    requires UniqueCodesAt(matches, lvl)
    ensures CodesDetermineRecords(DirOf(s, lvl))
  {
    forall x, y | x in AllRecords(DirOf(s, lvl)) && y in AllRecords(DirOf(s, lvl)) && x.code == y.code
      ensures x == y
    {
      LevelRecordFromInput(s, matches, lvl, x);
      LevelRecordFromInput(s, matches, lvl, y);
      var i :| 0 <= i < |matches| && Record(matches[i]) == x;
      var j :| 0 <= j < |matches| && Record(matches[j]) == y;
    }
  }

  /**
   End to end: a record the script accepts below the state level is listed
   under its parent key, and, when codes are unique in its level, the
   reverse lookup by its own code returns that same record.
   */
  lemma ExtractedIsResolved(s: Store, matches: seq<Pair>, i: nat)
    requires Written(s, Partition(matches))
    requires i < |matches|
    requires Place(Record(matches[i]).code).Some? && Place(Record(matches[i]).code).value.level != State
    ensures var slot := Place(Record(matches[i]).code).value;
            ListChildren(s, slot.level, slot.parent).Ok?
            && Record(matches[i]) in ListChildren(s, slot.level, slot.parent).value
    ensures var slot := Place(Record(matches[i]).code).value;
            UniqueCodesAt(matches, slot.level) ==> FindByCode(s, slot.level, Record(matches[i]).code) == Ok(Record(matches[i]))
  {
    var r := Record(matches[i]);
    var slot := Place(r.code).value;
    SelectedContains(matches, i);
    GroupServed(s, matches, slot.level, slot.parent);
    if UniqueCodesAt(matches, slot.level) {
      UniqueInputUniqueLevel(s, matches, slot.level);
      ListedIsFound(s, slot.level, slot.parent, r);
    }
  }

  /** The same for states: a state record the script accepts is what `GetState` returns for its code. */
  lemma ExtractedStateIsResolved(s: Store, matches: seq<Pair>, i: nat)
    requires Written(s, Partition(matches))
    requires i < |matches| && Place(Record(matches[i]).code) == Some(Slot(State, ""))
    requires UniqueCodesAt(matches, State)
    ensures GetState(s, Record(matches[i]).code) == Ok(Record(matches[i]))
  {
    var r := Record(matches[i]);
    var states := Selected(matches, Slot(State, ""));
    SelectedContains(matches, i);
    StatesServed(s, matches);
    forall x, y | x in states && y in states && x.code == y.code
      ensures x == y
    {
      var m := SelectedMembers(matches, Slot(State, ""), x);
      var n := SelectedMembers(matches, Slot(State, ""), y);
    }
    StateListedIsFound(s, r);
  }
}
