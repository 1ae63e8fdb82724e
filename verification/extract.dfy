/**
 The grouping loop of the dataset extraction script.

 The script scans the SQL dump for `('code','name')` tuples and sorts each
 into the level its code's dot count names: states in one list, cities,
 districts and villages in groups keyed by their parent code. Each group
 later becomes one `<level>/<parent>.json` file. The download, the regex
 engine and the file writes are not modelled: the input is the sequence of
 tuples the pattern matched, in document order.
 */
module Extract {
  import opened Wrappers
  import opened Regions
  import opened Text

  /** One `(code, name)` tuple the pattern matched, before stripping. */
  type Pair = (string, string)

  /** What the pattern's `([^']+)` group can capture: at least one character, no single quote. */
  predicate Captured(field: string)
  {
    |field| > 0 && '\'' !in field
  }

  /** The record the script emits for a tuple: `{code, value: name}`, both stripped. */
  function Record(p: Pair): Region
  {
    Region(Strip(p.0), Strip(p.1))
  }

  type Groups = map<string, seq<Region>>

  /** The script's four accumulators. */
  datatype Dataset = Dataset(states: seq<Region>, cities: Groups, districts: Groups, villages: Groups)

  const Empty: Dataset := Dataset([], map[], map[], map[])

  /** Where a record goes: a level and the parent key of its group (`""` for states). */
  datatype Slot = Slot(level: Level, parent: string)

  /**
   Where a stripped code belongs, stated independently of the script's
   branches: nowhere unless its dot-free form is all digits and it has at
   most three dots; else the level its dot count names, grouped under the
   code minus its last dot-segment.
   */
  function Place(code: string): Option<Slot>
  {
    if !IsDigits(RemoveDots(code)) then None
    else
      var n := CountDots(code);
      if n == 0 then Some(Slot(State, ""))
      else if n == 1 then Some(Slot(City, DropLastSegment(code)))
      else if n == 2 then Some(Slot(District, DropLastSegment(code)))
      else if n == 3 then Some(Slot(Village, DropLastSegment(code)))
      else None
  }

  /** `groups.setdefault(key, []).append(r)`. */
  function AppendTo(m: Groups, key: string, r: Region): (m': Groups)
    ensures m'.Keys == m.Keys + {key}
    ensures m'[key] == (if key in m then m[key] else []) + [r]
    ensures forall k :: k in m && k != key ==> m'[k] == m[k]
  {
    if key in m then m[key := m[key] + [r]] else m[key := [r]]
  }

  /** One iteration of the script's loop, branch for branch. */
  function Step(d: Dataset, p: Pair): Dataset
  {
    var code := Strip(p.0);
    var name := Strip(p.1);
    if !IsDigits(RemoveDots(code)) then d
    else
      var dotCount := CountDots(code);
      var rec := Region(code, name);
      if dotCount == 0 then
        d.(states := d.states + [rec])
      else if dotCount == 1 then
        var stateCode := Split(code)[0];
        d.(cities := AppendTo(d.cities, stateCode, rec))
      else if dotCount == 2 then
        var parts := Split(code);
        var cityCode := parts[0] + "." + parts[1];
        d.(districts := AppendTo(d.districts, cityCode, rec))
      else if dotCount == 3 then
        var parts := Split(code);
        var districtCode := parts[0] + "." + parts[1] + "." + parts[2];
        d.(villages := AppendTo(d.villages, districtCode, rec))
      else d
  }

  /** The whole loop: every matched tuple, in document order. */
  function Partition(matches: seq<Pair>): Dataset
  {
    if |matches| == 0 then Empty
    else Step(Partition(matches[..|matches| - 1]), matches[|matches| - 1])
  }

  /** The loop as the script writes it. */
  method ExtractAll(matches: seq<Pair>) returns (d: Dataset)
    ensures d == Partition(matches)
  {
    d := Empty;
    for i := 0 to |matches|
      invariant d == Partition(matches[..i])
    {
      assert matches[..i + 1][..i] == matches[..i];
      d := Step(d, matches[i]);
    }
    assert matches[..|matches|] == matches;
  }

  function GroupsAt(d: Dataset, lvl: Level): Groups
    requires lvl != State
  {
    match lvl
    case City => d.cities
    case District => d.districts
    case Village => d.villages
  }

  /** The records a dataset holds in one slot; empty when there is no such group. */
  function GroupOf(d: Dataset, slot: Slot): seq<Region>
  {
    if slot.level == State then (if slot.parent == "" then d.states else [])
    else if slot.parent in GroupsAt(d, slot.level) then GroupsAt(d, slot.level)[slot.parent]
    else []
  }

  /** Reference: the records of the tuples that belong in `slot`, in input order. */
  function Selected(matches: seq<Pair>, slot: Slot): seq<Region>
  {
    if |matches| == 0 then []
    else
      var last := matches[|matches| - 1];
      Selected(matches[..|matches| - 1], slot)
      + (if Place(Record(last).code) == Some(slot) then [Record(last)] else [])
  }

  // ---------------------------------------------------------------------
  // Properties.

  /** The script's `split`-and-rejoin parent key is the code minus its last dot-segment. */
  lemma ScriptKeyIsParent(code: string)
    requires 1 <= CountDots(code) <= 3
    ensures var parts := Split(code);
            && (CountDots(code) == 1 ==> parts[0] == DropLastSegment(code))
            && (CountDots(code) == 2 ==> parts[0] + "." + parts[1] == DropLastSegment(code))
            && (CountDots(code) == 3 ==> parts[0] + "." + parts[1] + "." + parts[2] == DropLastSegment(code))
  {
    var parts := Split(code);
    var init := parts[..|parts| - 1];
    SplitPrefixIsParent(code);
    JoinSmall(init);
    assert init[0] == parts[0];
    if |init| >= 2 {
      assert init[1] == parts[1];
    }
    if |init| == 3 {
      assert init[2] == parts[2];
    }
  }

  /** What the digit test and the dot count decide, and the parent key's shape. */
  lemma PlaceFacts(code: string)
    ensures Place(code).Some? <==> IsDigits(RemoveDots(code)) && CountDots(code) <= 3
    ensures Place(code).Some? ==> Depth(Place(code).value.level) == CountDots(code)
    ensures Place(code).Some? && Place(code).value.level == State ==> Place(code).value.parent == ""
    ensures Place(code).Some? && Place(code).value.level != State ==>
              var parent := Place(code).value.parent;
              && CountDots(parent) + 1 == CountDots(code)
              && |parent| < |code| && code[..|parent|] == parent && code[|parent|] == '.'
              && '.' !in code[|parent| + 1..]
  {
    if Place(code).Some? && Place(code).value.level != State {
      DropLastSegmentDots(code);
    }
  }

  /** Adds one record to a slot of the dataset. */
  function Put(d: Dataset, slot: Slot, rec: Region): Dataset
  {
    match slot.level
    case State => d.(states := d.states + [rec])
    case City => d.(cities := AppendTo(d.cities, slot.parent, rec))
    case District => d.(districts := AppendTo(d.districts, slot.parent, rec))
    case Village => d.(villages := AppendTo(d.villages, slot.parent, rec))
  }

  /** Adds a record to a slot, or leaves the dataset alone when there is none. */
  function PutAt(d: Dataset, place: Option<Slot>, rec: Region): Dataset
  {
    match place
    case None => d
    case Some(slot) => Put(d, slot, rec)
  }

  /** The script's branches put each tuple where `Place` says it belongs. */
  lemma StepIsPut(d: Dataset, p: Pair)
    ensures Step(d, p) == PutAt(d, Place(Record(p).code), Record(p))
  {
    var code := Strip(p.0);
    if IsDigits(RemoveDots(code)) && 1 <= CountDots(code) <= 3 {
      ScriptKeyIsParent(code);
    }
  }

  lemma PutAtGroup(d: Dataset, place: Option<Slot>, rec: Region, slot: Slot)
    requires place.Some? && place.value.level == State ==> place.value.parent == ""
    ensures GroupOf(PutAt(d, place, rec), slot) == GroupOf(d, slot) + (if place == Some(slot) then [rec] else [])
  {
  }

  lemma PutAtKeys(d: Dataset, place: Option<Slot>, rec: Region, lvl: Level, key: string)
    requires lvl != State
    ensures key in GroupsAt(PutAt(d, place, rec), lvl) <==> key in GroupsAt(d, lvl) || place == Some(Slot(lvl, key))
  {
  }

  /** One loop iteration appends the tuple's record to the one slot it belongs in, and to no other. */
  lemma StepGroup(d: Dataset, p: Pair, slot: Slot)
    ensures GroupOf(Step(d, p), slot)
            == GroupOf(d, slot) + (if Place(Record(p).code) == Some(slot) then [Record(p)] else [])
  {
    StepIsPut(d, p);
    PlaceFacts(Record(p).code);
    PutAtGroup(d, Place(Record(p).code), Record(p), slot);
  }

  /** One loop iteration creates exactly the group of the tuple's slot, if it was missing. */
  lemma StepKeys(d: Dataset, p: Pair, lvl: Level, key: string)
    requires lvl != State
    ensures key in GroupsAt(Step(d, p), lvl)
            <==> key in GroupsAt(d, lvl) || Place(Record(p).code) == Some(Slot(lvl, key))
  {
    StepIsPut(d, p);
    PutAtKeys(d, Place(Record(p).code), Record(p), lvl, key);
  }

  /**
   Partition: every slot of the extracted dataset holds exactly the records
   of the tuples that belong there, in input order; nothing else.
   */
  lemma {:induction false} PartitionGroups(matches: seq<Pair>, slot: Slot)
    ensures GroupOf(Partition(matches), slot) == Selected(matches, slot)
  {
    if |matches| > 0 {
      var init := matches[..|matches| - 1];
      PartitionGroups(init, slot);
      StepGroup(Partition(init), matches[|matches| - 1], slot);
    }
  }

  /** A group file exists exactly for the parent keys some accepted tuple names. */
  lemma {:induction false} PartitionKeys(matches: seq<Pair>, lvl: Level, key: string)
    requires lvl != State
    ensures key in GroupsAt(Partition(matches), lvl) <==> Selected(matches, Slot(lvl, key)) != []
  {
    if |matches| > 0 {
      var init := matches[..|matches| - 1];
      PartitionKeys(init, lvl, key);
      StepKeys(Partition(init), matches[|matches| - 1], lvl, key);
    }
  }

  /** Every accepted tuple's record is in the group of its slot. */
  lemma {:induction false} SelectedContains(matches: seq<Pair>, i: nat)
    requires i < |matches| && Place(Record(matches[i]).code).Some?
    ensures Record(matches[i]) in Selected(matches, Place(Record(matches[i]).code).value)
  {
    var slot := Place(Record(matches[i]).code).value;
    if i < |matches| - 1 {
      var init := matches[..|matches| - 1];
      assert init[i] == matches[i];
      SelectedContains(init, i);
    }
  }

  /** Every member of a group comes from an input tuple whose slot is that group. */
  lemma {:induction false} SelectedMembers(matches: seq<Pair>, slot: Slot, r: Region) returns (i: nat)
    requires r in Selected(matches, slot)
    ensures Place(r.code) == Some(slot)
    ensures i < |matches| && Record(matches[i]) == r
  {
    var n := |matches| - 1;
    var init := matches[..n];
    var last := Record(matches[n]);
    if r in Selected(init, slot) {
      i := SelectedMembers(init, slot, r);
      assert matches[i] == init[i];
    } else {
      assert Place(last.code) == Some(slot) && r == last;
      i := n;
    }
  }

  /** No record of the extracted dataset sits in two different slots. */
  lemma InOneSlotOnly(matches: seq<Pair>, r: Region, s1: Slot, s2: Slot)
    requires r in GroupOf(Partition(matches), s1) && r in GroupOf(Partition(matches), s2)
    ensures s1 == s2
  {
    PartitionGroups(matches, s1);
    PartitionGroups(matches, s2);
    var i1 := SelectedMembers(matches, s1, r);
    var i2 := SelectedMembers(matches, s2, r);
  }

  /** The states list is the accepted dot-free codes, in input order. */
  lemma StatesInOrder(matches: seq<Pair>)
    ensures Partition(matches).states == Selected(matches, Slot(State, ""))
  {
    PartitionGroups(matches, Slot(State, ""));
  }

  /**
   A group key is the code of a region one level up, provided the member's
   code does not start with a dot.
   */
  lemma ParentIsCodeAbove(code: string)
    requires Place(code).Some? && Place(code).value.level != State
    requires code[0] != '.'
    ensures var slot := Place(code).value;
            Place(slot.parent).Some? && Place(slot.parent).value.level == Above(slot.level)
  {
    var slot := Place(code).value;
    var k := slot.parent;
    PlaceFacts(code);
    ValidCodeChars(code);
    ValidCodeChars(k);
    assert k[0] == code[0];
    forall i | 0 <= i < |k|
      ensures IsDigit(k[i]) || k[i] == '.'
    {
      assert k[i] == code[i];
    }
  }

  /** ... and that proviso is needed: `.5` is accepted as a city grouped under the empty key. */
  lemma ParentNotAlwaysCode()
    ensures Place(".5") == Some(Slot(City, ""))
    ensures Place("").None?
  {
    assert RemoveDots(".5") == "5";
    assert CountDots(".5") == 1;
    assert DropLastSegment(".5") == "";
  }

  /** Stripping keeps what the pattern excludes out: no emitted field contains a single quote. */
  lemma CapturedRecordHasNoQuote(p: Pair)
    requires Captured(p.0) && Captured(p.1)
    ensures '\'' !in Record(p).code && '\'' !in Record(p).value
  {
  }
}
