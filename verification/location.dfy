/**
 The region resolver: eight read-only lookups over a dataset of JSON files.

 The file system is abstracted. Each file is either a decoded JSON array of
 regions or `Bad` (it could not be opened or decoded). The top-level file
 `states.json` is one such file. Each of `cities/`, `districts/` and
 `villages/` is a directory: a sequence of files named after the parent
 code, in the order the directory listing enumerates them.
 */
module Location {
  import opened Wrappers
  import opened Regions

  /** What reading and decoding one file yields. */
  datatype File = Decoded(regions: seq<Region>) | Bad

  /** A level directory: (parent code, file) pairs in enumeration order. */
  type Dir = seq<(string, File)>

  datatype Store = Store(states: File, cities: Dir, districts: Dir, villages: Dir)

  datatype Error = NotFound(level: Level) | StorageError(path: string)

  datatype Result<+T> = Ok(value: T) | Err(error: Error)

  const StatesPath: string := "states.json"

  function DirName(lvl: Level): string
    requires lvl != State
  {
    match lvl
    case City => "cities"
    case District => "districts"
    case Village => "villages"
  }

  /** Path of the file holding the children of `parent` at level `lvl`. */
  function FilePath(lvl: Level, parent: string): string
    requires lvl != State
  {
    DirName(lvl) + "/" + parent + ".json"
  }

  function DirOf(s: Store, lvl: Level): Dir
    requires lvl != State
  {
    match lvl
    case City => s.cities
    case District => s.districts
    case Village => s.villages
  }

  /** Opens the file called `name` in `dir`; `None` when no such file exists. */
  function Open(dir: Dir, name: string): (f: Option<File>)
    ensures f.None? <==> forall i :: 0 <= i < |dir| ==> dir[i].0 != name
    ensures f.Some? ==> exists i :: 0 <= i < |dir| && dir[i] == (name, f.value)
  {
    if |dir| == 0 then None
    else if dir[0].0 == name then Some(dir[0].1)
    else Open(dir[1..], name)
  }

  /** Reads and decodes one JSON array of regions: any failure is a storage error. */
  function ReadJson(f: Option<File>, path: string): (r: Result<seq<Region>>)
    ensures r.Ok? <==> f.Some? && f.value.Decoded?
    ensures r.Ok? ==> f == Some(Decoded(r.value))
    ensures r.Err? ==> r.error == StorageError(path)
  {
    match f
    case Some(Decoded(regions)) => Ok(regions)
    case _ => Err(StorageError(path))
  }

  /** The first region of `rs` whose code is `code`. */
  function FirstMatch(rs: seq<Region>, code: string): (r: Option<Region>)
    ensures r.None? <==> forall j :: 0 <= j < |rs| ==> rs[j].code != code
    ensures r.Some? ==> exists j :: 0 <= j < |rs| && rs[j] == r.value
                                    && r.value.code == code
                                    && forall k :: 0 <= k < j ==> rs[k].code != code
  {
    if |rs| == 0 then None
    else if rs[0].code == code then Some(rs[0])
    else
      var r := FirstMatch(rs[1..], code);
      if r.Some? then
        var j :| 0 <= j < |rs[1..]| && rs[1..][j] == r.value && r.value.code == code
                 && forall k :: 0 <= k < j ==> rs[1..][k].code != code;
        assert rs[j + 1] == r.value;
        r
      else r
  }

  /** Every record a level holds: the decoded files concatenated in order, bad files contributing nothing. */
  function AllRecords(dir: Dir): seq<Region>
  {
    if |dir| == 0 then []
    else
      match dir[0].1
      case Bad => AllRecords(dir[1..])
      case Decoded(rs) => rs + AllRecords(dir[1..])
  }

  /** The reverse scan: every file in order, skipping bad ones, first match wins. */
  function ScanDir(dir: Dir, code: string): (r: Option<Region>)
    ensures r.None? <==> forall x :: x in AllRecords(dir) ==> x.code != code
    ensures r.Some? ==> r.value.code == code && r.value in AllRecords(dir)
  {
    if |dir| == 0 then None
    else
      match dir[0].1
      case Bad => ScanDir(dir[1..], code)
      case Decoded(rs) =>
        var hit := FirstMatch(rs, code);
        if hit.Some? then hit else ScanDir(dir[1..], code)
  }

  // ---------------------------------------------------------------------
  // The eight lookups.

  function GetStates(s: Store): (r: Result<seq<Region>>)
    ensures r.Ok? <==> s.states.Decoded?
    ensures r.Ok? ==> r.value == s.states.regions
    ensures r.Err? ==> r.error == StorageError(StatesPath)
  {
    ReadJson(Some(s.states), StatesPath)
  }

  function GetState(s: Store, code: string): (r: Result<Region>)
    ensures GetStates(s).Err? ==> r == Err(GetStates(s).error)
    ensures r.Err? ==> GetStates(s).Err? || r.error == NotFound(State)
    ensures r == Err(NotFound(State)) <==>
              GetStates(s).Ok? && forall j :: 0 <= j < |GetStates(s).value| ==> GetStates(s).value[j].code != code
    ensures r.Ok? ==> exists j :: 0 <= j < |GetStates(s).value| && GetStates(s).value[j] == r.value
                                  && r.value.code == code
                                  && forall k :: 0 <= k < j ==> GetStates(s).value[k].code != code
  {
    match GetStates(s)
    case Err(e) => Err(e)
    case Ok(states) =>
      match FirstMatch(states, code)
      case Some(state) => Ok(state)
      case None => Err(NotFound(State))
  }

  /** The direct read shared by `GetCities`, `GetDistricts` and `GetVillages`. */
  function ListChildren(s: Store, lvl: Level, parent: string): (r: Result<seq<Region>>)
    requires lvl != State
    ensures r.Ok? <==> Open(DirOf(s, lvl), parent).Some? && Open(DirOf(s, lvl), parent).value.Decoded?
    ensures r.Ok? ==> exists i :: 0 <= i < |DirOf(s, lvl)| && DirOf(s, lvl)[i] == (parent, Decoded(r.value))
                                  && forall k :: 0 <= k < i ==> DirOf(s, lvl)[k].0 != parent
    ensures r.Err? ==> r.error == StorageError(FilePath(lvl, parent))
  {
    OpenFirstIsFirst(DirOf(s, lvl), parent);
    ReadJson(Open(DirOf(s, lvl), parent), FilePath(lvl, parent))
  }

  /** The reverse lookup shared by `GetCity`, `GetDistrict` and `GetVillage`. */
  function FindByCode(s: Store, lvl: Level, code: string): (r: Result<Region>)
    requires lvl != State
    ensures r.Err? ==> r.error == NotFound(lvl)
    ensures r.Err? <==> forall x :: x in AllRecords(DirOf(s, lvl)) ==> x.code != code
    ensures r.Ok? ==> r.value.code == code && r.value in AllRecords(DirOf(s, lvl))
  {
    match ScanDir(DirOf(s, lvl), code)
    case Some(region) => Ok(region)
    case None => Err(NotFound(lvl))
  }

  function GetCities(s: Store, stateCode: string): (r: Result<seq<Region>>)
    ensures r.Ok? ==> Open(s.cities, stateCode) == Some(Decoded(r.value))
    ensures r.Err? <==> Open(s.cities, stateCode).None? || Open(s.cities, stateCode) == Some(Bad)
    ensures r.Err? ==> r.error == StorageError(FilePath(City, stateCode))
  {
    ListChildren(s, City, stateCode)
  }

  function GetCity(s: Store, code: string): (r: Result<Region>)
    ensures r.Ok? ==> r.value.code == code && r.value in AllRecords(s.cities)
    ensures r.Err? ==> r == Err(NotFound(City))
    ensures r.Err? <==> forall x :: x in AllRecords(s.cities) ==> x.code != code
  {
    FindByCode(s, City, code)
  }

  function GetDistricts(s: Store, cityCode: string): (r: Result<seq<Region>>)
    ensures r.Ok? ==> Open(s.districts, cityCode) == Some(Decoded(r.value))
    ensures r.Err? <==> Open(s.districts, cityCode).None? || Open(s.districts, cityCode) == Some(Bad)
    ensures r.Err? ==> r.error == StorageError(FilePath(District, cityCode))
  {
    ListChildren(s, District, cityCode)
  }

  function GetDistrict(s: Store, code: string): (r: Result<Region>)
    ensures r.Ok? ==> r.value.code == code && r.value in AllRecords(s.districts)
    ensures r.Err? ==> r == Err(NotFound(District))
    ensures r.Err? <==> forall x :: x in AllRecords(s.districts) ==> x.code != code
  {
    FindByCode(s, District, code)
  }

  function GetVillages(s: Store, districtCode: string): (r: Result<seq<Region>>)
    ensures r.Ok? ==> Open(s.villages, districtCode) == Some(Decoded(r.value))
    ensures r.Err? <==> Open(s.villages, districtCode).None? || Open(s.villages, districtCode) == Some(Bad)
    ensures r.Err? ==> r.error == StorageError(FilePath(Village, districtCode))
  {
    ListChildren(s, Village, districtCode)
  }

  function GetVillage(s: Store, code: string): (r: Result<Region>)
    ensures r.Ok? ==> r.value.code == code && r.value in AllRecords(s.villages)
    ensures r.Err? ==> r == Err(NotFound(Village))
    ensures r.Err? <==> forall x :: x in AllRecords(s.villages) ==> x.code != code
  {
    FindByCode(s, Village, code)
  }

  /** The inner loop of a reverse lookup: the records of one file, in order, stopping at the first hit. */
  method ScanFile(regions: seq<Region>, code: string) returns (r: Option<Region>)
    ensures r == FirstMatch(regions, code)
  {
    var j := 0;
    while j < |regions|
      invariant 0 <= j <= |regions|
      invariant FirstMatch(regions, code) == FirstMatch(regions[j..], code)
    {
      assert regions[j..][1..] == regions[j + 1..];
      if regions[j].code == code {
        return Some(regions[j]);
      }
      j := j + 1;
    }
    return None;
  }

  /**
   The reverse lookup written as the service's nested loops: files in
   enumeration order, a file that fails to decode skipped, records in
   file order, return at the first hit.
   */
  method ScanLevel(s: Store, lvl: Level, code: string) returns (r: Result<Region>)
    requires lvl != State
    ensures r == FindByCode(s, lvl, code)
  {
    var files := DirOf(s, lvl);
    var i := 0;
    while i < |files|
      invariant 0 <= i <= |files|
      invariant ScanDir(files, code) == ScanDir(files[i..], code)
    {
      assert files[i..][1..] == files[i + 1..];
      match files[i].1 {
        case Bad =>
        case Decoded(regions) =>
          var hit := ScanFile(regions, code);
          if hit.Some? {
            assert ScanDir(files[i..], code) == hit;
            return Ok(hit.value);
          }
      }
      assert ScanDir(files[i..], code) == ScanDir(files[i + 1..], code);
      i := i + 1;
    }
    return Err(NotFound(lvl));
  }

  // ---------------------------------------------------------------------
  // Properties.

  /** `Open` returns the first file of that name. */
  lemma {:induction false} OpenFirstIsFirst(dir: Dir, name: string)
    ensures Open(dir, name).Some? ==>
              exists i :: 0 <= i < |dir| && dir[i] == (name, Open(dir, name).value)
                          && forall k :: 0 <= k < i ==> dir[k].0 != name
  {
    if |dir| > 0 && dir[0].0 != name {
      OpenFirstIsFirst(dir[1..], name);
      if Open(dir, name).Some? {
        var i :| 0 <= i < |dir[1..]| && dir[1..][i] == (name, Open(dir, name).value)
                 && forall k :: 0 <= k < i ==> dir[1..][k].0 != name;
        assert dir[i + 1] == (name, Open(dir, name).value);
      }
    }
  }

  /** First match over a concatenation: the left part is searched first. */
  lemma {:induction false} FirstMatchAppend(a: seq<Region>, b: seq<Region>, code: string)
    ensures FirstMatch(a + b, code) == if FirstMatch(a, code).Some? then FirstMatch(a, code) else FirstMatch(b, code)
  {
    if |a| > 0 {
      assert (a + b)[1..] == a[1..] + b;
      FirstMatchAppend(a[1..], b, code);
    } else {
      assert a + b == b;
    }
  }

  /**
   The reverse scan is a first-match search over the level's records laid
   end to end: file enumeration order first, then order within a file.
   */
  lemma {:induction false} ScanIsFirstMatchOfAll(dir: Dir, code: string)
    ensures ScanDir(dir, code) == FirstMatch(AllRecords(dir), code)
  {
    if |dir| > 0 {
      ScanIsFirstMatchOfAll(dir[1..], code);
      match dir[0].1
      case Bad =>
      case Decoded(rs) => FirstMatchAppend(rs, AllRecords(dir[1..]), code);
    }
  }

  lemma {:induction false} AllRecordsAppend(a: Dir, b: Dir)
    ensures AllRecords(a + b) == AllRecords(a) + AllRecords(b)
  {
    if |a| == 0 {
      assert a + b == b;
    } else {
      assert (a + b)[1..] == a[1..] + b;
      AllRecordsAppend(a[1..], b);
    }
  }

  /** Only the decoded files of a level, in enumeration order. */
  function Healthy(dir: Dir): Dir
  {
    if |dir| == 0 then []
    else if dir[0].1.Bad? then Healthy(dir[1..])
    else [dir[0]] + Healthy(dir[1..])
  }

  lemma {:induction false} HealthyKeepsRecords(dir: Dir)
    ensures AllRecords(Healthy(dir)) == AllRecords(dir)
  {
    if |dir| > 0 {
      HealthyKeepsRecords(dir[1..]);
      if dir[0].1.Decoded? {
        assert ([dir[0]] + Healthy(dir[1..]))[1..] == Healthy(dir[1..]);
      }
    }
  }

  /** Removing every bad file from a level changes no reverse lookup. */
  lemma BadFilesIgnored(dir: Dir, code: string)
    ensures ScanDir(Healthy(dir), code) == ScanDir(dir, code)
  {
    HealthyKeepsRecords(dir);
    ScanIsFirstMatchOfAll(dir, code);
    ScanIsFirstMatchOfAll(Healthy(dir), code);
  }

  /** Adding a bad file anywhere in a level changes no reverse lookup. */
  lemma BadFileInsertionIgnored(dir: Dir, i: nat, name: string, code: string)
    requires i <= |dir|
    ensures ScanDir(dir[..i] + [(name, Bad)] + dir[i..], code) == ScanDir(dir, code)
  {
    var bad: Dir := [(name, Bad)];
    var grown := dir[..i] + bad + dir[i..];
    assert AllRecords(bad) == [];
    AllRecordsAppend(dir[..i] + bad, dir[i..]);
    AllRecordsAppend(dir[..i], bad);
    AllRecordsAppend(dir[..i], dir[i..]);
    assert dir[..i] + dir[i..] == dir;
    assert AllRecords(grown) == AllRecords(dir);
    ScanIsFirstMatchOfAll(dir, code);
    ScanIsFirstMatchOfAll(grown, code);
  }

  /** A decoded file's records are records of its level. */
  lemma {:induction false} FileRecordsInLevel(dir: Dir, i: nat, r: Region)
    requires i < |dir| && dir[i].1.Decoded? && r in dir[i].1.regions
    ensures r in AllRecords(dir)
  {
    if i > 0 {
      FileRecordsInLevel(dir[1..], i - 1, r);
    }
  }

  /** Within a level, a code identifies one record. */
  ghost predicate CodesDetermineRecords(dir: Dir)
  {
    forall x, y :: x in AllRecords(dir) && y in AllRecords(dir) && x.code == y.code ==> x == y
  }

  /**
   Reverse-lookup consistency: a record listed under some parent is what the
   reverse lookup by its own code returns, when codes are unique in the level.
   */
  lemma ListedIsFound(s: Store, lvl: Level, parent: string, r: Region)
    requires lvl != State
    requires ListChildren(s, lvl, parent).Ok? && r in ListChildren(s, lvl, parent).value
    requires CodesDetermineRecords(DirOf(s, lvl))
    ensures FindByCode(s, lvl, r.code) == Ok(r)
  {
    var dir := DirOf(s, lvl);
    var i :| 0 <= i < |dir| && dir[i] == (parent, Decoded(ListChildren(s, lvl, parent).value))
             && forall k :: 0 <= k < i ==> dir[k].0 != parent;
    FileRecordsInLevel(dir, i, r);
  }

  /** The same for states: a listed state is what `GetState` returns for its code, when state codes are unique. */
  lemma StateListedIsFound(s: Store, r: Region)
    requires GetStates(s).Ok? && r in GetStates(s).value
    requires forall x, y :: x in GetStates(s).value && y in GetStates(s).value && x.code == y.code ==> x == y
    ensures GetState(s, r.code) == Ok(r)
  {
  }

  /** A match in one decoded file is found even when other files of the level are bad. */
  lemma FoundDespiteCorruptSiblings(dir: Dir, i: nat, r: Region)
    requires i < |dir| && dir[i].1.Decoded? && r in dir[i].1.regions
    ensures ScanDir(dir, r.code).Some?
  {
    FileRecordsInLevel(dir, i, r);
  }
}
