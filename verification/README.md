# geo-id region resolver and dataset partitioner, in Dafny

geo-id serves Indonesia's administrative regions over HTTP. The regions form a
four-level tree: state (province), city (regency), district and village. The
data sits in static JSON files: `states.json`, plus one file per parent code in
each of `cities/`, `districts/` and `villages/`. This project models the two
pieces of logic that hold the tree together.

- **The region resolver** (`internal/service/location.go`) answers eight
  lookups.
  - The four list operations read one file each: `states.json`, or
    `<level>/<parentCode>.json`.
  - `GetState` scans the states list for the first record with the code.
  - `GetCity`, `GetDistrict` and `GetVillage` know only the code, not the
    parent. They read every file of their level in enumeration order, skip the
    ones that cannot be read or decoded, and return the first record with the
    code.
- **The partitioning loop** of the extraction script
  (`scripts/extract_data.py`) builds that dataset. It takes the `('code','name')`
  tuples matched in the SQL dump and strips both fields. It drops a code that is
  not all digits once the dots are removed. It classifies the rest by dot count
  and appends each record to the group keyed by its parent code, keeping input
  order.

The file system is abstract. A file is `Decoded(regions)` or `Bad`. A level
directory is a sequence of `(parentCode, File)` pairs in enumeration order. The
script's input is the sequence of matched tuples. Everything is pure functions
over immutable datatypes. The Go loops and the Python loop are also written as
methods, and their loop invariants prove them equal to the functions.

Modules:
- `Wrappers` holds `Option`.
- `Regions` holds `Region` and `Level`.
- `Text` holds the Python string operations: `strip`, `replace`, `isdigit`,
  `count` and `split`.
- `Location` is the resolver.
- `Extract` is the partitioner.
- `Publish` joins the two halves. A store holding what the script writes lists
  every accepted record under its parent. When codes are unique within a level,
  looking a record up by its own code returns that same record.

Two behaviours of the code are worth stating plainly:
- **Missing per-parent file.** The service returns the raw read error
  (internal/service/location.go:54-55), so the model returns
  `StorageError(path)` and not a not-found error. The HTTP handler, which is
  not part of this model, answers 404 for it all the same
  (internal/handler/location.go:65-69).
- **Reverse-lookup errors.** The code has a glob-error branch
  (internal/service/location.go:72-74). The model leaves that branch out (see
  below), so a reverse lookup here fails only with `NotFound(level)`.

## Model

| member | source | states |
|---|---|---|
| Location.ReadJson | internal/service/location.go:20-27 | reading a file succeeds exactly when it exists and decodes, and yields the decoded records; any other outcome is a storage error naming the path |
| Location.Open | internal/service/location.go:21-24 | opening a name fails exactly when no file of that name exists; otherwise it yields a file of that name from the directory |
| Location.GetStates | internal/service/location.go:29-36 | succeeds exactly when `states.json` decodes, and returns its records unchanged and in order; otherwise a storage error for `states.json` |
| Location.FirstMatch | internal/service/location.go:43-47 | finds nothing exactly when no record has the code; otherwise returns the record at the first index whose code matches |
| Location.GetState | internal/service/location.go:38-49 | a states read error is passed on unchanged; "state not found" exactly when the states decoded and none has the code; there is no other error, so a listed code is always found, and the hit is the first state with that code |
| Location.StateListedIsFound | internal/service/location.go:38-49 | if state codes are unique, `GetState` returns every listed state when given its code |
| Location.ListChildren | internal/service/location.go:51-58 | a list succeeds exactly when the first file named after the parent exists and decodes, and returns that file's records unfiltered; otherwise a storage error naming `<level>/<parent>.json` |
| Location.GetCities | internal/service/location.go:51-58 | returns exactly the decoded contents of `cities/<stateCode>.json`; a missing or bad file is an error, and an empty file is an empty list |
| Location.GetDistricts | internal/service/location.go:89-96 | the same, for `districts/<cityCode>.json` |
| Location.GetVillages | internal/service/location.go:117-124 | the same, for `villages/<districtCode>.json` |
| Location.ScanDir | internal/service/location.go:76-85 | the scan finds nothing exactly when no decoded file holds the code; a hit has the queried code and is a record of the level |
| Location.FindByCode | internal/service/location.go:60-87 | a reverse lookup never reports a storage error, only "<level> not found"; it fails exactly when no decoded file holds the code; a hit carries the queried code |
| Location.GetCity | internal/service/location.go:60-87 | a hit is a city record with the queried code; the only failure is "city not found", exactly when no decoded city file holds the code |
| Location.GetDistrict | internal/service/location.go:98-115 | the same, for districts |
| Location.GetVillage | internal/service/location.go:126-143 | the same, for villages |
| Location.ScanFile | internal/service/location.go:79-83 | the loop over one file's records returns the same first match as the reference search |
| Location.ScanLevel | internal/service/location.go:76-86 | the nested loops over files and records compute the same result as the reverse lookup |
| Location.ScanIsFirstMatchOfAll | internal/service/location.go:76-85 | the reverse scan is a first-match search over the level's decoded records laid end to end: file order first, then order within a file |
| Location.BadFilesIgnored | internal/service/location.go:78 | removing every unreadable or undecodable file from a level changes no reverse lookup |
| Location.BadFileInsertionIgnored | internal/service/location.go:104-112 | inserting a bad file at any position of a level changes no reverse lookup |
| Location.FoundDespiteCorruptSiblings | internal/service/location.go:132-140 | a record in a decoded file is always found by its code, whatever the other files hold |
| Location.ListedIsFound | internal/service/location.go:71-86 | a record listed under any parent is what the reverse lookup returns for its code, when codes identify records within the level |
| Text.IsSpace | scripts/extract_data.py:36-37 | the characters `str.strip()` removes: Python's `str.isspace` set, ASCII whitespace, the separators `\x1c`-`\x1f`, and the Unicode spaces and line/paragraph separators |
| Text.IsDigits | scripts/extract_data.py:40 | `str.isdigit()` on a string: false on the empty string, otherwise true exactly when every character is a digit (ASCII only, see below) |
| Text.TrimStart | scripts/extract_data.py:36-37 | the result is a suffix of the field, what it drops is all whitespace, and it starts with a non-whitespace character |
| Text.TrimEnd | scripts/extract_data.py:36-37 | the result is a prefix of the field, what it drops is all whitespace, and it ends with a non-whitespace character |
| Text.Strip | scripts/extract_data.py:36-37 | the stripped field begins and ends with a non-whitespace character and holds only characters of the original |
| Text.StripDropsOnlySpace | scripts/extract_data.py:36-37 | strip keeps one contiguous piece of the field and drops only whitespace before and after it |
| Text.StripIdempotent | scripts/extract_data.py:36-37 | stripping an already stripped field changes nothing |
| Text.RemoveDots | scripts/extract_data.py:40 | the result holds exactly the characters of the input that are not dots, and its length is the input length minus the dot count |
| Text.RemoveDotsAppend | scripts/extract_data.py:40 | removing dots from a concatenation concatenates the results; with the length and membership clauses this fixes the output to the non-dot characters in input order, each as often as in the input |
| Text.ValidCodeChars | scripts/extract_data.py:40-41 | a code passes the digit test exactly when it holds only digits and dots and at least one digit |
| Text.CountDots | scripts/extract_data.py:44 | the dot count is zero exactly when the code has no dot |
| Text.Split | scripts/extract_data.py:59 | splitting at dots yields one more piece than there are dots, no piece holds a dot, and joining the pieces with dots gives back the code |
| Text.DropLastSegment | scripts/extract_data.py:52 | the parent key is a proper prefix of the code, followed in the code by a dot, with no dot after that |
| Text.DropLastSegmentDots | scripts/extract_data.py:60 | the parent key has exactly one dot fewer than the code |
| Text.SplitPrefixIsParent | scripts/extract_data.py:67-68 | joining all split pieces but the last gives the code minus its last segment |
| Extract.Record | scripts/extract_data.py:36-37 | the record built from a matched tuple has the stripped code and the stripped name; `CapturedRecordHasNoQuote` and the `Strip` lemmas state what that guarantees |
| Extract.Step | scripts/extract_data.py:35-71 | one loop iteration, branch for branch: the digit test, the dot count, `split('.')` and the rejoined key; `StepIsPut`, `StepGroup` and `StepKeys` state what it does |
| Extract.Partition | scripts/extract_data.py:35-71 | the loop over all matches as a left fold of `Step` from the empty accumulators; `PartitionGroups` and `PartitionKeys` state what it computes |
| Extract.AppendTo | scripts/extract_data.py:53-55 | appending creates the group if it is missing and adds the record at its end; no other group changes |
| Extract.ScriptKeyIsParent | scripts/extract_data.py:50-68 | the parent key each branch builds from `split('.')` is the code minus its final dot-segment |
| Extract.PlaceFacts | scripts/extract_data.py:39-71 | a record is kept exactly when its code passes the digit test and has at most three dots; its level is its dot count; its group key has one dot fewer and is the code minus its final segment |
| Extract.StepIsPut | scripts/extract_data.py:35-71 | one loop iteration adds the record to the slot its code places it in, or does nothing when the code is rejected |
| Extract.StepGroup | scripts/extract_data.py:44-71 | one iteration appends the record to the end of its own slot and leaves every other slot unchanged |
| Extract.StepKeys | scripts/extract_data.py:53-54 | one iteration creates exactly the group of the record's slot, if it did not exist yet |
| Extract.ExtractAll | scripts/extract_data.py:35-71 | the script's loop over all matches computes the partition |
| Extract.PartitionGroups | scripts/extract_data.py:35-71 | every slot of the result holds exactly the records of the matches placed in it, in input order |
| Extract.PartitionKeys | scripts/extract_data.py:61-62 | a group exists exactly for the parent keys that some accepted match names |
| Extract.SelectedContains | scripts/extract_data.py:48-71 | every accepted match's record appears in the group of its slot |
| Extract.SelectedMembers | scripts/extract_data.py:48-71 | every member of a group is the record of some input match, and its code places it in that group |
| Extract.InOneSlotOnly | scripts/extract_data.py:44-71 | no record of the result sits in two different slots |
| Extract.StatesInOrder | scripts/extract_data.py:46-48 | the states list is the accepted dot-free codes, in input order |
| Extract.ParentIsCodeAbove | scripts/extract_data.py:52-68 | when a code does not start with a dot, its group key is itself accepted, at the level directly above |
| Extract.ParentNotAlwaysCode | scripts/extract_data.py:50-55 | the code `.5` is accepted as a city grouped under the empty key, which is not an accepted code |
| Extract.CapturedRecordHasNoQuote | scripts/extract_data.py:32-37 | fields the pattern captures contain no single quote, and neither does any record built from them |
| Publish.StatesServed | scripts/extract_data.py:74-76 | once the script's output is stored, `GetStates` returns the accepted states in input order |
| Publish.GroupServed | scripts/extract_data.py:78-94 | once stored, listing a parent returns exactly that parent's group, in input order; a parent with no group is a storage error |
| Publish.LevelRecordFromInput | scripts/extract_data.py:78-94 | every record in a level directory the script wrote is an accepted match's record at that level |
| Publish.UniqueInputUniqueLevel | scripts/extract_data.py:78-94 | if codes are unique among a level's matches, each code identifies one record in the written directory |
| Publish.ExtractedIsResolved | internal/service/location.go:51-86 | every accepted city, district or village record is listed under its parent; if codes at its level are unique, the reverse lookup by its code returns that record |
| Publish.ExtractedStateIsResolved | internal/service/location.go:38-49 | every accepted state record is what `GetState` returns for its code, when state codes are unique |

## Left out

- The HTTP layer is not modelled: Fiber handlers, routing, Swagger and
  environment configuration. The handler maps every service error to 404,
  except a `GetStates` error, which it maps to 500. The model only tells
  `StorageError` from `NotFound` in its results.
- The response and error structs (`internal/model/response.go`,
  `internal/model/error.go`) are plain constructors with no behaviour.
- Real I/O is abstracted away. `os.Open` plus `encoding/json` decoding becomes a
  `File` value. A missing `states.json` is modelled as `Bad`, because both
  produce a read error. The decoder's own behaviour is not modelled: ignoring
  unknown fields, defaulting missing fields to `""`, and reading `null` as an
  empty list.
- Error texts are not modelled. A failed read is `StorageError(path)`; the
  service passes on the operating system's or the decoder's own message
  (internal/service/location.go:22-26). A not-found result is
  `NotFound(level)`; the service's texts "state not found", "city not found",
  "district not found" and "village not found"
  (internal/service/location.go:48, 86, 114, 142) are not modelled.
- `filepath.Glob` is modelled as a given enumeration order. Go returns the names
  in lexical order. The model allows any order, so its results cover every
  order. The model assumes the data directory's path (`DATA_DIR`, or `data`
  under the working directory, main.go:50-54) contains no glob
  metacharacters. Under that assumption the pattern is well formed, the glob
  error branch cannot fire and is omitted, and the glob lists exactly the files
  the direct reads open. A path with an unmatched `[` would make a reverse
  lookup return the glob error instead of not-found, and one with `*`, `?` or
  `[...]` could list files from other directories.
- Path semantics are not modelled. Parent codes are spliced into paths
  unsanitised. The store is keyed by the raw code, so a code containing `/` or
  `..`, which would reach another file on a real disk, is not modelled.
- The script's download, its file writes and its progress output are replaced by
  the `Written` relation between a store and a dataset. That relation assumes
  the output directories held no other files.
- The regex engine is not modelled. The input is the sequence of matched tuples.
  `Captured` states what the pattern guarantees about each field.
- Python dictionary insertion order is not modelled, because the groups are
  Dafny maps. The order of the group files is the directory enumeration order,
  which is given separately.
- Text.IsDigits: accepts only the ASCII digits `0`-`9`. Python's `str.isdigit`
  also accepts other Unicode digits, such as superscripts. The dataset holds
  only ASCII codes, and modelling Unicode digit properties would need tables
  outside this model.
- Idempotence of the lookups is not stated as a lemma. Every lookup is a pure
  function of the store, so repeated calls on an unchanged store are equal by
  construction.
