/** The backend's file handling: the extension check, the stored upload name,
    the lookup of an uploaded blueprint, the results path and the age-based
    cleanup. The two directories the backend owns are maps from entry name
    to entry. */
module FileHandler {
  import opened Common
  import opened Schemas

  /** An entry of the uploads directory; `isFile` is false for anything that
      is not a regular file (a sub-directory, say). `mtime` is in seconds. */
  datatype UploadEntry = UploadEntry(isFile: bool, mtime: real)

  /** What a results file holds: a JSON document of the stored shape, or text
      that does not parse as one. */
  datatype Content = Parsed(document: StoredResults) | Unparsable

  datatype ResultsFile = ResultsFile(mtime: real, content: Content)

  /** The uploads directory and the results directory. */
  class Disk {
    var uploads: map<string, UploadEntry>
    var results: map<string, ResultsFile>

    constructor (uploads: map<string, UploadEntry>, results: map<string, ResultsFile>)
      ensures this.uploads == uploads && this.results == results
    {
      this.uploads := uploads;
      this.results := results;
    }
  }

  /** `validate_file_extension`: the lower-cased suffix must be allowed. The
      suffix runs from the last dot of the final path component, when that
      dot is neither its first nor its last character; without one, the
      name passes only when the empty extension is allowed. */
  function ValidateFileExtension(filename: string, allowed: seq<string>): (ok: bool)
    ensures var name := FinalComponent(filename);
      (exists i :: DotStartsSuffix(name, i)) ==>
        (ok <==> exists i :: DotStartsSuffix(name, i) && Lower(name[i..]) in allowed)
    ensures var name := FinalComponent(filename);
      (forall i :: !DotStartsSuffix(name, i)) ==> (ok <==> "" in allowed)
  {
    SuffixRule(filename, allowed);
    Lower(Suffix(filename)) in allowed
  }

  lemma SuffixRule(filename: string, allowed: seq<string>)
    ensures var name := FinalComponent(filename);
      (exists i :: DotStartsSuffix(name, i)) ==>
        (Lower(Suffix(filename)) in allowed <==> exists i :: DotStartsSuffix(name, i) && Lower(name[i..]) in allowed)
    ensures var name := FinalComponent(filename);
      (forall i :: !DotStartsSuffix(name, i)) ==> (Lower(Suffix(filename)) in allowed <==> "" in allowed)
  {
    var name := FinalComponent(filename);
    NameSuffixFromDot(name);
    if exists i :: DotStartsSuffix(name, i) {
      var i :| DotStartsSuffix(name, i);
      OneSuffixDot(name, i);
    } else {
      assert Lower("") == "";
    }
  }

  /** At most one dot starts a suffix. */
  lemma OneSuffixDot(name: string, i: int)
    requires DotStartsSuffix(name, i)
    ensures forall j :: DotStartsSuffix(name, j) ==> j == i
  {
    forall j | DotStartsSuffix(name, j)
      ensures j == i
    {
      DotStartsSuffixIsLast(name, i);
      DotStartsSuffixIsLast(name, j);
    }
  }

  /** The check ignores the case of the file name. */
  lemma ExtensionCheckIgnoresCase(filename: string, allowed: seq<string>)
    requires "" !in allowed
    ensures ValidateFileExtension(Lower(filename), allowed) == ValidateFileExtension(filename, allowed)
  {
    SuffixLower(filename);
    LowerIdempotent(Suffix(filename));
  }

  /** An upper-case extension is accepted. */
  lemma UpperCaseExtensionAccepted()
    ensures ValidateFileExtension("A.PNG", [".jpg", ".jpeg", ".png"])
  {
    UpperPngSuffix();
    LowerPng();
  }

  lemma UpperPngSuffix()
    ensures Suffix("A.PNG") == ".PNG"
  {
    SuffixAfterLastDot("A.PNG", 1);
    assert "A.PNG"[1..] == ".PNG";
  }

  lemma LowerPng()
    ensures Lower(".PNG") == ".png"
  {
  }

  /** A name that is only an extension (`.png`) is refused: its dot starts
      no suffix. */
  lemma DotNameRefused(name: string, allowed: seq<string>)
    requires '/' !in name && |name| > 0 && name[0] == '.' && '.' !in name[1..]
    requires "" !in allowed
    ensures !ValidateFileExtension(name, allowed)
  {
    LeadingDotIsNoSuffix(name);
    NoSuffixRefused(name, allowed);
  }

  /** A name without any dot (`png`) is refused. */
  lemma DotlessNameRefused(name: string, allowed: seq<string>)
    requires '/' !in name && '.' !in name
    requires "" !in allowed
    ensures !ValidateFileExtension(name, allowed)
  {
    NoDotIsNoSuffix(name);
    NoSuffixRefused(name, allowed);
  }

  /** A name without a suffix is refused by any list of real extensions. */
  lemma NoSuffixRefused(filename: string, allowed: seq<string>)
    requires Suffix(filename) == "" && "" !in allowed
    ensures !ValidateFileExtension(filename, allowed)
  {
    assert Lower("") == "";
  }

  /** Past position `i`, `s` holds no `c`, when its tail after `i` has none. */
  lemma NoneAfter(s: string, i: int, c: char)
    requires 0 <= i < |s| && c !in s[i + 1..]
    ensures forall j :: i < j < |s| ==> s[j] != c
  {
    forall j | i < j < |s|
      ensures s[j] != c
    {
      assert s[j] == s[i + 1..][j - i - 1];
    }
  }

  /** A plain name with one dot inside has the suffix from that dot. */
  lemma SuffixAfterLastDot(name: string, i: int)
    requires '/' !in name && 0 < i < |name| - 1 && name[i] == '.' && '.' !in name[i + 1..]
    ensures Suffix(name) == name[i..]
  {
    NoSlashIsWholeName(name);
    NoneAfter(name, i, '.');
    assert LastIndexOf(name, '.') == i;
  }

  /** A plain name whose only dot is its first character has no suffix. */
  lemma LeadingDotIsNoSuffix(name: string)
    requires '/' !in name && |name| > 0 && name[0] == '.' && '.' !in name[1..]
    ensures Suffix(name) == ""
  {
    NoSlashIsWholeName(name);
    NoneAfter(name, 0, '.');
    assert LastIndexOf(name, '.') == 0;
  }

  /** A plain name without a dot has no suffix. */
  lemma NoDotIsNoSuffix(name: string)
    requires '/' !in name && '.' !in name
    ensures Suffix(name) == ""
  {
    NoSlashIsWholeName(name);
    assert LastIndexOf(name, '.') == -1;
  }

  lemma NoSlashIsWholeName(name: string)
    requires '/' !in name
    ensures FinalComponent(name) == name
  {
    assert LastIndexOf(name, '/') == -1;
  }

  /** The name `save_upload_file` stores an upload under: the blueprint id
      followed by the lower-cased suffix of the original file name. */
  function StoredName(blueprintId: string, filename: string): (name: string)
    ensures StartsWith(name, blueprintId)
    ensures name[|blueprintId|..] == Lower(Suffix(filename))
  {
    blueprintId + Lower(Suffix(filename))
  }

  /** The error opening a directory for writing raises. */
  function IsADirectory(name: string): Exception
  {
    OSError("[Errno 21] Is a directory: '" + name + "'")
  }

  /** An I/O failure while saving a file: opening it for writing fails, or
      writing into the opened (and so created or emptied) file does. */
  datatype WriteFault = OpenFailed(error: Exception) | WriteFailed(error: Exception)

  /** Whether `open("wb")` succeeds on the stored name: no open fault, and
      the name is not a sub-directory. Opening creates or truncates the
      file. */
  predicate Opens(uploads: map<string, UploadEntry>, name: string, fault: Option<WriteFault>)
  {
    !(fault.Some? && fault.value.OpenFailed?) && !(name in uploads && !uploads[name].isFile)
  }

  /** `save_upload_file`. `fault` stands for an I/O failure while opening or
      while copying; opening a sub-directory's name for writing fails too.
      Once the file is open it exists, as a regular file written at `now`,
      even when the copy then fails. */
  method SaveUploadFile(disk: Disk, filename: string, blueprintId: string, now: real, fault: Option<WriteFault>)
    returns (r: Result<string, Exception>)
    modifies disk
    ensures disk.results == old(disk.results)
    ensures var name := StoredName(blueprintId, filename);
      disk.uploads == if Opens(old(disk.uploads), name, fault)
                      then old(disk.uploads)[name := UploadEntry(true, now)]
                      else old(disk.uploads)
    ensures var name := StoredName(blueprintId, filename);
      r == (if fault.Some? && fault.value.OpenFailed? then Err(fault.value.error)
            else if name in old(disk.uploads) && !old(disk.uploads)[name].isFile then Err(IsADirectory(name))
            else if fault.Some? then Err(fault.value.error)
            else Ok(name))
  {
    var name := StoredName(blueprintId, filename);
    if fault.Some? && fault.value.OpenFailed? {
      return Err(fault.value.error);
    }
    if name in disk.uploads && !disk.uploads[name].isFile {
      return Err(IsADirectory(name));
    }
    disk.uploads := disk.uploads[name := UploadEntry(true, now)];
    if fault.Some? {
      return Err(fault.value.error);
    }
    r := Ok(name);
  }

  /** The first name `blueprintId + ext`, in the iteration order `exts`, that
      exists in the uploads directory. */
  function FirstExisting(uploads: map<string, UploadEntry>, blueprintId: string, exts: seq<string>): (r: Option<string>)
    ensures r.None? <==> forall i :: 0 <= i < |exts| ==> blueprintId + exts[i] !in uploads
    ensures r.Some? ==> r.value in uploads
    ensures r.Some? ==> exists i :: 0 <= i < |exts| && r.value == blueprintId + exts[i] &&
                          forall j :: 0 <= j < i ==> blueprintId + exts[j] !in uploads
  {
    if exts == [] then None
    else if blueprintId + exts[0] in uploads then Some(blueprintId + exts[0])
    else
      var rest := FirstExisting(uploads, blueprintId, exts[1..]);
      if rest.Some? then
        ghost var i :| 0 <= i < |exts| - 1 && rest.value == blueprintId + exts[1..][i] &&
          forall j :: 0 <= j < i ==> blueprintId + exts[1..][j] !in uploads;
        assert rest.value == blueprintId + exts[i + 1];
        rest
      else rest
  }

  /** `get_blueprint_path`: try every allowed extension and return the first
      existing path, or nothing. */
  method GetBlueprintPath(disk: Disk, blueprintId: string, exts: seq<string>) returns (r: Option<string>)
    ensures r == FirstExisting(disk.uploads, blueprintId, exts)
  {
    var k := 0;
    while k < |exts|
      invariant 0 <= k <= |exts|
      invariant FirstExisting(disk.uploads, blueprintId, exts) == FirstExisting(disk.uploads, blueprintId, exts[k..])
    {
      var path := blueprintId + exts[k];
      assert exts[k..][0] == exts[k] && exts[k..][1..] == exts[k + 1..];
      if path in disk.uploads {
        return Some(path);
      }
      k := k + 1;
    }
    return None;
  }

  /** Saving an upload with an allowed extension makes the blueprint findable
      under exactly that name, provided no other file for the same id comes
      earlier in the iteration order. */
  lemma SavedUploadIsFound(uploads: map<string, UploadEntry>, blueprintId: string, filename: string,
                           exts: seq<string>, now: real)
    requires ValidateFileExtension(filename, exts)
    requires forall e :: e in exts && e != Lower(Suffix(filename)) ==> blueprintId + e !in uploads
    ensures FirstExisting(uploads[StoredName(blueprintId, filename) := UploadEntry(true, now)], blueprintId, exts)
         == Some(StoredName(blueprintId, filename))
  {
    var name := StoredName(blueprintId, filename);
    var after := uploads[name := UploadEntry(true, now)];
    var r := FirstExisting(after, blueprintId, exts);
    var ext := Lower(Suffix(filename));
    var k :| 0 <= k < |exts| && exts[k] == ext;
    assert blueprintId + exts[k] in after;
    var i :| 0 <= i < |exts| && r.value == blueprintId + exts[i] &&
      forall j :: 0 <= j < i ==> blueprintId + exts[j] !in after;
    assert (blueprintId + exts[i])[|blueprintId|..] == exts[i];
    assert exts[i] == ext;
  }

  /** `get_results_path`: the results file of a blueprint. */
  function GetResultsPath(blueprintId: string): (name: string)
    ensures EndsWith(name, ".json")
    ensures name[..|name| - 5] == blueprintId
  {
    blueprintId + ".json"
  }

  /** Distinct blueprints never share a results file. */
  lemma ResultsPathInjective(a: string, b: string)
    requires GetResultsPath(a) == GetResultsPath(b)
    ensures a == b
  {
    var pa, pb := GetResultsPath(a), GetResultsPath(b);
    assert a == pa[..|pa| - 5] == pb[..|pb| - 5] == b;
  }

  // ---------------------------------------------------------------------
  // cleanup_old_files
  // ---------------------------------------------------------------------

  /** The default of `cleanup_old_files`' `max_age_hours`. */
  const DefaultMaxAgeHours: int := 24

  /** `datetime.now() - timedelta(hours=max_age_hours)`, in seconds. */
  function Cutoff(now: real, maxAgeHours: int): real
  {
    now - (maxAgeHours * 3600) as real
  }

  /** The upload entries the cleanup deletes: regular files older than the cutoff. */
  predicate UploadExpired(e: UploadEntry, cutoff: real)
  {
    e.isFile && e.mtime < cutoff
  }

  /** The results entries the cleanup deletes: `*.json` files older than the cutoff. */
  predicate ResultsExpired(name: string, f: ResultsFile, cutoff: real)
  {
    EndsWith(name, ".json") && f.mtime < cutoff
  }

  function KeptUploads(uploads: map<string, UploadEntry>, cutoff: real): (kept: map<string, UploadEntry>)
    ensures forall n :: n in kept ==> n in uploads && kept[n] == uploads[n]
    ensures forall n :: n in uploads ==> (n in kept <==> !UploadExpired(uploads[n], cutoff))
  {
    map n | n in uploads && !UploadExpired(uploads[n], cutoff) :: uploads[n]
  }

  function KeptResults(results: map<string, ResultsFile>, cutoff: real): (kept: map<string, ResultsFile>)
    ensures forall n :: n in kept ==> n in results && kept[n] == results[n]
    ensures forall n :: n in results ==> (n in kept <==> !ResultsExpired(n, results[n], cutoff))
  {
    map n | n in results && !ResultsExpired(n, results[n], cutoff) :: results[n]
  }

  /** What the cleanup promises: every regular upload file and every `.json`
      results file left has an mtime at or after the cutoff, and nothing at
      or after the cutoff, no sub-directory and no non-`.json` results file is
      removed. */
  lemma CleanupGuarantees(uploads: map<string, UploadEntry>, results: map<string, ResultsFile>, cutoff: real)
    ensures forall n :: n in KeptUploads(uploads, cutoff) && uploads[n].isFile ==> uploads[n].mtime >= cutoff
    ensures forall n :: n in KeptResults(results, cutoff) && EndsWith(n, ".json") ==> results[n].mtime >= cutoff
    ensures forall n :: n in uploads && (uploads[n].mtime >= cutoff || !uploads[n].isFile) ==>
      n in KeptUploads(uploads, cutoff)
    ensures forall n :: n in results && (results[n].mtime >= cutoff || !EndsWith(n, ".json")) ==>
      n in KeptResults(results, cutoff)
  {
  }

  /** `cleanup_old_files`: delete the expired entries of both directories. */
  method CleanupOldFiles(disk: Disk, now: real, maxAgeHours: int)
    modifies disk
    ensures disk.uploads == KeptUploads(old(disk.uploads), Cutoff(now, maxAgeHours))
    ensures disk.results == KeptResults(old(disk.results), Cutoff(now, maxAgeHours))
  {
    var cutoff := Cutoff(now, maxAgeHours);
    ghost var uploads0 := disk.uploads;

    var names := disk.uploads.Keys;
    while names != {}
      invariant names <= uploads0.Keys
      invariant disk.results == old(disk.results)
      invariant forall n :: n in disk.uploads ==> n in uploads0 && disk.uploads[n] == uploads0[n]
      invariant forall n :: n in uploads0 ==>
        (n in disk.uploads <==> n in names || !UploadExpired(uploads0[n], cutoff))
      decreases names
    {
      var n :| n in names;
      var e := disk.uploads[n];
      if e.isFile && e.mtime < cutoff {
        disk.uploads := disk.uploads - {n};
      }
      names := names - {n};
    }

    ghost var results0 := disk.results;
    names := disk.results.Keys;
    while names != {}
      invariant names <= results0.Keys
      invariant disk.uploads == KeptUploads(uploads0, cutoff)
      invariant forall n :: n in disk.results ==> n in results0 && disk.results[n] == results0[n]
      invariant forall n :: n in results0 ==>
        (n in disk.results <==> n in names || !ResultsExpired(n, results0[n], cutoff))
      decreases names
    {
      var n :| n in names;
      var f := disk.results[n];
      if EndsWith(n, ".json") && f.mtime < cutoff {
        disk.results := disk.results - {n};
      }
      names := names - {n};
    }
  }
}
