/** `FileUtils`: the directory helpers the run starts from. The file system is replaced by its
    observable pieces: the set of directories that exist, and what reading a directory gives
    (its entry names in listing order, or the error it throws). `path.join` is a parameter. */
module FileUtils {
  import opened Common

  /** `ensureDirectoryExists`: the directory is created only when it is missing. The result is
      the new set of directories and whether `mkdirSync` ran. */
  function EnsureDirectoryExists(dirs: set<string>, dirPath: string): (r: (set<string>, bool))
    ensures r.1 <==> dirPath !in dirs
    ensures r.0 == dirs + {dirPath}
    ensures dirPath in dirs ==> r.0 == dirs
  {
    if dirPath !in dirs then (dirs + {dirPath}, true) else (dirs, false)
  }

  /** A listing entry is kept when its lower-cased name ends with ".csv". */
  predicate IsCsvName(name: string) {
    EndsWith(ToLower(name), ".csv")
  }

  /** `getCSVFiles`: the CSV entries of the listing, each joined onto the directory; any error
      thrown while reading (including by `ensureDirectoryExists`) gives the empty list. */
  function GetCSVFiles(directory: string, listing: Result<seq<string>, string>,
                       join: (string, string) -> string): (r: seq<string>)
    ensures listing.Err? ==> r == []
    ensures listing.Ok? ==> |r| <= |listing.value|
  {
    match listing
    case Err(_) => []
    case Ok(names) => Map(Filter(names, IsCsvName), (name: string) => join(directory, name))
  }

  /** The names behind `getCSVFiles`'s result: exactly the CSV entries, in listing order. */
  function CsvNames(listing: Result<seq<string>, string>): seq<string> {
    if listing.Ok? then Filter(listing.value, IsCsvName) else []
  }

  /** Result `i` is the directory joined with the `i`-th CSV entry; an entry's name is among the
      CSV names exactly when the listing has it and it ends with ".csv" in any case. Listing
      order is kept: the CSV names of two listings one after the other are those of the first,
      then those of the second. */
  lemma GetCSVFilesSpec(directory: string, names: seq<string>, more: seq<string>,
                        join: (string, string) -> string, name: string)
    ensures |GetCSVFiles(directory, Ok(names), join)| == |CsvNames(Ok(names))|
    ensures forall i :: 0 <= i < |CsvNames(Ok(names))| ==>
      GetCSVFiles(directory, Ok(names), join)[i] == join(directory, CsvNames(Ok(names))[i])
    ensures name in CsvNames(Ok(names)) <==> name in names && EndsWith(ToLower(name), ".csv")
    ensures CsvNames(Ok(names + more)) == CsvNames(Ok(names)) + CsvNames(Ok(more))
  {
    FilterMember(names, IsCsvName, name);
    FilterAppend(names, more, IsCsvName);
  }

  /** Lower-casing commutes with taking a suffix. */
  lemma ToLowerSuffix(s: string, k: nat)
    requires k <= |s|
    ensures ToLower(s)[k..] == ToLower(s[k..])
  {
  }

  /** A name whose last four characters lower-case to ".csv" is kept. */
  lemma CsvSuffix(name: string)
    requires |name| >= 4
    ensures IsCsvName(name) <==> ToLower(name[|name| - 4..]) == ".csv"
  {
    ToLowerSuffix(name, |name| - 4);
  }

  /** Whatever the base name, an upper-case ".CSV" extension counts. */
  lemma UpperCaseCsvKept(base: string)
    ensures IsCsvName(base + ".CSV")
  {
    var name := base + ".CSV";
    CsvSuffix(name);
    assert name[|name| - 4..] == ".CSV";
    var t := ToLower(".CSV");
    assert t[0] == '.' && t[1] == 'c' && t[2] == 's' && t[3] == 'v';
  }

  /** A name with ".csv" before another extension does not count. */
  lemma BackupDropped(base: string)
    ensures !IsCsvName(base + ".csv.bak")
  {
    var name := base + ".csv.bak";
    CsvSuffix(name);
    assert name[|name| - 4..] == ".bak";
    assert ToLower(".bak")[1] == 'b';
  }
}
