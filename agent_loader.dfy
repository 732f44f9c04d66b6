/**
 * `load_all_sheets`: refuses an empty path and a missing file, dispatches on
 * the lower-cased extension, and records every sheet with a five-row preview;
 * what the pandas readers raise is passed through.
 */
module AgentLoader {
  import opened Common
  import opened Text
  import opened Tables
  import opened Paths
  import Search

  /** What `load_all_sheets` returns: the sheets by name, the path and the sheet names in order. */
  datatype Workbook = Workbook(sheets: map<string, SheetInfo>, path: string, sheetNames: seq<string>)

  /** `os.path.splitext(path)[1].lower()`. */
  function Extension(path: string): (r: string)
    ensures r == [] || r[0] == '.'
  {
    Lower(SplitExt(path).1)
  }

  const EmptyPathMessage: string := "A valid path to the Excel file is required."
  const UnsupportedMessage: string := "Unsupported file type. Only .xlsx, .xls, and .csv are supported."

  /**
   * What every loaded workbook satisfies: the names listed are exactly the
   * sheets held, and each preview is the first rows of its sheet, five at most.
   */
  predicate Loaded(w: Workbook) {
    && (forall n :: n in w.sheets ==> n in w.sheetNames)
    && (forall i :: 0 <= i < |w.sheetNames| ==> w.sheetNames[i] in w.sheets)
    && (forall n :: n in w.sheets ==>
          var info := w.sheets[n];
          |info.preview| <= 5 && |info.preview| <= |info.df.rows| && info.preview == info.df.rows[..|info.preview|])
  }

  /** A sheet `pd.read_excel(path, sheet_name=name)` can read. */
  predicate Readable(path: string, disk: Disk, name: string) {
    disk.readSheet(path, name).Ok?
  }

  /** The sheets of an Excel file as the loop records them: each listed name with its sheet. */
  function SheetsOf(path: string, disk: Disk, names: seq<string>): map<string, SheetInfo>
    requires forall n :: n in names ==> Readable(path, disk, n)
  {
    map n | n in names :: assert Readable(path, disk, n); Describe(disk.readSheet(path, n).value)
  }

  /**
   * Reading the listed sheets in order: what reading the first sheet that
   * cannot be read raised, or every listed sheet by name, each with its
   * table and a preview of at most its first five rows.
   */
  function ReadSheets(path: string, disk: Disk, names: seq<string>): (r: Result<map<string, SheetInfo>, LoadError>)
    ensures forall i :: 0 <= i < |names| && !Readable(path, disk, names[i])
                        && (forall k :: 0 <= k < i ==> Readable(path, disk, names[k]))
              ==> r == Err(ReadFailed(disk.readSheet(path, names[i]).error))
    ensures (forall i :: 0 <= i < |names| ==> Readable(path, disk, names[i])) <==> r.Ok?
    ensures r.Ok? ==> && (forall n :: n in r.value <==> n in names)
                      && (forall i :: 0 <= i < |names| ==> r.value[names[i]].df == disk.readSheet(path, names[i]).value)
                      && (forall n :: n in r.value ==>
                            var info := r.value[n];
                            |info.preview| <= 5 && |info.preview| <= |info.df.rows|
                            && info.preview == info.df.rows[..|info.preview|])
  {
    match Search.FirstIndex(names, n => !Readable(path, disk, n))
    case Some(i) => Err(ReadFailed(disk.readSheet(path, names[i]).error))
    case None =>
      assert forall n :: n in names ==> Readable(path, disk, n);
      Ok(SheetsOf(path, disk, names))
  }

  /**
   * What `load_all_sheets(path)` returns or raises: `ValueError` for an empty
   * path, `FileNotFoundError` for a missing file, one sheet named "CSV" for a
   * `.csv` file, every sheet of an `.xls`/`.xlsx` file by name, and
   * `ValueError` for any other extension; the extension's letter case does
   * not matter. What a pandas reader raises on the way (the CSV reader, the
   * list of sheet names, the first sheet in order that cannot be read) is
   * passed through.
   */
  function LoadedWorkbook(path: string, disk: Disk): (r: Result<Workbook, LoadError>)
    ensures path == [] ==> r == Err(ValueError(EmptyPathMessage))
    ensures path != [] && !disk.pathExists(path) ==> r == Err(FileNotFoundError("File not found: " + path))
    ensures path != [] && disk.pathExists(path) && Extension(path) == ".csv"
            ==> && (disk.readCsv(path).Err? ==> r == Err(ReadFailed(disk.readCsv(path).error)))
                && (disk.readCsv(path).Ok? ==>
                      && r.Ok? && r.value.sheetNames == ["CSV"] && r.value.sheets.Keys == {"CSV"}
                      && r.value.sheets["CSV"].df == disk.readCsv(path).value)
    ensures path != [] && disk.pathExists(path) && Extension(path) in {".xls", ".xlsx"}
            ==> && (disk.sheetNames(path).Err? ==> r == Err(ReadFailed(disk.sheetNames(path).error)))
                && (disk.sheetNames(path).Ok? ==>
                      var names := disk.sheetNames(path).value;
                      && (forall i :: 0 <= i < |names| && !Readable(path, disk, names[i])
                                      && (forall k :: 0 <= k < i ==> Readable(path, disk, names[k]))
                            ==> r == Err(ReadFailed(disk.readSheet(path, names[i]).error)))
                      && ((forall i :: 0 <= i < |names| ==> Readable(path, disk, names[i]))
                            ==> && r.Ok? && r.value.sheetNames == names
                                && (forall i :: 0 <= i < |names| ==>
                                      names[i] in r.value.sheets
                                      && r.value.sheets[names[i]].df == disk.readSheet(path, names[i]).value)))
    ensures path != [] && disk.pathExists(path) && Extension(path) !in {".csv", ".xls", ".xlsx"}
            ==> r == Err(ValueError(UnsupportedMessage))
    ensures r.Ok? ==> r.value.path == path && Loaded(r.value)
  {
    if path == [] then Err(ValueError(EmptyPathMessage))
    else if !disk.pathExists(path) then Err(FileNotFoundError("File not found: " + path))
    else if Extension(path) == ".csv" then
      match disk.readCsv(path)
      case Err(m) => Err(ReadFailed(m))
      case Ok(df) => Ok(Workbook(map["CSV" := Describe(df)], path, ["CSV"]))
    else if Extension(path) in {".xls", ".xlsx"} then
      match disk.sheetNames(path)
      case Err(m) => Err(ReadFailed(m))
      case Ok(names) =>
        match ReadSheets(path, disk, names)
        case Err(e) => Err(e)
        case Ok(sheets) => Ok(Workbook(sheets, path, names))
    else Err(ValueError(UnsupportedMessage))
  }

  /** The loop of `load_all_sheets` over the sheet names, filling the dictionary one sheet at a time. */
  method ReadAllSheets(path: string, disk: Disk, names: seq<string>) returns (r: Result<map<string, SheetInfo>, LoadError>)
    ensures r == ReadSheets(path, disk, names)
  {
    var sheetsData: map<string, SheetInfo> := map[];
    for i := 0 to |names|
      invariant forall n :: n in names[..i] ==> Readable(path, disk, n)
      invariant sheetsData == SheetsOf(path, disk, names[..i])
    {
      var df := disk.readSheet(path, names[i]);
      if df.Err? {
        assert Search.FirstIndex(names, n => !Readable(path, disk, n)) == Some(i);
        return Err(ReadFailed(df.error));
      }
      assert names[..i + 1] == names[..i] + [names[i]];
      sheetsData := sheetsData[names[i] := Describe(df.value)];
    }
    assert names[..|names|] == names;
    return Ok(sheetsData);
  }

  /** `load_all_sheets`, step by step. */
  method LoadAllSheets(path: string, disk: Disk) returns (r: Result<Workbook, LoadError>)
    ensures r == LoadedWorkbook(path, disk)
  {
    if path == [] {
      return Err(ValueError(EmptyPathMessage));
    }
    if !disk.pathExists(path) {
      return Err(FileNotFoundError("File not found: " + path));
    }
    var ext := Extension(path);
    if ext == ".csv" {
      var read := disk.readCsv(path);
      if read.Err? {
        return Err(ReadFailed(read.error));
      }
      return Ok(Workbook(map["CSV" := Describe(read.value)], path, ["CSV"]));
    } else if ext in {".xls", ".xlsx"} {
      var excelFile := disk.sheetNames(path);
      if excelFile.Err? {
        return Err(ReadFailed(excelFile.error));
      }
      var names := excelFile.value;
      var sheetsData := ReadAllSheets(path, disk, names);
      if sheetsData.Err? {
        return Err(sheetsData.error);
      }
      return Ok(Workbook(sheetsData.value, path, names));
    } else {
      return Err(ValueError(UnsupportedMessage));
    }
  }

  /** The extension is compared without regard to letter case: "a.CSV" is read as a CSV file. */
  lemma UpperCaseCsv()
    ensures Extension("a.CSV") == ".csv"
  {
    var p := "a.CSV";
    assert p[0] == 'a' && p[1] == '.' && p[2] == 'C' && p[3] == 'S' && p[4] == 'V';
    assert LastIndexOf(p, '/') == -1;
    assert LastIndexOf(p, '.') == 1;
    assert p[0..1] == "a";
    assert SplitExt(p).1 == ".CSV";
  }

  /** A file without a recognised extension is refused: "a.txt" and "a" are both unsupported. */
  lemma OtherExtensions()
    ensures Extension("a.txt") !in {".csv", ".xls", ".xlsx"}
    ensures Extension("a") == ""
  {
    var p := "a.txt";
    assert p[0] == 'a' && p[1] == '.' && p[2] == 't' && p[3] == 'x' && p[4] == 't';
    assert LastIndexOf(p, '/') == -1;
    assert LastIndexOf(p, '.') == 1;
    assert p[0..1] == "a";
    assert SplitExt(p).1 == ".txt";
    var e := Lower(".txt");
    assert |e| == 4 && e[1] == 't';
    assert ".csv"[1] == 'c' && ".xls"[1] == 'x' && ".xlsx"[1] == 'x';
    assert LastIndexOf("a", '.') == -1;
  }
}
