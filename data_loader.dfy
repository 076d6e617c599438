/** The spatial upload of the workflow: which reader a file is given to,
    chosen by the suffix of its lower-cased name, and which extracted
    file of a zip archive is read. The readers themselves (geopandas'
    `read_file`) and the extraction to a temporary directory stay outside
    the model: the reader is a parameter, and the top-level listing of the
    temporary directory after extraction is an input. */
module DataLoader {
  import opened Wrappers

  const GeoJsonSuffix: string := ".geojson"
  const ZipSuffix: string := ".zip"
  const ShpSuffix: string := ".shp"

  /** Python's `str.lower` on ASCII letters; every other character is kept. */
  function LowerChar(c: char): char
  {
    if 'A' <= c <= 'Z' then (c as int - 'A' as int + 'a' as int) as char else c
  }

  function Lower(s: string): string
  {
    seq(|s|, i requires 0 <= i < |s| => LowerChar(s[i]))
  }

  /** `s.endswith(suffix)`. */
  predicate EndsWith(s: string, suffix: string)
  {
    |suffix| <= |s| && s[|s| - |suffix|..] == suffix
  }

  /** The branch of `load_shapefile` an upload takes. */
  datatype Format = GeoJson | ZippedShapefile | BareShapefile | Unsupported

  /** Where the reader is pointed: at the uploaded stream, or at a file extracted from the zip. */
  datatype Source = UploadedFile | ExtractedFile(fileName: string)

  /** The three `ValueError`s `load_shapefile` raises. */
  datatype LoadError = NoShpInZip | ShpNotZipped | UnsupportedFormat

  function Message(e: LoadError): string
  {
    match e
    case NoShpInZip => "No .shp file found in the uploaded zip."
    case ShpNotZipped => "Please upload shapefile as a zipped .zip archive."
    case UnsupportedFormat => "Unsupported file format for spatial data."
  }

  /** The three errors are told apart by their messages. */
  lemma MessagesDistinct(e1: LoadError, e2: LoadError)
    requires e1 != e2
    ensures Message(e1) != Message(e2)
  {
  }

  /** No name ends in two of the three recognised suffixes. */
  lemma SuffixesExclusive(s: string)
    ensures !(EndsWith(s, GeoJsonSuffix) && EndsWith(s, ZipSuffix))
    ensures !(EndsWith(s, GeoJsonSuffix) && EndsWith(s, ShpSuffix))
    ensures !(EndsWith(s, ZipSuffix) && EndsWith(s, ShpSuffix))
  {
    if EndsWith(s, GeoJsonSuffix) {
      assert s[|s| - 1] == GeoJsonSuffix[7] == 'n';
    }
  }

  /** The if/elif chain on the lower-cased name. Because no name ends in two
      of the suffixes, exactly one branch fires whatever the order of the tests. */
  function FormatOf(name: string): (f: Format)
    ensures f == GeoJson <==> EndsWith(Lower(name), GeoJsonSuffix)
    ensures f == ZippedShapefile <==> EndsWith(Lower(name), ZipSuffix)
    ensures f == BareShapefile <==> EndsWith(Lower(name), ShpSuffix)
    ensures f == Unsupported <==>
      !EndsWith(Lower(name), GeoJsonSuffix) && !EndsWith(Lower(name), ZipSuffix) && !EndsWith(Lower(name), ShpSuffix)
  {
    var fname := Lower(name);
    SuffixesExclusive(fname);
    if EndsWith(fname, GeoJsonSuffix) then GeoJson
    else if EndsWith(fname, ZipSuffix) then ZippedShapefile
    else if EndsWith(fname, ShpSuffix) then BareShapefile
    else Unsupported
  }

  /** `[f for f in listing if f.endswith('.shp')]`: a case-sensitive test on each top-level entry. */
  function ShpFiles(listing: seq<string>): (r: seq<string>)
    ensures forall f :: f in r <==> f in listing && EndsWith(f, ShpSuffix)
    ensures |r| <= |listing|
  {
    if listing == [] then []
    else (if EndsWith(listing[0], ShpSuffix) then [listing[0]] else []) + ShpFiles(listing[1..])
  }

  /** `load_shapefile`: `read` stands for geopandas' `read_file`, and
      `extracted` for the top-level listing of the temporary directory
      once the zip has been extracted into it. */
  function LoadShapefile<R>(read: Source -> R, name: string, extracted: seq<string>): (r: Result<R, LoadError>)
    ensures r.Ok? <==> FormatOf(name) == GeoJson || (FormatOf(name) == ZippedShapefile && ShpFiles(extracted) != [])
    ensures FormatOf(name) == GeoJson ==> r == Ok(read(UploadedFile))
    ensures FormatOf(name) == ZippedShapefile && ShpFiles(extracted) != [] ==>
      r == Ok(read(ExtractedFile(ShpFiles(extracted)[0])))
    ensures r == Err(NoShpInZip) <==>
      FormatOf(name) == ZippedShapefile && forall f :: f in extracted ==> !EndsWith(f, ShpSuffix)
    ensures r == Err(ShpNotZipped) <==> FormatOf(name) == BareShapefile
    ensures r == Err(UnsupportedFormat) <==> FormatOf(name) == Unsupported
  {
    match FormatOf(name)
    case GeoJson => Ok(read(UploadedFile))
    case ZippedShapefile =>
      var shpFiles := ShpFiles(extracted);
      if shpFiles == [] then Err(NoShpInZip)
      else
        assert shpFiles[0] in shpFiles;
        Ok(read(ExtractedFile(shpFiles[0])))
    case BareShapefile => Err(ShpNotZipped)
    case Unsupported => Err(UnsupportedFormat)
  }

  /** The entry read from a zip is the first one in the listing whose name ends in `.shp`. */
  lemma {:induction false} FirstShpEntryIsRead(extracted: seq<string>, i: nat)
    requires i < |extracted| && EndsWith(extracted[i], ShpSuffix)
    requires forall j :: 0 <= j < i ==> !EndsWith(extracted[j], ShpSuffix)
    ensures ShpFiles(extracted) != [] && ShpFiles(extracted)[0] == extracted[i]
  {
    if i > 0 {
      FirstShpEntryIsRead(extracted[1..], i - 1);
    }
  }

  /** Lower-casing twice is lower-casing once. */
  lemma LowerIdempotent(s: string)
    ensures Lower(Lower(s)) == Lower(s)
  {
  }

  /** The suffix test ignores case: a name and its lower-cased form take the same branch. */
  lemma FormatIgnoresCase(name: string)
    ensures FormatOf(Lower(name)) == FormatOf(name)
  {
    LowerIdempotent(name);
  }

  /** The listing is consulted only for a zip upload. */
  lemma ListingOnlyReadForZip<R>(read: Source -> R, name: string, l1: seq<string>, l2: seq<string>)
    requires FormatOf(name) != ZippedShapefile
    ensures LoadShapefile(read, name, l1) == LoadShapefile(read, name, l2)
  {
  }

  /** An upper-case upload name is recognised, but an upper-case entry inside the zip is not:
      `DATA.SHP` is missed, and the directory also holds the archive `temp.zip` itself. */
  lemma EntrySuffixIsCaseSensitive<R>(read: Source -> R)
    ensures LoadShapefile(read, "Data.ZIP", ["temp.zip", "DATA.SHP", "DATA.DBF"]) == Err(NoShpInZip)
  {
  }
}
