/** The pure shaping done by the HTML output driver
    (src/wireviz/wv_output.py): the MIME subtype of an image file name, the
    bill-of-materials table (header row, data rows, and the variant with the
    rows reversed), the sheet numbers and sheet size taken from the
    metadata, and the title-block data (part number, revisions and authors
    padded to fixed row counts).  Templates and files are not modelled. */
module Output {
  import opened Wrappers
  import opened Strings

  // ---------------------------------------------------------------------
  // MIME subtype of an embedded image

  const MimeSubtypeReplacements: map<string, string> := map["jpg" := "jpeg", "tif" := "tiff"]

  function StripTrailingSlashes(path: string): (p: string)
    ensures |p| > 0 ==> p[|p| - 1] != '/'
  {
    if |path| > 0 && path[|path| - 1] == '/' then StripTrailingSlashes(path[..|path| - 1]) else path
  }

  /** `Path(path).name`: the last component of the path. */
  function BaseName(path: string): (name: string)
    ensures '/' !in name
  {
    var p := StripTrailingSlashes(path);
    match LastIndexOf(p, '/')
    case None => p
    case Some(i) =>
      AfterLastIndexOf(p, '/');
      p[i + 1..]
  }

  /** `Path.suffix`: the name from its last '.', unless that dot opens or
      closes the name. */
  function Suffix(name: string): string
  {
    match LastIndexOf(name, '.')
    case None => ""
    case Some(i) => if 0 < i < |name| - 1 then name[i..] else ""
  }

  /** `str.lstrip(".")`. */
  function LStripDots(s: string): string
  {
    if |s| > 0 && s[0] == '.' then LStripDots(s[1..]) else s
  }

  /** Maps a known file extension to its MIME spelling. */
  function Canonical(ext: string): string
  {
    if ext in MimeSubtypeReplacements then MimeSubtypeReplacements[ext] else ext
  }

  /** Stripping the single dot in front of a part that does not start with one. */
  lemma LStripOneDot(ext: string)
    requires |ext| > 0 && ext[0] != '.'
    ensures LStripDots(['.'] + ext) == ext
  {
    assert (['.'] + ext)[1..] == ext;
  }

  /** Stripping the dots from a '.' followed by something else leaves
      what follows it. */
  lemma StripDotAt(name: string, i: nat)
    requires i + 1 < |name| && name[i] == '.' && name[i + 1] != '.'
    ensures LStripDots(name[i..]) == name[i + 1..]
  {
    assert name[i..] == ['.'] + name[i + 1..];
    LStripOneDot(name[i + 1..]);
  }

  /** What follows the last '.' of a name, when that dot neither opens nor
      closes the name, is the extension and holds no '.'. */
  lemma ExtensionAfterDot(name: string, i: nat)
    requires LastIndexOf(name, '.') == Some(i) && 0 < i < |name| - 1
    ensures LStripDots(Suffix(name)) == name[i + 1..]
    ensures '.' !in name[i + 1..]
  {
    StripDotAt(name, i);
    assert Suffix(name) == name[i..];
    AfterLastIndexOf(name, '.');
  }

  /** A name whose last '.' opens or closes it, or that has no '.', has no
      extension. */
  lemma ExtensionWithoutDot(name: string)
    requires LastIndexOf(name, '.').Some? ==> !(0 < LastIndexOf(name, '.').value < |name| - 1)
    ensures LStripDots(Suffix(name)) == ""
  {
  }

  /** The extension of any name holds no '.', and no '/' when the name has none. */
  lemma ExtensionOfName(name: string)
    ensures '.' !in LStripDots(Suffix(name))
    ensures '/' !in name ==> '/' !in LStripDots(Suffix(name))
  {
    var r := LastIndexOf(name, '.');
    if r.Some? && 0 < r.value < |name| - 1 {
      var i := r.value;
      ExtensionAfterDot(name, i);
      var ext := name[i + 1..];
      forall k | 0 <= k < |ext|
        ensures ext[k] == name[i + 1 + k]
      {
      }
    } else {
      ExtensionWithoutDot(name);
    }
  }

  /** Lower-casing an extension free of '.' and '/' and respelling it
      gives text free of both, with no upper-case letter, that is not
      respelled again. */
  lemma CanonicalLower(ext: string)
    requires '.' !in ext && '/' !in ext
    ensures var r := Canonical(Lower(ext));
      '.' !in r && '/' !in r && NoUpper(r) && r !in MimeSubtypeReplacements
  {
    var l := Lower(ext);
    LowerProperties(ext);
    forall i | 0 <= i < |l|
      ensures l[i] != '.' && l[i] != '/'
    {
      assert ext[i] in ext;
    }
    assert "jpeg" != "jpg" && "jpeg" != "tif" && "tiff" != "jpg" && "tiff" != "tif";
  }

  /** The MIME subtype of an image file: its extension in lower case, with
      `jpg` and `tif` spelled `jpeg` and `tiff`.  The result never holds a
      '.', a '/' or an upper-case letter, and is never one of the spellings
      that get replaced. */
  function MimeSubtype(filename: string): (r: string)
    ensures '.' !in r && '/' !in r && NoUpper(r)
    ensures r !in MimeSubtypeReplacements
  {
    var name := BaseName(filename);
    ExtensionOfName(name);
    var ext := LStripDots(Suffix(name));
    CanonicalLower(ext);
    var mimeSubtype := Lower(ext);
    if mimeSubtype in MimeSubtypeReplacements then MimeSubtypeReplacements[mimeSubtype] else mimeSubtype
  }

  /** The last component of `<dir>/<name>` is `name`. */
  lemma BaseNameOfPath(dir: string, name: string)
    requires dir == [] || dir[|dir| - 1] == '/'
    requires |name| > 0 && '/' !in name
    ensures BaseName(dir + name) == name
  {
    var path := dir + name;
    assert path[|path| - 1] == name[|name| - 1];
    assert name[|name| - 1] in name;
    assert StripTrailingSlashes(path) == path;
    if dir == [] {
      assert path == name;
    } else {
      assert path == dir[..|dir| - 1] + ['/'] + name;
      LastIndexOfJoin(dir[..|dir| - 1], '/', name);
      assert path[|dir|..] == name;
    }
  }

  /** The extension of `<stem>.<ext>` is `ext` when the stem is not empty. */
  lemma ExtensionOfStemAndExt(stem: string, ext: string)
    requires |stem| > 0 && |ext| > 0 && '.' !in ext
    ensures LStripDots(Suffix(stem + "." + ext)) == ext
  {
    var name := stem + "." + ext;
    assert name == stem + ['.'] + ext;
    LastIndexOfJoin(stem, '.', ext);
    ExtensionAfterDot(name, |stem|);
    assert name[|stem| + 1..] == ext;
  }

  /** A file `<dir>/<stem>.<ext>` (the directory optional, the stem
      non-empty) has the canonical lower-case form of `ext` as its MIME
      subtype, whatever dots the stem holds. */
  lemma MimeSubtypeOfFile(dir: string, stem: string, ext: string)
    requires dir == [] || dir[|dir| - 1] == '/'
    requires |stem| > 0 && '/' !in stem
    requires |ext| > 0 && '/' !in ext && '.' !in ext
    ensures MimeSubtype(dir + stem + "." + ext) == Canonical(Lower(ext))
  {
    var name := stem + "." + ext;
    assert '/' !in name;
    assert dir + stem + "." + ext == dir + name;
    BaseNameOfPath(dir, name);
    ExtensionOfStemAndExt(stem, ext);
  }

  /** A name without a dot has no extension. */
  lemma MimeSubtypeWithoutExtension(filename: string)
    requires '.' !in BaseName(filename)
    ensures MimeSubtype(filename) == ""
  {
    ExtensionWithoutDot(BaseName(filename));
  }

  /** `<stem>.` has no extension when the stem is not empty. */
  lemma ExtensionOfTrailingDot(stem: string)
    requires |stem| > 0
    ensures LStripDots(Suffix(stem + ".")) == ""
  {
    var name := stem + ".";
    assert name == stem + ['.'] + [];
    LastIndexOfJoin(stem, '.', []);
    ExtensionWithoutDot(name);
  }

  /** A name ending in a dot, after a non-empty stem, has no extension. */
  lemma MimeSubtypeOfTrailingDot(dir: string, stem: string)
    requires stem != [] && '/' !in stem
    requires dir == [] || dir[|dir| - 1] == '/'
    ensures MimeSubtype(dir + stem + ".") == ""
  {
    var name := stem + ".";
    assert '/' !in name by {
      assert forall k :: 0 <= k < |stem| ==> name[k] == stem[k];
    }
    assert dir + stem + "." == dir + name;
    BaseNameOfPath(dir, name);
    ExtensionOfTrailingDot(stem);
  }

  /** A non-empty extension that is already a subtype is kept as it is. */
  lemma MimeSubtypeOfPlainExtension(r: string)
    requires r != [] && '.' !in r && '/' !in r && NoUpper(r) && r !in MimeSubtypeReplacements
    ensures MimeSubtype("x." + r) == r
  {
    var name := "x." + r;
    assert name == "x" + "." + r;
    assert '/' !in name;
    BaseNameOfPath([], name);
    assert [] + name == name;
    ExtensionOfStemAndExt("x", r);
    assert Lower(r) == r by {
      LowerProperties(r);
    }
  }

  /** A subtype as produced here, used as an extension, maps to itself. */
  lemma MimeSubtypeOfSubtype(r: string)
    requires '.' !in r && '/' !in r && NoUpper(r) && r !in MimeSubtypeReplacements
    ensures MimeSubtype("x." + r) == r
  {
    if r == [] {
      assert "x." + r == "x.";
      MimeSubtypeOfTrailingDot([], "x");
      assert [] + "x" + "." == "x.";
    } else {
      MimeSubtypeOfPlainExtension(r);
    }
  }

  /** Normalising is idempotent: a file whose extension is already the MIME
      subtype computed for another file keeps that subtype. */
  lemma MimeSubtypeIdempotent(filename: string)
    ensures MimeSubtype("x." + MimeSubtype(filename)) == MimeSubtype(filename)
  {
    MimeSubtypeOfSubtype(MimeSubtype(filename));
  }

  // ---------------------------------------------------------------------
  // Bill-of-materials table

  /** The CSS class of a column: `bom_col_` and the lower-case header text. */
  function ColClass(header: string): string
  {
    "bom_col_" + Lower(header)
  }

  function HeaderCell(text: string): string
  {
    "    <th class=\"" + ColClass(text) + "\">" + text + "</th>\n"
  }

  /** A data cell; a missing value is shown as the empty string. */
  function DataCell(cls: string, item: Option<string>): string
  {
    "    <td class=\"" + cls + "\">" + (if item.Some? then item.value else "") + "</td>\n"
  }

  function Row(cells: seq<string>): string
  {
    "  <tr>\n" + Concat(cells) + "  </tr>\n"
  }

  /** One header cell per header text, in order. */
  function HeaderCells(header: seq<string>): seq<string>
  {
    seq(|header|, i requires 0 <= i < |header| => HeaderCell(header[i]))
  }

  /** One data cell per value of the row, in order, each in the class of
      the header column at the same position. */
  function DataCells(header: seq<string>, row: seq<Option<string>>): seq<string>
    requires |row| <= |header|
  {
    seq(|row|, i requires 0 <= i < |row| => DataCell(ColClass(header[i]), row[i]))
  }

  /** The cells of one more header text. */
  lemma HeaderCellsStep(header: seq<string>, i: nat)
    requires i < |header|
    ensures HeaderCells(header[..i + 1]) == HeaderCells(header[..i]) + [HeaderCell(header[i])]
  {
  }

  /** Joining a sequence of parts with one more part at the end. */
  lemma ConcatAppend(parts: seq<string>, p: string)
    ensures Concat(parts + [p]) == Concat(parts) + p
  {
    assert (parts + [p])[..|parts|] == parts;
  }

  /** The open header row extended by the next header cell. */
  lemma HeaderRowStep(header: seq<string>, i: nat, html: string, th: string)
    requires i < |header| && th == HeaderCell(header[i])
    requires html == "  <tr>\n" + Concat(HeaderCells(header[..i]))
    ensures html + th == "  <tr>\n" + Concat(HeaderCells(header[..i + 1]))
  {
    HeaderCellsStep(header, i);
    ConcatAppend(HeaderCells(header[..i]), th);
  }

  /** The header row of the BOM table. */
  method BomHeaderHtml(header: seq<string>) returns (html: string)
    ensures html == Row(HeaderCells(header))
  {
    html := "  <tr>\n";
    for i := 0 to |header|
      invariant html == "  <tr>\n" + Concat(HeaderCells(header[..i]))
    {
      var thClass := "bom_col_" + Lower(header[i]);
      var th := "    <th class=\"" + thClass + "\">" + header[i] + "</th>\n";
      HeaderRowStep(header, i, html, th);
      html := html + th;
    }
    assert header[..|header|] == header;
    html := html + "  </tr>\n";
  }

  /** A value in column `column` of data row `row` has no header above it
      to take its column class from. */
  datatype BomError = ColumnWithoutHeader(row: nat, column: nat)

  /** The cells of one more value of a row. */
  lemma DataCellsStep(header: seq<string>, row: seq<Option<string>>, i: nat)
    requires i < |row| && i < |header|
    ensures DataCells(header, row[..i + 1]) == DataCells(header, row[..i]) + [DataCell(ColClass(header[i]), row[i])]
  {
  }

  /** The open data row extended by the cell for the next value. */
  lemma DataRowStep(header: seq<string>, row: seq<Option<string>>, i: nat, html: string, td: string)
    requires i < |row| && i < |header| && td == DataCell(ColClass(header[i]), row[i])
    requires html == "  <tr>\n" + Concat(DataCells(header, row[..i]))
    ensures html + td == "  <tr>\n" + Concat(DataCells(header, row[..i + 1]))
  {
    DataCellsStep(header, row, i);
    ConcatAppend(DataCells(header, row[..i]), td);
  }

  /** The rendered data row for `row`; none when the row is longer than the
      header, which has no class for its extra values. */
  method BomRowHtml(header: seq<string>, row: seq<Option<string>>) returns (rowHtml: Option<string>)
    ensures rowHtml.None? <==> |row| > |header|
    ensures rowHtml.Some? ==> rowHtml.value == Row(DataCells(header, row))
  {
    var html := "  <tr>\n";
    for i := 0 to |row|
      invariant i <= |header|
      invariant html == "  <tr>\n" + Concat(DataCells(header, row[..i]))
    {
      if i == |header| {
        return None;
      }
      var tdClass := "bom_col_" + Lower(header[i]);
      var item := if row[i].Some? then row[i].value else "";
      var td := "    <td class=\"" + tdClass + "\">" + item + "</td>\n";
      DataRowStep(header, row, i, html, td);
      html := html + td;
    }
    assert row[..|row|] == row;
    return Some(html + "  </tr>\n");
  }

  /** The data rows of the BOM table, one per BOM row, in order; the first
      row longer than the header stops the table, naming the row and the
      first column without a header. */
  method BomContents(header: seq<string>, rows: seq<seq<Option<string>>>)
    returns (r: Result<seq<string>, BomError>)
    ensures r.Success? <==> forall k :: 0 <= k < |rows| ==> |rows[k]| <= |header|
    ensures r.Failure? ==>
      && r.error.row < |rows|
      && |rows[r.error.row]| > |header|
      && r.error.column == |header|
      && forall k :: 0 <= k < r.error.row ==> |rows[k]| <= |header|
    ensures r.Success? ==> |r.value| == |rows|
    ensures r.Success? ==> forall k :: 0 <= k < |rows| ==> r.value[k] == Row(DataCells(header, rows[k]))
  {
    var contents := [];
    for k := 0 to |rows|
      invariant |contents| == k
      invariant forall j :: 0 <= j < k ==> |rows[j]| <= |header|
      invariant forall j :: 0 <= j < k ==> contents[j] == Row(DataCells(header, rows[j]))
    {
      var rowHtml := BomRowHtml(header, rows[k]);
      if rowHtml.None? {
        return Failure(ColumnWithoutHeader(k, |header|));
      }
      contents := contents + [rowHtml.value];
    }
    return Success(contents);
  }

  /** A missing value renders exactly like an empty one. */
  lemma MissingCellIsBlank(header: seq<string>, row: seq<Option<string>>, i: nat)
    requires |row| <= |header| && i < |row|
    ensures Row(DataCells(header, row[i := None])) == Row(DataCells(header, row[i := Some("")]))
  {
    assert DataCells(header, row[i := None]) == DataCells(header, row[i := Some("")]);
  }

  function Table(rows: seq<string>): string
  {
    "<table class=\"bom\">\n" + Concat(rows) + "</table>\n"
  }

  /** The BOM table with its header on top, and the variant used when the
      table is printed bottom-up: the same rows, header included, in the
      opposite order. */
  function BomTables(headerHtml: string, contents: seq<string>): (r: (string, string))
    ensures r.0 == Table([headerHtml] + contents)
    ensures r.1 == Table(Reverse([headerHtml] + contents))
  {
    ConcatPrepend(headerHtml, contents);
    assert ([headerHtml] + contents)[1..] == contents;
    assert Concat(Reverse(contents) + [headerHtml]) == Concat(Reverse(contents)) + headerHtml by {
      var s := Reverse(contents) + [headerHtml];
      assert s[..|s| - 1] == Reverse(contents);
    }
    ("<table class=\"bom\">\n" + headerHtml + Concat(contents) + "</table>\n",
     "<table class=\"bom\">\n" + Concat(Reverse(contents)) + headerHtml + "</table>\n")
  }

  /** The two tables mirror each other: row `k` of the reversed table is
      row `k` from the end of the normal one (so its header comes last), and
      reversing its rows once more gives back the normal table. */
  lemma BomTablesMirror(headerHtml: string, contents: seq<string>)
    ensures var rows := [headerHtml] + contents;
      var reversedRows := Reverse(rows);
      && BomTables(headerHtml, contents).0 == Table(Reverse(reversedRows))
      && reversedRows[|contents|] == headerHtml
      && forall k :: 0 <= k < |rows| ==> reversedRows[k] == rows[|rows| - 1 - k]
  {
    var rows := [headerHtml] + contents;
    ReverseReverse(rows);
    forall k | 0 <= k < |rows|
      ensures Reverse(rows)[k] == rows[|rows| - 1 - k]
    {
      ReverseAt(rows, k);
    }
  }

  // ---------------------------------------------------------------------
  // Sheet numbers, sheet size and title-block data from the metadata

  /** A metadata value: text, a number, or a nested mapping whose entries
      keep their order. */
  datatype MetaValue = Text(text: string) | Number(number: int) | Dict(entries: seq<(string, MetaValue)>)

  /** The document metadata as its ordered (key, value) entries. */
  type Metadata = seq<(string, MetaValue)>

  /** One row of the revisions or authors table. */
  type Record = map<string, MetaValue>

  datatype MetaError = MissingKey(key: string) | NotAMapping(key: string)

  /** Mapping lookup: the value of the last entry for `key`, as when a
      mapping is built entry by entry. */
  function Lookup<V>(d: seq<(string, V)>, key: string): (r: Option<V>)
    ensures r.Some? <==> exists j :: 0 <= j < |d| && d[j].0 == key
    ensures r.Some? ==> exists j :: 0 <= j < |d| && d[j] == (key, r.value)
  {
    if d == [] then None
    else if d[|d| - 1].0 == key then Some(d[|d| - 1].1)
    else
      var r := Lookup(d[..|d| - 1], key);
      assert forall j :: 0 <= j < |d| - 1 ==> d[..|d| - 1][j] == d[j];
      r
  }

  /** The value found is that of the last entry for the key: no later entry
      has the same key. */
  lemma {:induction false} LookupIsLast<V>(d: seq<(string, V)>, key: string)
    requires Lookup(d, key).Some?
    ensures exists i ::
      && 0 <= i < |d|
      && d[i] == (key, Lookup(d, key).value)
      && forall j :: i < j < |d| ==> d[j].0 != key
  {
    var last := |d| - 1;
    if d[last].0 == key {
      assert d[last] == (key, Lookup(d, key).value);
    } else {
      var p := d[..last];
      assert Lookup(d, key) == Lookup(p, key);
      LookupIsLast(p, key);
      var i :| 0 <= i < |p| && p[i] == (key, Lookup(p, key).value) && forall j :: i < j < |p| ==> p[j].0 != key;
      assert d[i] == p[i];
      assert forall j :: i < j < |d| ==> d[j].0 != key by {
        forall j | i < j < |d|
          ensures d[j].0 != key
        {
          if j < last {
            assert d[j] == p[j];
          }
        }
      }
    }
  }

  /** `str()` of a value; a nested mapping is shown as nothing. */
  function Display(v: MetaValue): string
  {
    match v
    case Text(s) => s
    case Number(n) => IntToString(n)
    case Dict(_) => ""
  }

  /** Sheet numbers: both 1 for empty metadata, otherwise the metadata's
      own `sheet_current` and `sheet_total`, which must then be present. */
  function SheetNumbers(metadata: Metadata): (r: Result<(MetaValue, MetaValue), MetaError>)
    ensures |metadata| == 0 ==> r == Success((Number(1), Number(1)))
    ensures |metadata| > 0 ==>
      (r.Success? <==> Lookup(metadata, "sheet_current").Some? && Lookup(metadata, "sheet_total").Some?)
    ensures |metadata| > 0 && r.Success? ==>
      r.value == (Lookup(metadata, "sheet_current").value, Lookup(metadata, "sheet_total").value)
    ensures |metadata| > 0 && Lookup(metadata, "sheet_current").None? ==>
      r == Failure(MissingKey("sheet_current"))
    ensures |metadata| > 0 && Lookup(metadata, "sheet_current").Some? && Lookup(metadata, "sheet_total").None? ==>
      r == Failure(MissingKey("sheet_total"))
  {
    if |metadata| == 0 then Success((Number(1), Number(1)))
    else
      match Lookup(metadata, "sheet_current")
      case None => Failure(MissingKey("sheet_current"))
      case Some(current) =>
        match Lookup(metadata, "sheet_total")
        case None => Failure(MissingKey("sheet_total"))
        case Some(total) => Success((current, total))
  }

  const SheetSizeDefault := "sheetsize_default"

  /** The sheet-size replacement: set only for non-empty metadata, to the
      template's `sheetsize` or to `sheetsize_default`; a template that is
      not a mapping cannot be asked for one. */
  function SheetSize(metadata: Metadata): (r: Result<Option<string>, MetaError>)
    ensures |metadata| == 0 ==> r == Success(None)
    ensures r.Failure? <==>
      |metadata| > 0 && Lookup(metadata, "template").Some? && !Lookup(metadata, "template").value.Dict?
    ensures |metadata| > 0 && r.Success? ==> r.value.Some?
    ensures |metadata| > 0 && Lookup(metadata, "template").None? ==> r == Success(Some(SheetSizeDefault))
    ensures |metadata| > 0 && r.Success? && r.value.value != SheetSizeDefault ==>
      && Lookup(metadata, "template").Some?
      && Lookup(metadata, "template").value.Dict?
      && Lookup(Lookup(metadata, "template").value.entries, "sheetsize").Some?
    ensures var t := Lookup(metadata, "template");
      |metadata| > 0 && t.Some? && t.value.Dict? && Lookup(t.value.entries, "sheetsize").Some? ==>
        r == Success(Some(Display(Lookup(t.value.entries, "sheetsize").value)))
    ensures var t := Lookup(metadata, "template");
      |metadata| > 0 && t.Some? && t.value.Dict? && Lookup(t.value.entries, "sheetsize").None? ==>
        r == Success(Some(SheetSizeDefault))
  {
    if |metadata| == 0 then Success(None)
    else
      match Lookup(metadata, "template")
      case None => Success(Some(SheetSizeDefault))
      case Some(template) =>
        if !template.Dict? then Failure(NotAMapping("template"))
        else
          match Lookup(template.entries, "sheetsize")
          case None => Success(Some(SheetSizeDefault))
          case Some(v) => Success(Some(Display(v)))
  }

  const DefaultTemplate := "simple"

  /** The page template's name: the template mapping's `name`, `simple` when
      there is no template or it has no name; a template that is not a
      mapping cannot be asked for one. */
  function TemplateName(metadata: Metadata): (r: Result<MetaValue, MetaError>)
    ensures Lookup(metadata, "template").None? ==> r == Success(Text(DefaultTemplate))
    ensures r.Failure? <==> Lookup(metadata, "template").Some? && !Lookup(metadata, "template").value.Dict?
    ensures r.Failure? ==> r.error == NotAMapping("template")
    ensures r.Success? && r != Success(Text(DefaultTemplate)) ==>
      && Lookup(metadata, "template").Some?
      && Lookup(metadata, "template").value.Dict?
      && Lookup(Lookup(metadata, "template").value.entries, "name") == Some(r.value)
    ensures var t := Lookup(metadata, "template");
      t.Some? && t.value.Dict? && Lookup(t.value.entries, "name").Some? ==>
        r == Success(Lookup(t.value.entries, "name").value)
    ensures var t := Lookup(metadata, "template");
      t.Some? && t.value.Dict? && Lookup(t.value.entries, "name").None? ==>
        r == Success(Text(DefaultTemplate))
  {
    match Lookup(metadata, "template")
    case None => Success(Text(DefaultTemplate))
    case Some(template) =>
      if !template.Dict? then Failure(NotAMapping("template"))
      else
        match Lookup(template.entries, "name")
        case None => Success(Text(DefaultTemplate))
        case Some(v) => Success(v)
  }

  /** The title-block data gathered from the metadata: revisions and
      authors as lists of records, every other entry by key. */
  datatype TitleBlockData = TitleBlockData(revisions: seq<Record>, authors: seq<Record>, others: map<string, MetaValue>)

  predicate IsListKey(key: string) { key == "revisions" || key == "authors" }

  /** A mapping whose every value is itself a mapping. */
  predicate IsRecordTable(v: MetaValue)
  {
    v.Dict? && forall j :: 0 <= j < |v.entries| ==> v.entries[j].1.Dict?
  }

  /** Every revisions or authors entry of the metadata is a table of records. */
  predicate WellShaped(metadata: Metadata)
  {
    forall j :: 0 <= j < |metadata| && IsListKey(metadata[j].0) ==> IsRecordTable(metadata[j].1)
  }

  function DictToMap(entries: seq<(string, MetaValue)>): Record
  {
    if entries == [] then map[]
    else DictToMap(entries[..|entries| - 1])[entries[|entries| - 1].0 := entries[|entries| - 1].1]
  }

  /** A table of records re-keyed as a list: each record gets its table key
      under `name`, followed by its own fields (which win on a clash). */
  function Rekey(name: string, table: MetaValue): seq<Record>
    requires IsRecordTable(table)
  {
    seq(|table.entries|, j requires 0 <= j < |table.entries| =>
      map[name := Text(table.entries[j].0)] + DictToMap(table.entries[j].1.entries))
  }

  /** The list form of the revisions (`rev`) or authors (`row`) entry, empty
      when the metadata has none. */
  function ListField(metadata: Metadata, key: string): seq<Record>
  {
    match Lookup(metadata, key)
    case Some(v) => if IsRecordTable(v) then Rekey(if key == "revisions" then "rev" else "row", v) else []
    case None => []
  }

  function SheetNameText(metadata: Metadata): string
  {
    match Lookup(metadata, "sheet_name")
    case None => "None"
    case Some(v) => Display(v)
  }

  /** What an ordinary entry becomes: a part number is suffixed with the
      sheet name, anything else is copied. */
  function Copied(metadata: Metadata, key: string, v: MetaValue): MetaValue
  {
    if key == "pn" then Text(Display(v) + "-" + SheetNameText(metadata)) else v
  }

  /** Looking up in one more entry of the metadata. */
  lemma LookupStep<V>(d: seq<(string, V)>, i: nat, key: string)
    requires i < |d|
    ensures Lookup(d[..i + 1], key) == if d[i].0 == key then Some(d[i].1) else Lookup(d[..i], key)
  {
    assert d[..i + 1][..i] == d[..i];
  }

  /** The ordinary entries gathered from the first `i` entries of the metadata. */
  ghost predicate OthersGathered(metadata: Metadata, i: nat, others: map<string, MetaValue>)
    requires i <= |metadata|
  {
    && (forall k :: k in others <==> !IsListKey(k) && Lookup(metadata[..i], k).Some?)
    && (forall k :: k in others ==> others[k] == Copied(metadata, k, Lookup(metadata[..i], k).value))
  }

  /** What the gathering loop has built after the first `i` entries. */
  ghost predicate GatheredUpTo(metadata: Metadata, i: nat, revisions: seq<Record>, authors: seq<Record>,
                               others: map<string, MetaValue>)
    requires i <= |metadata|
  {
    && WellShaped(metadata[..i])
    && revisions == ListField(metadata[..i], "revisions")
    && authors == ListField(metadata[..i], "authors")
    && OthersGathered(metadata, i, others)
  }

  lemma WellShapedStep(metadata: Metadata, i: nat)
    requires i < |metadata| && WellShaped(metadata[..i])
    requires IsListKey(metadata[i].0) ==> IsRecordTable(metadata[i].1)
    ensures WellShaped(metadata[..i + 1])
  {
    var prefix := metadata[..i + 1];
    forall j | 0 <= j < i + 1 && IsListKey(prefix[j].0)
      ensures IsRecordTable(prefix[j].1)
    {
      if j < i {
        assert prefix[j] == metadata[..i][j];
      }
    }
  }

  lemma ListFieldStep(metadata: Metadata, i: nat, key: string)
    requires i < |metadata|
    ensures metadata[i].0 != key ==> ListField(metadata[..i + 1], key) == ListField(metadata[..i], key)
    ensures metadata[i].0 == key && IsRecordTable(metadata[i].1) ==>
      ListField(metadata[..i + 1], key) == Rekey(if key == "revisions" then "rev" else "row", metadata[i].1)
  {
    LookupStep(metadata, i, key);
  }

  /** A revisions or authors entry leaves the ordinary entries as they are. */
  lemma OthersSkipStep(metadata: Metadata, i: nat, others: map<string, MetaValue>)
    requires i < |metadata| && OthersGathered(metadata, i, others)
    requires IsListKey(metadata[i].0)
    ensures OthersGathered(metadata, i + 1, others)
  {
    forall k
      ensures Lookup(metadata[..i + 1], k) == if metadata[i].0 == k then Some(metadata[i].1) else Lookup(metadata[..i], k)
    {
      LookupStep(metadata, i, k);
    }
  }

  /** Any other entry is copied, a part number being suffixed. */
  lemma OthersCopyStep(metadata: Metadata, i: nat, others: map<string, MetaValue>)
    requires i < |metadata| && OthersGathered(metadata, i, others)
    requires !IsListKey(metadata[i].0)
    ensures OthersGathered(metadata, i + 1, others[metadata[i].0 := Copied(metadata, metadata[i].0, metadata[i].1)])
  {
    forall k
      ensures Lookup(metadata[..i + 1], k) == if metadata[i].0 == k then Some(metadata[i].1) else Lookup(metadata[..i], k)
    {
      LookupStep(metadata, i, k);
    }
  }

  /** A well-shaped revisions or authors entry replaces that list. */
  lemma GatherListEntry(metadata: Metadata, i: nat, revisions: seq<Record>, authors: seq<Record>,
                        others: map<string, MetaValue>)
    requires i < |metadata| && GatheredUpTo(metadata, i, revisions, authors, others)
    requires IsListKey(metadata[i].0) && IsRecordTable(metadata[i].1)
    ensures var (item, contents) := metadata[i];
      GatheredUpTo(metadata, i + 1,
                   if item == "revisions" then Rekey("rev", contents) else revisions,
                   if item == "authors" then Rekey("row", contents) else authors,
                   others)
  {
    WellShapedStep(metadata, i);
    ListFieldStep(metadata, i, "revisions");
    ListFieldStep(metadata, i, "authors");
    OthersSkipStep(metadata, i, others);
  }

  /** Any other entry is copied, a part number being suffixed. */
  lemma GatherOtherEntry(metadata: Metadata, i: nat, revisions: seq<Record>, authors: seq<Record>,
                         others: map<string, MetaValue>)
    requires i < |metadata| && GatheredUpTo(metadata, i, revisions, authors, others)
    requires !IsListKey(metadata[i].0)
    ensures var (item, contents) := metadata[i];
      GatheredUpTo(metadata, i + 1, revisions, authors, others[item := Copied(metadata, item, contents)])
  {
    WellShapedStep(metadata, i);
    ListFieldStep(metadata, i, "revisions");
    ListFieldStep(metadata, i, "authors");
    OthersCopyStep(metadata, i, others);
  }

  /** The first revisions or authors entry that is not a table of records
      has the key `key`. */
  predicate FirstIllShaped(metadata: Metadata, key: string)
  {
    exists i ::
      && 0 <= i < |metadata|
      && metadata[i].0 == key
      && !IsRecordTable(metadata[i].1)
      && WellShaped(metadata[..i])
  }

  /** Gathers the title-block data entry by entry. */
  method CollectMetadata(metadata: Metadata) returns (r: Result<TitleBlockData, MetaError>)
    ensures r.Success? <==> WellShaped(metadata)
    ensures r.Failure? ==> r.error.NotAMapping? && IsListKey(r.error.key)
    ensures r.Failure? ==> FirstIllShaped(metadata, r.error.key)
    ensures r.Success? ==> r.value.revisions == ListField(metadata, "revisions")
    ensures r.Success? ==> r.value.authors == ListField(metadata, "authors")
    ensures r.Success? ==>
      forall k :: k in r.value.others <==> !IsListKey(k) && Lookup(metadata, k).Some?
    ensures r.Success? ==>
      forall k :: k in r.value.others ==> r.value.others[k] == Copied(metadata, k, Lookup(metadata, k).value)
  {
    var revisions: seq<Record> := [];
    var authors: seq<Record> := [];
    var others: map<string, MetaValue> := map[];
    for i := 0 to |metadata|
      invariant GatheredUpTo(metadata, i, revisions, authors, others)
    {
      var (item, contents) := metadata[i];
      if item == "revisions" || item == "authors" {
        if !IsRecordTable(contents) {
          assert !WellShaped(metadata) by {
            assert metadata[i].0 == item && metadata[i].1 == contents;
          }
          return Failure(NotAMapping(item));
        }
        GatherListEntry(metadata, i, revisions, authors, others);
        if item == "revisions" {
          revisions := Rekey("rev", contents);
        } else {
          authors := Rekey("row", contents);
        }
        continue;
      }
      GatherOtherEntry(metadata, i, revisions, authors, others);
      if item == "pn" {
        others := others[item := Text(Display(contents) + "-" + SheetNameText(metadata))];
        continue;
      }
      others := others[item := contents];
    }
    assert metadata[..|metadata|] == metadata;
    return Success(TitleBlockData(revisions, authors, others));
  }

  const TitleblockRows := 9
  const AuthorRows := 4

  /** `n` empty records (none when `n` is not positive). */
  function Blanks(n: int): seq<Record>
  {
    seq(if n < 0 then 0 else n, _ => map[])
  }

  lemma ReverseBlanks(n: int)
    ensures Reverse(Blanks(n)) == Blanks(n)
  {
    var b := Blanks(n);
    forall k | 0 <= k < |b|
      ensures Reverse(b)[k] == b[k]
    {
      ReverseAt(b, k);
    }
  }

  function Max(a: int, b: int): int { if a < b then b else a }

  /** Pads the revisions with blank rows up to one less than the title
      block's rows, most recent first so that the blanks come on top, and
      the authors with blank rows up to four.  Longer lists are kept whole. */
  method PadTitleBlock(revisions: seq<Record>, authors: seq<Record>)
    returns (paddedRevisions: seq<Record>, paddedAuthors: seq<Record>)
    ensures paddedRevisions == Blanks(TitleblockRows - 1 - |revisions|) + Reverse(revisions)
    ensures |paddedRevisions| == Max(TitleblockRows - 1, |revisions|)
    ensures paddedAuthors == authors + Blanks(AuthorRows - |authors|)
    ensures |paddedAuthors| == Max(AuthorRows, |authors|)
  {
    var revs := revisions;
    var n := TitleblockRows - |revisions| - 1;
    var i := 0;
    while i < n
      invariant 0 <= i <= Max(n, 0)
      invariant revs == revisions + Blanks(i)
    {
      revs := revs + [map[]];
      i := i + 1;
    }
    assert Blanks(i) == Blanks(n);
    ReverseAppend(revisions, Blanks(n));
    ReverseBlanks(n);
    paddedRevisions := Reverse(revs);

    var auths := authors;
    var m := AuthorRows - |authors|;
    var j := 0;
    while j < m
      invariant 0 <= j <= Max(m, 0)
      invariant auths == authors + Blanks(j)
    {
      auths := auths + [map[]];
      j := j + 1;
    }
    assert Blanks(j) == Blanks(m);
    paddedAuthors := auths;
  }
}
