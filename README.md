# WireViz edge derivation and HTML output shaping, in Dafny

WireViz turns a textual description of a wiring harness into a Graphviz
diagram and an HTML page with a bill of materials (BOM) and a title block.
This project models two parts of that pipeline and proves properties of
them.

- **Edge derivation** (`src/wireviz/wv_graphviz.py`), in `graphviz.dfy`:
  - the self-edges that draw a connector's internal loops;
  - the colour and the four endpoint codes of a wire edge;
  - the direction of an arrow marker such as `<==>`;
  - the colour, direction and endpoint codes of a mate edge.
- **Endpoint syntax**, in `ports.dfy`. Every endpoint code has the DOT form
  `node:port:compass`, and `Ports.Address` holds it as a value.
  - `Ports.Render` writes an address as text.
  - `Ports.Parse` reads one back and is the independent reference.
  - `Ports.ParseRender` proves that the two round-trip.
  - The edge builders are checked through that round-trip. So the
    lemmas say which node, port and compass point each code names, not
    just which characters it holds.
- **HTML output shaping** (`src/wireviz/wv_output.py`), in `output.dfy`:
  - the MIME subtype of an image file name;
  - the BOM header row, the data rows, and the normal and bottom-up tables;
  - the sheet numbers, the page template name and the sheet size, read
    from the metadata;
  - the title-block data: the revisions and authors tables re-keyed as
    lists, and the part number suffixed with the sheet name;
  - the padding of the revisions and authors to fixed row counts.
- **Helpers**: `strings.dfy` holds stand-ins for the Python built-ins the
  code uses (`str()` of an integer, `lower`, `join`, `reversed`). It also
  holds `Split`, which reads a Graphviz colour list back into its bands and
  serves as the reference for the edge colours, and `LastIndexOf`, which
  finds the last dot of a file name as `Path.suffix` does.
  `wrappers.dfy` holds `Option` and `Result`.

Python exceptions become `Failure` values:

| source exception | modelled as |
|---|---|
| "No side for loops" | `NoSideForLoops` |
| a `KeyError` for an unknown connector | `MissingConnector` |
| an unknown kind of mate | `UnknownMate` |
| a missing sheet key | `MissingKey` |
| a metadata value used as a mapping when it is not one | `NotAMapping` |
| a BOM row longer than the header (`IndexError`) | `ColumnWithoutHeader` |

Code that builds a value with a loop is a `method`. Each such method is
proved against a specification function:

- `ConnectorLoops`
- `BomHeaderHtml`, `BomRowHtml` and `BomContents`
- `CollectMetadata`
- `PadTitleBlock`

Code written as single expressions is a `function`, with lemmas that relate
it to its partner:

- a parser, for the endpoint codes and arrow markers;
- `Split` on `:`, for Graphviz colour lists;
- reversal, for the two BOM tables;
- a reading of the file name as directory, stem and extension, for the
  MIME subtype.

The metadata is modelled as the ordered list of its `(key, value)` entries.
Looking a key up returns the value of the last entry for it, as when a
mapping is built entry by entry.

## Model

| member | source | states |
|---|---|---|
| Ports.ParseRender | src/wireviz/wv_graphviz.py:79-80 | Every `node:port:compass` code whose node name has no ':' parses back to the same node, port and compass, so two such codes with the same text name the same endpoint. |
| Graphviz.ConnectorLoops | src/wireviz/wv_graphviz.py:68-82 | Fails with "no side for loops" exactly when the connector has neither left nor right ports. Otherwise it gives one (head, tail) pair per loop, in order. Both ends use the loop's pins on the left side facing west when left ports exist, else on the right side facing east. |
| Graphviz.EdgeWire | src/wireviz/wv_graphviz.py:85-115 | Fails with a missing-connector error exactly when a present pin names a connector that is not in the harness; the left pin is looked up first. Otherwise the left codes are present iff the left pin is, and they are the pin's right port (index + 1, no port for a simple connector) facing east, then the wire's port (index + 1) facing west. The right codes mirror this. |
| Graphviz.EdgeWireColor | src/wireviz/wv_graphviz.py:86-90 | As a Graphviz colour list, a wire edge's colour is one black band, the wire's own colours, and one black band. A shield edge is a single black band. |
| Graphviz.EdgeWireLeftEndpoints | src/wireviz/wv_graphviz.py:92-102 | The left codes are present iff the left pin is. Parsed, they name the left pin's right-hand port (index + 1, none for a simple connector) facing east, and the wire's port (index + 1) facing west. |
| Graphviz.EdgeWireRightEndpoints | src/wireviz/wv_graphviz.py:104-113 | The right codes are present iff the right pin is. Parsed, they name the wire's port (index + 1) facing east, and the right pin's left-hand port (index + 1, none for a simple connector) facing west. |
| Graphviz.EdgeWireSidesIndependent | src/wireviz/wv_graphviz.py:92-113 | The left codes depend only on the wire and the left pin; the right codes depend only on the wire and the right pin. |
| Graphviz.ParseArrow | src/wireviz/wv_graphviz.py:118-126 | The direction is both, back, forward or none, each exactly when the marker's first character is or is not '<' and its last is or is not '>', in the four combinations. |
| Graphviz.ParseArrowMarker | src/wireviz/wv_graphviz.py:118-126 | Parsing the marker written for a direction, around any shaft that neither starts with '<' nor ends with '>', gives back that direction. |
| Graphviz.EdgeMate | src/wireviz/wv_graphviz.py:129-155 | Fails exactly for a mate that joins neither pins nor connectors. The `dir` is the lower-case direction name. For pins, the codes are the first pin's right port (index + 1) facing east and the second pin's left port facing west. For connectors, they are the two designators with no port. |
| Graphviz.EdgeMateColor | src/wireviz/wv_graphviz.py:130-133 | As a colour list, a mate edge has one black band for a single arrow and two for a double one. |
| Graphviz.EdgeMateEndpoints | src/wireviz/wv_graphviz.py:137-153 | Parsed, the mate codes name the two mated pins (right-hand port then left-hand port, index + 1) or the two mated connectors without a port. |
| Output.MimeSubtype | src/wireviz/wv_output.py:43-47 | The subtype holds no '.', no '/' and no upper-case letter. It is never `jpg` or `tif`, which are respelled `jpeg` and `tiff`. |
| Output.MimeSubtypeOfFile | src/wireviz/wv_output.py:43-47 | For a file `<dir>/<stem>.<ext>` with a non-empty stem, the subtype is the extension lower-cased and respelled through the replacement table, whatever dots the stem holds. |
| Output.MimeSubtypeWithoutExtension | src/wireviz/wv_output.py:43-44 | A file whose name has no '.' has the empty subtype. |
| Output.MimeSubtypeOfTrailingDot | src/wireviz/wv_output.py:43-44 | A file `<dir>/<stem>.` whose name ends in a dot after a non-empty stem has the empty subtype. |
| Output.MimeSubtypeIdempotent | src/wireviz/wv_output.py:15 | Taking a computed subtype as a file extension gives the same subtype again. |
| Output.BomHeaderHtml | src/wireviz/wv_output.py:92-96 | The header row is the header cells in order between `<tr>` and `</tr>`. Each cell's class is `bom_col_` plus its lower-cased text. |
| Output.BomRowHtml | src/wireviz/wv_output.py:101-105 | Fails exactly when the row is longer than the header. Otherwise it gives the row's cells in order, each with the class of the header column above it; a missing value is written as empty text. |
| Output.BomContents | src/wireviz/wv_output.py:99-106 | Fails exactly when some row is longer than the header, and then names the first such row and the first column without a header. Otherwise it gives one rendered row per BOM row, in order. |
| Output.MissingCellIsBlank | src/wireviz/wv_output.py:104 | A missing BOM value renders exactly like an empty one. |
| Output.BomTables | src/wireviz/wv_output.py:108-116 | The normal table is the header row then the data rows. The bottom-up table is the same rows, header included, in reverse order. |
| Output.BomTablesMirror | src/wireviz/wv_output.py:108-116 | Row k of the bottom-up table is row k from the end of the normal table, so the header comes last. Reversing its rows again gives the normal table. |
| Output.LookupIsLast | src/wireviz/wv_output.py:119-120 | A key's value is that of its last entry: no later entry has the same key, as in a mapping built entry by entry. |
| Output.SheetNumbers | src/wireviz/wv_output.py:118-123 | Empty metadata gives sheet 1 of 1. Otherwise the result is the metadata's own `sheet_current` and `sheet_total`. A missing key is an error naming `sheet_current` first, as it is read first. |
| Output.TemplateName | src/wireviz/wv_output.py:78 | The template's `name`. Falls back to `simple` when there is no template or it has no name, and fails exactly when the template is not a mapping. |
| Output.SheetSize | src/wireviz/wv_output.py:160-162 | Empty metadata sets no sheet size. Otherwise the sheet size is the template's `sheetsize`, or `sheetsize_default` when there is no template or it has none. A template that is not a mapping is an error. |
| Output.CollectMetadata | src/wireviz/wv_output.py:138-158 | Succeeds exactly when every revisions and authors entry is a mapping of mappings; a failure names the first entry that is not. Revisions and authors become lists of records keyed `rev` and `row`, each with the record's own fields. Every other key is kept with its value, except `pn`, which is suffixed with `-` and the sheet name (`None` when absent). |
| Output.PadTitleBlock | src/wireviz/wv_output.py:165-171 | The revisions are padded with blank rows up to 8 (titleblock rows minus one) and then reversed, so the blanks come first. The authors are padded up to 4. Longer lists are kept whole. |
| Strings.ParseNatToString | src/wireviz/wv_graphviz.py:94 | Reading back the decimal text of a pin or wire number gives the number. |

## Left out

- Node rendering (`gv_node_*`), `set_dot_basics`, SVG image embedding,
  template loading, file reading and writing, and the command line. They
  are template-driven or I/O; only the pure shaping is modelled.
- `wv_dataclasses.py` is not part of this model. Connectors, cables,
  connections and mates are reduced to the fields the edge builders read.
- Graphviz.EdgeWire: takes the wire's padded colour text as given. Colour
  canonicalisation and `html_padded` are not modelled. A colour's
  truthiness is modelled as presence.
- Graphviz.EdgeWire: the unused `cable` parameter is dropped.
- Graphviz.ConnectorLoops: loop pins are natural numbers written as given.
  The pin-name checks done when the harness is built are not modelled.
- Graphviz.ParseArrow: requires a non-empty marker. The source indexes
  `inp[0]` and would raise on an empty one.
- Graphviz.EdgeMate: arrow weights other than single and double cannot
  occur in the model.
- Output.MimeSubtype: lower-casing covers ASCII letters only. Path handling
  covers `/` separators and trailing slashes, not other `pathlib`
  normalisation.
- Output.Display: `str()` of a metadata value covers text and integers. A
  nested mapping shows as empty text, and floats and booleans are not
  modelled.
- Output.MetaValue: has no variant for a list, a file path or a YAML null.
  The command line always adds `output_dir` (a path) and `output_names` (a
  list) to the metadata, and `titlepage` (a path) when several files are
  given. `CollectMetadata` would copy them unchanged, but
  the model cannot hold them, and `str()` of them is not modelled.
- Output.BomHeaderHtml and Output.BomRowHtml: the `bom_col_` classes are
  lower-cased with ASCII-only `Lower`. Python's `str.lower` also lowers
  non-ASCII letters.
- Output.BomHeaderHtml: the header row is passed separately from the data
  rows. The `IndexError` on an empty BOM is not modelled.
- Output.CollectMetadata: a metadata key may repeat in the model's list of
  entries, and lookups take its last value. A Python mapping's keys are
  unique.
- The order in which `generate_html_output` hits its errors is not
  modelled; each step's error condition is stated on its own. The merge
  of the replacements dictionary and the template rendering are not
  modelled.
