/** The payment extract report as a stream: lookups checked first, then rows buffered and drained in chunks. */
module CsvStream {
  import opened Options
  import opened Claims
  import opened PaymentExtract
  import opened Tables
  import opened ExtractReport
  import opened Assessments
  import opened Runs

  const ROWS_PER_CHUNK: nat := 500

  const HEADERS: seq<string> := [
    "Description", "Invoice Amount", "Invoice Date", "Invoice Type", "Invoice Num", "Vendor Name",
    "Vendor Site Code", "Case Reference", "Client Name", "Tax Code", "Model Number", "Provider Case Ref No"]

  const LINE_END: string := "\r\n"

  /** A line of the report; amount and date are already formatted. */
  datatype SourceLine = SourceLine(
    number: string,
    amount: string,
    date: string,
    tax: TaxCode,
    lineType: LineType,
    firmCode: string,
    officeId: string,
    laaReference: string,
    firstName: Option<string>,
    lastName: Option<string>)

  datatype Firm = Firm(number: string, name: Option<string>)

  datatype ReportError = FirmNameNotFound(firmCode: string) | Unclassifiable(lineType: LineType)

  // ----------------------------------------------------------------------- lookups

  /** What the provider service says of a firm: its last entry, which may have no name. */
  function FirmName(firms: seq<Firm>, code: string): Option<string> {
    if firms == [] then None
    else
      var last := firms[|firms| - 1];
      if last.number == code then last.name else FirmName(firms[..|firms| - 1], code)
  }

  /** The name of a firm is that of the last entry with its number. */
  lemma {:induction false} FirmNameExact(firms: seq<Firm>, code: string, name: string)
    ensures FirmName(firms, code) == Some(name) <==>
            exists k :: 0 <= k < |firms| && firms[k] == Firm(code, Some(name))
                        && forall j | k < j < |firms| :: firms[j].number != code
  {
    if firms != [] {
      var last := |firms| - 1;
      FirmNameExact(firms[..last], code, name);
      if firms[last].number != code {
        if FirmName(firms, code) == Some(name) {
          var k :| 0 <= k < last && firms[..last][k] == Firm(code, Some(name))
                   && forall j | k < j < last :: firms[..last][j].number != code;
          assert firms[k] == Firm(code, Some(name));
          assert forall j | k < j < last :: firms[j] == firms[..last][j];
        } else if k :| 0 <= k < |firms| && firms[k] == Firm(code, Some(name))
                       && forall j | k < j < |firms| :: firms[j].number != code {
          assert firms[..last][k] == Firm(code, Some(name));
        }
      }
    }
  }

  function Named(names: map<string, Option<string>>, code: string): Option<string> {
    if code in names then names[code] else None
  }

  method BuildFirmNameLookup(firmCodes: seq<string>, firms: seq<Firm>)
    returns (r: Result<map<string, Option<string>>, ReportError>)
    ensures r.Ok? <==> forall code | code in firmCodes :: FirmName(firms, code).Some?
    ensures r.Ok? ==> forall code :: Named(r.value, code) == if firmCodes == [] then None else FirmName(firms, code)
    ensures r.Err? ==> exists k :: 0 <= k < |firmCodes| && r.error == FirmNameNotFound(firmCodes[k])
                                   && FirmName(firms, firmCodes[k]).None?
                                   && forall i | 0 <= i < k :: FirmName(firms, firmCodes[i]).Some?
  {
    if firmCodes == [] {
      return Ok(map[]);
    }
    var names: map<string, Option<string>> := map[];
    for i := 0 to |firms|
      invariant forall code :: Named(names, code) == FirmName(firms[..i], code)
    {
      names := names[firms[i].number := firms[i].name];
      assert firms[..i + 1][..i] == firms[..i];
    }
    assert firms[..|firms|] == firms;
    for k := 0 to |firmCodes|
      invariant forall i | 0 <= i < k :: FirmName(firms, firmCodes[i]).Some?
    {
      if Named(names, firmCodes[k]).None? {
        return Err(FirmNameNotFound(firmCodes[k]));
      }
    }
    return Ok(names);
  }

  method BuildClassificationLookup(lineTypes: seq<LineType>)
    returns (r: Result<map<LineType, Classification>, ReportError>)
    ensures r.Ok? <==> forall t | t in lineTypes :: Classify(t).Some?
    ensures r.Ok? ==> (forall t :: t in r.value <==> t in lineTypes)
                      && forall t | t in r.value :: Classify(t) == Some(r.value[t])
    ensures r.Err? ==> exists k :: 0 <= k < |lineTypes| && r.error == Unclassifiable(lineTypes[k])
                                   && Classify(lineTypes[k]).None?
                                   && forall i | 0 <= i < k :: Classify(lineTypes[i]).Some?
  {
    var classifications: map<LineType, Classification> := map[];
    for k := 0 to |lineTypes|
      invariant forall t :: t in classifications <==> t in lineTypes[..k]
      invariant forall t | t in classifications :: Classify(t) == Some(classifications[t])
    {
      var classification := Classify(lineTypes[k]);
      if classification.None? {
        assert forall i | 0 <= i < k :: lineTypes[i] in lineTypes[..k];
        return Err(Unclassifiable(lineTypes[k]));
      }
      classifications := classifications[lineTypes[k] := classification.value];
    }
    return Ok(classifications);
  }

  // -------------------------------------------------------------------------- rows

  function Description(c: Classification): string {
    match c
    case FinalBillProfitCosts => "Profit costs"
    case PoaProfitCosts => "Profit costs (80%)"
    case Disbursements => "Expert costs"
  }

  function ModelNumber(c: Classification): string {
    if c.IsProfitCosts() then "Profit costs" else "Disbursements"
  }

  function InvoiceTypeText(t: InvoiceType): string {
    match t
    case FinalBillFees => "Inq Final Bill (Fees)"
    case FinalBillDisbursement => "Inq Final Bill (Disb)"
    case POA => "Inq POA"
    case Recouped => "Inq Recouped POA"
  }

  function TaxText(t: TaxCode): string {
    match t
    case GbVat20 => "GB VAT 20%"
    case ZeroVat => "ZERO VAT"
  }

  /** First and last name with a space between them; a missing or empty name leaves no space. */
  function ClientName(first: Option<string>, last: Option<string>): string {
    var f, l := first.GetOr(""), last.GetOr("");
    if f == "" then l else if l == "" then f else f + " " + l
  }

  function Cells(line: SourceLine, firmName: string, c: Classification): seq<string> {
    [Description(c), line.amount, line.date, InvoiceTypeText(line.lineType.kind), line.number, firmName,
     line.officeId, line.laaReference, ClientName(line.firstName, line.lastName), TaxText(line.tax), ModelNumber(c), ""]
  }

  /** None where the line was not checked beforehand. */
  function BuildRow(line: SourceLine, names: map<string, Option<string>>, classes: map<LineType,
                    Classification>): (row: Option<seq<string>>)
    ensures row.Some? <==> Named(names, line.firmCode).Some? && line.lineType in classes
    ensures row.Some? ==> |row.value| == |HEADERS|
  {
    var firmName := Named(names, line.firmCode);
    if firmName.None? || line.lineType !in classes then None
    else
      Some(Cells(line, firmName.value, classes[line.lineType]))
  }

  /** A row cell by cell, under the headers. */
  lemma RowCells(line: SourceLine, names: map<string, Option<string>>, classes: map<LineType, Classification>)
    requires BuildRow(line, names, classes).Some?
    ensures var row := BuildRow(line, names, classes).value;
            var c := classes[line.lineType];
            && |row| == |HEADERS| == 12
            && HEADERS[0] == "Description"
               && row[0] == (match c
                             case FinalBillProfitCosts => "Profit costs"
                             case PoaProfitCosts => "Profit costs (80%)"
                             case Disbursements => "Expert costs")
            && HEADERS[1] == "Invoice Amount" && row[1] == line.amount
            && HEADERS[2] == "Invoice Date" && row[2] == line.date
            && HEADERS[3] == "Invoice Type"
               && row[3] == (match line.lineType.kind
                             case FinalBillFees => "Inq Final Bill (Fees)"
                             case FinalBillDisbursement => "Inq Final Bill (Disb)"
                             case POA => "Inq POA"
                             case Recouped => "Inq Recouped POA")
            && HEADERS[4] == "Invoice Num" && row[4] == line.number
            && HEADERS[5] == "Vendor Name" && names[line.firmCode] == Some(row[5])
            && HEADERS[6] == "Vendor Site Code" && row[6] == line.officeId
            && HEADERS[7] == "Case Reference" && row[7] == line.laaReference
            && HEADERS[8] == "Client Name"
               && (match (line.firstName, line.lastName)
                   case (Some(f), Some(l)) => row[8] == f + (if f != "" && l != "" then " " else "") + l
                   case (Some(f), None) => row[8] == f
                   case (None, Some(l)) => row[8] == l
                   case (None, None) => row[8] == "")
            && HEADERS[9] == "Tax Code" && row[9] == (if line.tax == GbVat20 then "GB VAT 20%" else "ZERO VAT")
            && HEADERS[10] == "Model Number"
               && row[10] == (if c == Disbursements then "Disbursements" else "Profit costs")
            && HEADERS[11] == "Provider Case Ref No" && row[11] == ""
  {
  }

  /** The text of a row, cells rendered by `format`. */
  function RowText(format: seq<string> -> string, cells: seq<string>): (text: string)
    ensures text != ""
  {
    format(cells) + LINE_END
  }

  /** The text of each line, up to the first that was not checked beforehand. */
  function Texts(format: seq<string> -> string, lines: seq<SourceLine>,
                 names: map<string, Option<string>>, classes: map<LineType, Classification>): (texts: seq<string>)
    ensures |texts| <= |lines|
    ensures forall k | 0 <= k < |texts| ::
              BuildRow(lines[k], names, classes).Some?
              && texts[k] == RowText(format, BuildRow(lines[k], names, classes).value)
    ensures |texts| < |lines| ==> BuildRow(lines[|texts|], names, classes).None?
  {
    if lines == [] then []
    else
      var earlier := Texts(format, lines[..|lines| - 1], names, classes);
      var row := BuildRow(lines[|lines| - 1], names, classes);
      if |earlier| < |lines| - 1 || row.None? then earlier else earlier + [RowText(format, row.value)]
  }

  lemma TextsComplete(format: seq<string> -> string, lines: seq<SourceLine>,
                      names: map<string, Option<string>>, classes: map<LineType, Classification>)
    ensures |Texts(format, lines, names, classes)| == |lines| <==>
            forall k | 0 <= k < |lines| :: Named(names, lines[k].firmCode).Some? && lines[k].lineType in classes
  {
    hide BuildRow, Named;
  }

  // ------------------------------------------------------------------------ chunks

  function Concat(texts: seq<string>): string {
    if texts == [] then "" else Concat(texts[..|texts| - 1]) + texts[|texts| - 1]
  }

  function Min(a: nat, b: nat): nat { if a <= b then a else b }

  /** A stretch of rows, with the header in front of the first. */
  function Segment(header: string, texts: seq<string>, from: nat, to: nat): string
    requires from <= to <= |texts|
  {
    (if from == 0 then header else "") + Concat(texts[from..to])
  }

  /** The i-th chunk: up to 500 rows. */
  function Chunk(header: string, texts: seq<string>, i: nat): string
    requires ROWS_PER_CHUNK * i <= |texts|
  {
    Segment(header, texts, ROWS_PER_CHUNK * i, Min(ROWS_PER_CHUNK * (i + 1), |texts|))
  }

  function Chunks(header: string, texts: seq<string>, count: nat): (chunks: seq<string>)
    requires count > 0 ==> ROWS_PER_CHUNK * (count - 1) <= |texts|
    ensures |chunks| == count
  {
    seq(count, i requires 0 <= i < count => Chunk(header, texts, i))
  }

  /** How many chunks n rows take: the header alone is one, and nothing follows a full last chunk. */
  function ChunkCount(n: nat): (count: nat)
    ensures n == 0 ==> count == 1
    ensures n > 0 ==> ROWS_PER_CHUNK * (count - 1) < n <= ROWS_PER_CHUNK * count
  {
    if n == 0 then 1 else (n - 1) / ROWS_PER_CHUNK + 1
  }

  // ------------------------------------------------------------------------ buffer

  function Zeros(n: nat): string { seq(n, _ => '\0') }

  /** A text buffer after a write: a gap before the position is filled with zeros, later text overwritten. */
  function Overwritten(contents: string, position: nat, text: string): string {
    if text == "" then contents
    else
      var padded := if position <= |contents| then contents else contents + Zeros(position - |contents|);
      padded[..position] + text + if position + |text| <= |padded| then padded[position + |text|..] else ""
  }

  class TextBuffer {
    var contents: string
    var position: nat

    constructor ()
      ensures contents == "" && position == 0
    {
      contents, position := "", 0;
    }

    method Write(text: string)
      modifies this
      ensures contents == Overwritten(old(contents), old(position), text)
      ensures position == old(position) + |text|
    {
      if text != "" {
        if position > |contents| {
          contents := contents + Zeros(position - |contents|);
        }
        contents :=
          contents[..position] + text + if position + |text| <= |contents| then contents[position + |text|..] else "";
      }
      position := position + |text|;
    }

    method Seek(target: nat)
      modifies this`position
      ensures position == target
    {
      position := target;
    }

    method Truncate(size: nat)
      modifies this`contents
      ensures contents == if size <= |old(contents)| then old(contents)[..size] else old(contents)
    {
      if size <= |contents| {
        contents := contents[..size];
      }
    }

    /** Everything written since the last drain; the buffer is as new afterwards. */
    method Drain() returns (content: string)
      modifies this
      ensures content == old(contents)
      ensures contents == "" && position == 0
    {
      content := contents;
      Seek(0);
      Truncate(0);
    }
  }

  // ------------------------------------------------------------------------ stream

  /**
   The stream: all chunks when every line was checked beforehand; otherwise it breaks off
   at the first line that was not, and the rows since the last full chunk are never sent.
   */
  method StreamCsv(format: seq<string> -> string, lines: seq<SourceLine>,
                   names: map<string, Option<string>>, classes: map<LineType, Classification>)
    returns (chunks: seq<string>, outcome: Outcome)
    ensures outcome == Pass <==>
            forall k | 0 <= k < |lines| :: Named(names, lines[k].firmCode).Some? && lines[k].lineType in classes
    ensures var texts := Texts(format, lines, names, classes);
            var header := RowText(format, HEADERS);
            && (outcome == Pass ==> |texts| == |lines| && chunks == Chunks(header, texts, ChunkCount(|lines|)))
            && (outcome == Raised ==> chunks == Chunks(header, texts, |texts| / ROWS_PER_CHUNK))
  {
    hide Segment, Chunks, Chunk, Overwritten, Concat, BuildRow, RowText, Texts, Cells, Named;
    TextsComplete(format, lines, names, classes);
    var buffer := new TextBuffer();
    var header := RowText(format, HEADERS);
    buffer.Write(header);
    ghost var texts := Texts(format, lines, names, classes);
    chunks := [];
    var rowCount := 0;
    BeforeFirstRow(header, texts);
    while rowCount < |lines|
      invariant rowCount <= |texts|
      invariant buffer.position == |buffer.contents|
      invariant buffer.contents == Segment(header, texts, Drained(rowCount), rowCount)
      invariant chunks == Chunks(header, texts, rowCount / ROWS_PER_CHUNK)
      invariant fresh(buffer)
      decreases |lines| - rowCount
    {
      var row := BuildRow(lines[rowCount], names, classes);
      if row.None? {
        return chunks, Raised;
      }
      AfterRow(header, texts, rowCount);
      AppendAtEnd(buffer.contents, RowText(format, row.value));
      buffer.Write(RowText(format, row.value));
      rowCount := rowCount + 1;
      if rowCount % ROWS_PER_CHUNK == 0 {
        var chunk := buffer.Drain();
        chunks := chunks + [chunk];
      }
    }
    var remaining := buffer.Drain();
    AfterLastRow(header, texts);
    if remaining != "" {
      chunks := chunks + [remaining];
    }
    return chunks, Pass;
  }

  /** How many of n rows have left the buffer. */
  function Drained(n: nat): nat { n - n % ROWS_PER_CHUNK }

  lemma BeforeFirstRow(header: string, texts: seq<string>)
    ensures Overwritten("", 0, header) == header == Segment(header, texts, 0, 0)
    ensures Chunks(header, texts, 0) == []
  {
    assert Concat(texts[0..0]) == "";
  }

  lemma AfterRow(header: string, texts: seq<string>, n: nat)
    requires n < |texts|
    ensures var written := Segment(header, texts, Drained(n), n) + texts[n];
            if (n + 1) % ROWS_PER_CHUNK != 0
            then written == Segment(header, texts, Drained(n + 1), n + 1)
                 && (n + 1) / ROWS_PER_CHUNK == n / ROWS_PER_CHUNK
            else Segment(header, texts, Drained(n + 1), n + 1) == ""
                 && Chunks(header, texts, n / ROWS_PER_CHUNK) + [written]
                    == Chunks(header, texts, (n + 1) / ROWS_PER_CHUNK)
  {
    SegmentGrows(header, texts, Drained(n), n);
    if (n + 1) % ROWS_PER_CHUNK == 0 {
      ChunksGrow(header, texts, n / ROWS_PER_CHUNK);
      assert Concat(texts[n + 1..n + 1]) == "";
    }
  }

  lemma AfterLastRow(header: string, texts: seq<string>)
    requires header != "" && forall k | 0 <= k < |texts| :: texts[k] != ""
    ensures var n := |texts|;
            var sent := Chunks(header, texts, n / ROWS_PER_CHUNK);
            var remaining := Segment(header, texts, Drained(n), n);
            && (n / ROWS_PER_CHUNK > 0 ==> ROWS_PER_CHUNK * (n / ROWS_PER_CHUNK - 1) <= n)
            && (if remaining != "" then sent + [remaining] else sent) == Chunks(header, texts, ChunkCount(n))
  {
    hide Segment, Chunks;
    var n := |texts|;
    SegmentNonEmpty(header, texts, Drained(n), n);
    ChunksGrow(header, texts, n / ROWS_PER_CHUNK);
  }

  lemma AppendAtEnd(contents: string, text: string)
    ensures Overwritten(contents, |contents|, text) == contents + text
  {
  }

  lemma ChunksGrow(header: string, texts: seq<string>, count: nat)
    requires ROWS_PER_CHUNK * count <= |texts|
    ensures Chunks(header, texts, count) + [Chunk(header, texts, count)] == Chunks(header, texts, count + 1)
  {
    hide Chunk;
  }

  lemma SegmentGrows(header: string, texts: seq<string>, from: nat, n: nat)
    requires from <= n < |texts|
    ensures Segment(header, texts, from, n) + texts[n] == Segment(header, texts, from, n + 1)
  {
    var longer := texts[from..n + 1];
    assert longer[..|longer| - 1] == texts[from..n];
    assert longer[|longer| - 1] == texts[n];
  }

  lemma SegmentsJoin(header: string, texts: seq<string>, from: nat, to: nat)
    requires 0 < from <= to <= |texts|
    ensures Segment(header, texts, 0, from) + Segment(header, texts, from, to) == Segment(header, texts, 0, to)
  {
    ConcatAppend(texts[..from], texts[from..to]);
    assert texts[..to] == texts[..from] + texts[from..to];
  }

  lemma SegmentNonEmpty(header: string, texts: seq<string>, from: nat, to: nat)
    requires from <= to <= |texts| && header != "" && forall k | 0 <= k < |texts| :: texts[k] != ""
    ensures Segment(header, texts, from, to) == "" <==> from == to > 0
  {
    var part := texts[from..to];
    if from < to {
      assert part[|part| - 1] == texts[to - 1];
      assert |Concat(part)| >= |part[|part| - 1]|;
    }
  }

  // ------------------------------------------------------------------ main results

  lemma {:induction false} ConcatAppend(a: seq<string>, b: seq<string>)
    ensures Concat(a + b) == Concat(a) + Concat(b)
  {
    if b == [] {
      assert a + b == a;
    } else {
      assert (a + b)[..|a + b| - 1] == a + b[..|b| - 1];
      ConcatAppend(a, b[..|b| - 1]);
    }
  }

  lemma {:induction false} ChunksHoldRows(header: string, texts: seq<string>, count: nat)
    requires count > 0 && ROWS_PER_CHUNK * (count - 1) <= |texts|
    ensures Concat(Chunks(header, texts, count)) == Segment(header, texts, 0, Min(ROWS_PER_CHUNK * count, |texts|))
  {
    hide Segment;
    var all := Chunks(header, texts, count);
    var from, to := ROWS_PER_CHUNK * (count - 1), Min(ROWS_PER_CHUNK * count, |texts|);
    assert all[..count - 1] == Chunks(header, texts, count - 1);
    assert all[count - 1] == Segment(header, texts, from, to);
    if count == 1 {
      assert all[..0] == [];
    } else {
      ChunksHoldRows(header, texts, count - 1);
      SegmentsJoin(header, texts, from, to);
    }
  }

  /** Whatever the rows, the chunks together are the header and all rows written at once. */
  lemma StreamIsWhole(header: string, texts: seq<string>)
    ensures Concat(Chunks(header, texts, ChunkCount(|texts|))) == header + Concat(texts)
  {
    ChunksHoldRows(header, texts, ChunkCount(|texts|));
    assert texts[..|texts|] == texts;
  }

  /** No chunk is empty, and every chunk but the last carries exactly 500 rows. */
  lemma ChunksAreFull(header: string, texts: seq<string>, i: nat)
    requires header != "" && forall k | 0 <= k < |texts| :: texts[k] != ""
    requires i < ChunkCount(|texts|)
    ensures 500 * i <= |texts| && Chunk(header, texts, i) != ""
    ensures i + 1 < ChunkCount(|texts|) ==>
              && 500 * (i + 1) < |texts|
              && Chunk(header, texts, i) == (if i == 0 then header else "") + Concat(texts[500 * i..500 * (i + 1)])
  {
    SegmentNonEmpty(header, texts, ROWS_PER_CHUNK * i, Min(ROWS_PER_CHUNK * (i + 1), |texts|));
  }

  // ------------------------------------------------------------------------ report

  datatype Generated = Streamed(chunks: seq<string>, outcome: Outcome) | NotStarted(error: ReportError)

  /** The whole use case, from the three answers of the database and the one of the provider service. */
  method Execute(format: seq<string> -> string, firmCodes: seq<string>, firms: seq<Firm>,
                 lineTypes: seq<LineType>, lines: seq<SourceLine>)
    returns (r: Generated)
    ensures r.Streamed? <==> (forall code | code in firmCodes :: FirmName(firms, code).Some?)
                             && (forall t | t in lineTypes :: Classify(t).Some?)
    ensures r.Streamed? ==>
              (r.outcome == Pass <==>
                 forall k | 0 <= k < |lines| ::
                   firmCodes != [] && FirmName(firms, lines[k].firmCode).Some? && lines[k].lineType in lineTypes)
    ensures r.Streamed? && r.outcome == Raised ==> ROWS_PER_CHUNK * |r.chunks| < |lines|
    ensures r.Streamed? && PreChecked(lines, firmCodes, lineTypes) ==>
              && r.outcome == Pass
              && |r.chunks| == ChunkCount(|lines|)
              && exists texts :: WrittenAtOnce(format, lines, firms, texts)
                                 && Concat(r.chunks) == format(HEADERS) + "\r\n" + Concat(texts)
  {
    var names := BuildFirmNameLookup(firmCodes, firms);
    if names.Err? {
      return NotStarted(names.error);
    }
    var classes := BuildClassificationLookup(lineTypes);
    if classes.Err? {
      return NotStarted(classes.error);
    }
    var chunks, outcome := StreamCsv(format, lines, names.value, classes.value);
    ghost var texts := Texts(format, lines, names.value, classes.value);
    if PreChecked(lines, firmCodes, lineTypes) {
      LookupsAreDirect(format, lines, firms, names.value, classes.value);
      hide Chunks, Concat, Texts, RowText, BuildRow, WrittenAtOnce;
      StreamIsWhole(RowText(format, HEADERS), texts);
    }
    return Streamed(chunks, outcome);
  }

  lemma LookupsAreDirect(format: seq<string> -> string, lines: seq<SourceLine>, firms: seq<Firm>,
                         names: map<string, Option<string>>, classes: map<LineType, Classification>)
    requires forall k | 0 <= k < |lines| ::
               && Named(names, lines[k].firmCode) == FirmName(firms, lines[k].firmCode)
               && Named(names, lines[k].firmCode).Some?
               && lines[k].lineType in classes && Classify(lines[k].lineType) == Some(classes[lines[k].lineType])
    ensures |Texts(format, lines, names, classes)| == |lines|
    ensures WrittenAtOnce(format, lines, firms, Texts(format, lines, names, classes))
  {
    hide Texts, Cells, Named, FirmName;
  }

  /** The checked codes and types cover the lines, as when all come from the same rows. */
  predicate PreChecked(lines: seq<SourceLine>, firmCodes: seq<string>, lineTypes: seq<LineType>) {
    forall k | 0 <= k < |lines| :: lines[k].firmCode in firmCodes && lines[k].lineType in lineTypes
  }

  /** One row for each line, named and classified directly, without lookups. */
  ghost predicate WrittenAtOnce(format: seq<string> -> string, lines: seq<SourceLine>, firms: seq<Firm>,
                                texts: seq<string>) {
    && |texts| == |lines|
    && forall k | 0 <= k < |lines| ::
         && FirmName(firms, lines[k].firmCode).Some? && Classify(lines[k].lineType).Some?
         && texts[k]
            == format(Cells(lines[k], FirmName(firms, lines[k].firmCode).value, Classify(lines[k].lineType).value))
               + "\r\n"
  }

  // ----------------------------------------------------- what the three queries read

  /** The types of the lines a window holds; the queries return each once, in any order. */
  function LineTypes(db: Database, from: int, before: int): seq<LineType> {
    var rows := Report(db, InWindow(db.ledger, from, before));
    seq(|rows|, k requires 0 <= k < |rows| => rows[k].lineType)
  }

  /** The lines of a window; `describe` adds what the joined tables know of the provider, client and case. */
  function SourceLines(describe: ReportRow -> SourceLine, db: Database, from: int, before: int): seq<SourceLine> {
    var rows := Report(db, InWindow(db.ledger, from, before));
    seq(|rows|, k requires 0 <= k < |rows| => describe(rows[k]))
  }

  function FirmCodes(describe: ReportRow -> SourceLine, db: Database, from: int, before: int): seq<string> {
    var lines := SourceLines(describe, db, from, before);
    seq(|lines|, k requires 0 <= k < |lines| => lines[k].firmCode)
  }

  /** Read from one state of the database the lookups cover all lines, so the stream never breaks off. */
  lemma OneStateIsPreChecked(describe: ReportRow -> SourceLine, db: Database, from: int, before: int)
    requires forall row: ReportRow :: describe(row).lineType == row.lineType
    ensures PreChecked(SourceLines(describe, db, from, before), FirmCodes(describe, db, from, before),
                       LineTypes(db, from, before))
  {
    var lines := SourceLines(describe, db, from, before);
    forall k | 0 <= k < |lines|
      ensures lines[k].firmCode in FirmCodes(describe, db, from, before)
              && lines[k].lineType in LineTypes(db, from, before)
    {
      assert FirmCodes(describe, db, from, before)[k] == lines[k].firmCode;
      assert LineTypes(db, from, before)[k] == lines[k].lineType;
    }
  }

  /**
   Of every ledger a run can reach, the line types of any window classify, so only a missing firm name stops its
   report.
   */
  lemma EveryRunClassifies(applications: seq<Application>, actions: seq<Action>, from: int, before: int,
                           lineTypes: seq<LineType>)
    requires var db := After(applications, actions).db;
             forall t | t in lineTypes :: exists k :: 0 <= k < |Report(db, InWindow(db.ledger, from, before))|
                                                      && t == Report(db, InWindow(db.ledger, from, before))[k].lineType
    ensures forall t | t in lineTypes :: Classify(t).Some?
  {
    EveryRunReportedOnce(applications, actions, from, before);
  }
}
