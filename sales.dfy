/** The sales-data handler: CSV ingestion into the sales table, single-record
    insertion, per-product listing and the table summary. */
module Sales {
  import opened Wrappers
  import opened Js
  import opened Text
  import opened Store

  /** One item of the sales table. */
  datatype SalesItem = SalesItem(
    product_id: string,
    date: string,
    quantity_sold: real,
    price: real,
    revenue: real,
    created_at: string)

  function SalesPk(productId: string): string {
    "SALES#" + productId
  }

  /** `PK: SALES#<product_id>`, `SK: DATE#<date>` */
  function SalesKey(r: SalesItem): Key {
    (SalesPk(r.product_id), "DATE#" + r.date)
  }

  const RequiredHeaders: seq<string> := ["product_id", "date", "quantity_sold", "price"]

  datatype Summary = Summary(
    totalRecords: nat,
    totalRevenue: real,
    uniqueProducts: nat,
    earliest: Option<string>,
    latest: Option<string>)

  /** The handler's responses, each with its status code. */
  datatype SalesReply =
    | Preflight
    | MethodNotAllowed
    | InternalError
    | CsvRequired
    | InvalidCsvFormat
    | HeadersMissing(missing: seq<string>, expected: seq<string>, found: seq<string>)
    | Uploaded(processed: nat, errors: nat, errorDetails: seq<string>)
    | MissingFields
    | Created(record: SalesItem)
    | SalesData(salesData: seq<SalesItem>)
    | SummaryReport(summary: Summary)
  {
    function StatusCode(): int {
      match this
      case Preflight => 200
      case MethodNotAllowed => 405
      case InternalError => 500
      case CsvRequired => 400
      case InvalidCsvFormat => 400
      case HeadersMissing(_, _, _) => 400
      case Uploaded(_, _, _) => 200
      case MissingFields => 400
      case Created(_) => 201
      case SalesData(_) => 200
      case SummaryReport(_) => 200
    }
  }

  // ---------------------------------------------------------------------
  // CSV parsing

  /** `csvData.split('\n').filter(line => line.trim())` keeps the lines that
      are not blank (`Trim` is empty exactly on blank text), in order: a
      single line is kept exactly when it is not blank, and
      `NonBlankLinesAppend` distributes the filter over `+`. */
  function NonBlankLines(lines: seq<string>): (r: seq<string>)
    ensures |r| <= |lines|
    ensures forall i :: 0 <= i < |r| ==> !IsBlank(r[i])
    ensures forall l :: l in r <==> l in lines && !IsBlank(l)
    ensures |lines| == 1 ==> r == (if IsBlank(lines[0]) then [] else lines)
  {
    if lines == [] then []
    else
      assert |lines| == 1 ==> lines[1..] == [];
      (if IsBlank(lines[0]) then [] else [lines[0]]) + NonBlankLines(lines[1..])
  }

  /** Filtering a concatenation filters each part. */
  lemma {:induction false} NonBlankLinesAppend(a: seq<string>, b: seq<string>)
    ensures NonBlankLines(a + b) == NonBlankLines(a) + NonBlankLines(b)
  {
    if a == [] {
      assert a + b == b;
    } else {
      var head := if IsBlank(a[0]) then [] else [a[0]];
      ConsAppend(a, b);
      NonBlankLinesAppend(a[1..], b);
      AppendAssoc(head, NonBlankLines(a[1..]), NonBlankLines(b));
    }
  }

  /** Nothing is left of lines that are all blank. */
  lemma {:induction false} NonBlankLinesAllBlank(lines: seq<string>)
    requires forall i :: 0 <= i < |lines| ==> IsBlank(lines[i])
    ensures NonBlankLines(lines) == []
  {
    if lines != [] {
      NonBlankLinesAllBlank(lines[1..]);
    }
  }

  /** A string is already trimmed. */
  predicate NoOuterSpace(s: string) {
    s == "" || (!IsWhitespace(s[0]) && !IsWhitespace(s[|s| - 1]))
  }

  /** `headerLine.split(',').map(h => h.trim().toLowerCase())`: one token per
      comma-separated field, that field trimmed and lower-cased. */
  function HeaderTokens(line: string): (hs: seq<string>)
    ensures |hs| == |Split(line, ',')|
    ensures forall i :: 0 <= i < |hs| ==> hs[i] == ToLower(Trim(Split(line, ',')[i]))
  {
    var parts := Split(line, ',');
    seq(|parts|, i requires 0 <= i < |parts| => ToLower(Trim(parts[i])))
  }

  /** `wanted.filter(h => !hs.includes(h))`: a single wanted name is kept
      exactly when it is absent, and `AbsentFromAppend` distributes the
      filter over `+`. */
  function AbsentFrom(wanted: seq<string>, hs: seq<string>): (r: seq<string>)
    ensures forall h :: h in r <==> h in wanted && h !in hs
    ensures |wanted| == 1 ==> r == (if wanted[0] in hs then [] else wanted)
  {
    if wanted == [] then []
    else
      assert |wanted| == 1 ==> wanted[1..] == [];
      (if wanted[0] in hs then [] else [wanted[0]]) + AbsentFrom(wanted[1..], hs)
  }

  /** Filtering a concatenation filters each part. */
  lemma {:induction false} AbsentFromAppend(a: seq<string>, b: seq<string>, hs: seq<string>)
    ensures AbsentFrom(a + b, hs) == AbsentFrom(a, hs) + AbsentFrom(b, hs)
  {
    if a == [] {
      assert a + b == b;
    } else {
      var head := if a[0] in hs then [] else [a[0]];
      ConsAppend(a, b);
      AbsentFromAppend(a[1..], b, hs);
      AppendAssoc(head, AbsentFrom(a[1..], hs), AbsentFrom(b, hs));
    }
  }

  /** What the filter keeps of a ranked list's tail ranks above its head. */
  lemma AbsentFromTailRanked(wanted: seq<string>, hs: seq<string>, rank: string -> int)
    requires wanted != []
    requires forall i, j :: 0 <= i < j < |wanted| ==> rank(wanted[i]) < rank(wanted[j])
    ensures forall m :: 0 <= m < |AbsentFrom(wanted[1..], hs)| ==> rank(wanted[0]) < rank(AbsentFrom(wanted[1..], hs)[m])
  {
    var tail := wanted[1..];
    var rest := AbsentFrom(tail, hs);
    forall m | 0 <= m < |rest| ensures rank(wanted[0]) < rank(rest[m]) {
      assert rest[m] in rest;
      var k :| 0 <= k < |tail| && tail[k] == rest[m];
      assert tail[k] == wanted[k + 1];
    }
  }

  /** The filter keeps the order of the wanted list. */
  lemma {:induction false} AbsentFromRanked(wanted: seq<string>, hs: seq<string>, rank: string -> int)
    requires forall i, j :: 0 <= i < j < |wanted| ==> rank(wanted[i]) < rank(wanted[j])
    ensures forall i, j :: 0 <= i < j < |AbsentFrom(wanted, hs)| ==>
      rank(AbsentFrom(wanted, hs)[i]) < rank(AbsentFrom(wanted, hs)[j])
  {
    if wanted != [] {
      var tail := wanted[1..];
      AbsentFromRanked(tail, hs, rank);
      AbsentFromTailRanked(wanted, hs, rank);
      var rest := AbsentFrom(tail, hs);
      var head := if wanted[0] in hs then [] else [wanted[0]];
      var r := AbsentFrom(wanted, hs);
      forall i, j | 0 <= i < j < |r| ensures rank(r[i]) < rank(r[j]) {
        assert r[j] == rest[j - |head|];
        if i < |head| {
          assert r[i] == wanted[0];
        } else {
          assert r[i] == rest[i - |head|];
        }
      }
    }
  }

  /** The position of a required header in the list `requiredHeaders`. */
  function HeaderRank(h: string): int {
    if h == "product_id" then 0 else if h == "date" then 1 else if h == "quantity_sold" then 2 else 3
  }

  /** The required headers absent from the header line, listed in the
      order product_id, date, quantity_sold, price. */
  function AbsentHeaders(hs: seq<string>): (missing: seq<string>)
    ensures forall h :: h in missing <==> h in RequiredHeaders && h !in hs
    ensures missing == [] <==> forall h :: h in RequiredHeaders ==> h in hs
    ensures forall i, j :: 0 <= i < j < |missing| ==> HeaderRank(missing[i]) < HeaderRank(missing[j])
  {
    assert forall k :: 0 <= k < |RequiredHeaders| ==> HeaderRank(RequiredHeaders[k]) == k;
    AbsentFromRanked(RequiredHeaders, hs, HeaderRank);
    var m := AbsentFrom(RequiredHeaders, hs);
    assert m != [] ==> m[0] in m;
    m
  }

  /** `dataLine.split(',').map(v => v.trim())`: one value per comma-separated
      field, that field trimmed. */
  function RowValues(line: string): (values: seq<string>)
    ensures |values| == |Split(line, ',')|
    ensures forall i :: 0 <= i < |values| ==> values[i] == Trim(Split(line, ',')[i])
    ensures forall i :: 0 <= i < |values| ==> NoOuterSpace(values[i])
  {
    var parts := Split(line, ',');
    seq(|parts|, i requires 0 <= i < |parts| => Trim(parts[i]))
  }

  /** The index of the last column named `name`, if any. */
  function LastColumn(hs: seq<string>, name: string, n: nat): (j: Option<nat>)
    requires n <= |hs|
    ensures j.None? ==> forall k :: 0 <= k < n ==> hs[k] != name
    ensures j.Some? ==> j.value < n && hs[j.value] == name
    ensures j.Some? ==> forall k :: j.value < k < n ==> hs[k] != name
  {
    if n == 0 then None
    else if hs[n - 1] == name then Some(n - 1)
    else LastColumn(hs, name, n - 1)
  }

  /** `record[name]` after `headers_csv.forEach((header, index) => record[header] = values[index])`:
      a later column with the same header overwrites an earlier one, so this
      is the value of the LAST column named `name`, or "" (undefined, falsy)
      when no column is. */
  function FieldOf(hs: seq<string>, values: seq<string>, name: string): (v: string)
    requires |hs| == |values|
    ensures name !in hs ==> v == ""
    ensures (forall j :: 0 <= j < |values| ==> NoOuterSpace(values[j])) ==> NoOuterSpace(v)
  {
    match LastColumn(hs, name, |hs|)
    case None => ""
    case Some(j) => values[j]
  }

  /** With duplicate headers the last column wins. */
  lemma FieldOfIsLastColumn(hs: seq<string>, values: seq<string>, name: string, j: nat)
    requires |hs| == |values| && j < |hs| && hs[j] == name
    requires forall k :: j < k < |hs| ==> hs[k] != name
    ensures FieldOf(hs, values, name) == values[j]
  {
  }

  datatype Reason = ColumnCountMismatch | MissingRequiredData | InvalidNumericValues

  function ReasonText(reason: Reason): string {
    match reason
    case ColumnCountMismatch => "Column count mismatch"
    case MissingRequiredData => "Missing required data"
    case InvalidNumericValues => "Invalid numeric values"
  }

  /** What one data line becomes: a record, or a rejection naming its row
      number (index among the non-blank data lines, plus 2). */
  datatype RowOutcome = Accepted(record: SalesItem) | Rejected(row: nat, reason: Reason)

  /** `Row ${i + 2}: <reason>` */
  function ErrorLine(row: nat, reason: Reason): string {
    "Row " + NatToString(row) + ": " + ReasonText(reason)
  }

  /** The four required fields of a row, looked up by header name. */
  datatype Fields = Fields(productId: string, date: string, quantity: string, price: string)

  function FieldsOf(hs: seq<string>, values: seq<string>): Fields
    requires |hs| == |values|
  {
    Fields(FieldOf(hs, values, "product_id"), FieldOf(hs, values, "date"),
           FieldOf(hs, values, "quantity_sold"), FieldOf(hs, values, "price"))
  }

  /** `!record.product_id || !record.date || ...` is false: no required field
      is empty (an absent column reads as empty). */
  predicate Present(f: Fields) {
    f.productId != "" && f.date != "" && f.quantity != "" && f.price != ""
  }

  /** Neither `Number(record.quantity_sold)` nor `Number(record.price)` is NaN. */
  predicate Numeric(f: Fields, rt: Runtime) {
    rt.toNumber(f.quantity).Some? && rt.toNumber(f.price).Some?
  }

  /** The checks of a row with the right column count: empty required
      fields first, then numeric parsing; a row passing both is accepted. */
  function CheckFields(f: Fields, row: nat, rt: Runtime, now: string): (out: RowOutcome)
    ensures out.Rejected? ==> out.row == row && out.reason != ColumnCountMismatch
    ensures out.Accepted? <==> Present(f) && Numeric(f, rt)
    ensures out.Rejected? && out.reason == MissingRequiredData <==> !Present(f)
    ensures out.Rejected? && out.reason == InvalidNumericValues <==> Present(f) && !Numeric(f, rt)
    ensures out.Accepted? ==>
      && out.record.product_id == f.productId
      && out.record.date == f.date
      && rt.toNumber(f.quantity) == Some(out.record.quantity_sold)
      && rt.toNumber(f.price) == Some(out.record.price)
      && out.record.revenue == out.record.quantity_sold * out.record.price
      && out.record.created_at == now
  {
    if !Present(f) then
      Rejected(row, MissingRequiredData)
    else
      match (rt.toNumber(f.quantity), rt.toNumber(f.price))
      case (Some(q), Some(p)) => Accepted(SalesItem(f.productId, f.date, q, p, q * p, now))
      case _ => Rejected(row, InvalidNumericValues)
  }

  /** One data line: the column count is checked against the whole header
      first; with the right count, the fields looked up by header name pass
      through the field checks. */
  function ParseRow(hs: seq<string>, line: string, row: nat, rt: Runtime, now: string): (out: RowOutcome)
    ensures out.Rejected? ==> out.row == row
    ensures out.Rejected? && out.reason == ColumnCountMismatch <==> |RowValues(line)| != |hs|
    ensures |RowValues(line)| == |hs| ==> out == CheckFields(FieldsOf(hs, RowValues(line)), row, rt, now)
    ensures out.Accepted? ==> out.record.product_id != "" && out.record.date != "" && out.record.created_at == now
  {
    var values := RowValues(line);
    if |values| != |hs| then Rejected(row, ColumnCountMismatch)
    else CheckFields(FieldsOf(hs, values), row, rt, now)
  }

  /** A stored id or date is the trimmed text of the last column carrying
      that header: trimmed, but not lower-cased as the headers are. */
  lemma ParseRowTrims(hs: seq<string>, line: string, row: nat, rt: Runtime, now: string)
    ensures var out := ParseRow(hs, line, row, rt, now);
      out.Accepted? ==> NoOuterSpace(out.record.product_id) && NoOuterSpace(out.record.date)
    ensures var out := ParseRow(hs, line, row, rt, now);
      out.Accepted? ==> exists j ::
        && LastColumn(hs, "product_id", |hs|) == Some(j) && j < |Split(line, ',')|
        && out.record.product_id == Trim(Split(line, ',')[j])
    ensures var out := ParseRow(hs, line, row, rt, now);
      out.Accepted? ==> exists j ::
        && LastColumn(hs, "date", |hs|) == Some(j) && j < |Split(line, ',')|
        && out.record.date == Trim(Split(line, ',')[j])
  {
    var values := RowValues(line);
    var out := ParseRow(hs, line, row, rt, now);
    if out.Accepted? {
      assert NoOuterSpace(FieldOf(hs, values, "product_id"));
      assert NoOuterSpace(FieldOf(hs, values, "date"));
      var jp := LastColumn(hs, "product_id", |hs|).value;
      var jd := LastColumn(hs, "date", |hs|).value;
      assert out.record.product_id == values[jp] == Trim(Split(line, ',')[jp]);
      assert out.record.date == values[jd] == Trim(Split(line, ',')[jd]);
    }
  }

  /** The outcome of every data line; line `i` is row `i + 2`. */
  function Outcomes(hs: seq<string>, dataLines: seq<string>, rt: Runtime, now: string): (outs: seq<RowOutcome>)
    ensures |outs| == |dataLines|
  {
    seq(|dataLines|, i requires 0 <= i < |dataLines| => ParseRow(hs, dataLines[i], i + 2, rt, now))
  }

  /** The records of the accepted rows, in file order. */
  function AcceptedRecords(outs: seq<RowOutcome>): seq<SalesItem> {
    if outs == [] then []
    else
      var last := outs[|outs| - 1];
      AcceptedRecords(outs[..|outs| - 1]) + (if last.Accepted? then [last.record] else [])
  }

  /** The (row, reason) pairs of the rejected rows, in file order. */
  function Rejections(outs: seq<RowOutcome>): seq<(nat, Reason)> {
    if outs == [] then []
    else
      var last := outs[|outs| - 1];
      Rejections(outs[..|outs| - 1]) + (if last.Rejected? then [(last.row, last.reason)] else [])
  }

  /** The digits after `Row ` and before `: ` read back as the row number,
      and the reason's message follows them. */
  lemma ErrorLineReadsBack(row: nat, reason: Reason)
    ensures var line := ErrorLine(row, reason); var d := |NatToString(row)|;
      && |line| == 4 + d + 2 + |ReasonText(reason)|
      && line[..4] == "Row "
      && IsDigits(line[4..4 + d]) && DigitsValue(line[4..4 + d]) == row
      && line[4 + d..4 + d + 2] == ": "
      && line[4 + d + 2..] == ReasonText(reason)
  {
    Slices4("Row ", NatToString(row), ": ", ReasonText(reason));
    NatToStringRoundTrip(row);
  }

  /** `errors`: one `Row k: reason` line per rejection, in order. */
  function RenderErrors(rejections: seq<(nat, Reason)>): (lines: seq<string>)
    ensures |lines| == |rejections|
    ensures forall i :: 0 <= i < |lines| ==> lines[i] == ErrorLine(rejections[i].0, rejections[i].1)
  {
    if rejections == [] then []
    else
      var last := rejections[|rejections| - 1];
      var init := RenderErrors(rejections[..|rejections| - 1]);
      SnocIndex(init, ErrorLine(last.0, last.1));
      init + [ErrorLine(last.0, last.1)]
  }

  /** The response's `errorDetails`. */
  function ErrorDetails(outs: seq<RowOutcome>): seq<string> {
    RenderErrors(Rejections(outs))
  }

  /** Appending one outcome extends the accepted records or the error lines. */
  lemma OutcomesSnoc(outs: seq<RowOutcome>, o: RowOutcome)
    ensures AcceptedRecords(outs + [o]) == AcceptedRecords(outs) + (if o.Accepted? then [o.record] else [])
    ensures ErrorDetails(outs + [o]) == ErrorDetails(outs) + (if o.Rejected? then [ErrorLine(o.row, o.reason)] else [])
  {
    assert (outs + [o])[..|outs|] == outs;
    if o.Rejected? {
      var rej := Rejections(outs) + [(o.row, o.reason)];
      assert rej[..|rej| - 1] == Rejections(outs);
    } else {
      assert Rejections(outs + [o]) == Rejections(outs) + [];
      assert Rejections(outs) + [] == Rejections(outs);
    }
  }

  /** Every data line yields exactly one outcome: accepted plus rejected
      rows make up all the rows. */
  lemma {:induction false} OutcomeCounts(outs: seq<RowOutcome>)
    ensures |AcceptedRecords(outs)| + |ErrorDetails(outs)| == |outs|
  {
    if outs != [] {
      OutcomeCounts(outs[..|outs| - 1]);
    }
  }

  /** Rejections report rows in strictly increasing order, each the position
      of its line among the non-blank data lines plus 2. */
  lemma {:induction false} RejectedRowsAscend(outs: seq<RowOutcome>)
    requires forall i :: 0 <= i < |outs| && outs[i].Rejected? ==> outs[i].row == i + 2
    ensures forall j :: 0 <= j < |Rejections(outs)| ==> 2 <= Rejections(outs)[j].0 <= |outs| + 1
    ensures forall j, k :: 0 <= j < k < |Rejections(outs)| ==> Rejections(outs)[j].0 < Rejections(outs)[k].0
  {
    if outs != [] {
      var init := outs[..|outs| - 1];
      assert forall i :: 0 <= i < |init| ==> init[i] == outs[i];
      RejectedRowsAscend(init);
    }
  }

  /** The rows of `Outcomes` are numbered as the source numbers them. */
  lemma OutcomesRowNumbers(hs: seq<string>, dataLines: seq<string>, rt: Runtime, now: string)
    ensures var outs := Outcomes(hs, dataLines, rt, now);
      forall i :: 0 <= i < |outs| && outs[i].Rejected? ==> outs[i].row == i + 2
  {
  }

  /** The outcomes of the first `i + 1` lines extend those of the first `i`
      by the outcome of line `i`. */
  lemma OutcomesStep(hs: seq<string>, dataLines: seq<string>, rt: Runtime, now: string, i: nat)
    requires i < |dataLines|
    ensures var outs := Outcomes(hs, dataLines, rt, now);
      outs[..i + 1] == outs[..i] + [ParseRow(hs, dataLines[i], i + 2, rt, now)]
  {
    var outs := Outcomes(hs, dataLines, rt, now);
    TakeSnoc(outs, i);
  }

  /** The rejected rows of the outcomes lie between 2 and n + 1 and strictly increase. */
  lemma OutcomeRowsAscend(hs: seq<string>, dataLines: seq<string>, rt: Runtime, now: string)
    ensures var rej := Rejections(Outcomes(hs, dataLines, rt, now));
      && (forall j :: 0 <= j < |rej| ==> 2 <= rej[j].0 <= |dataLines| + 1)
      && (forall j, k :: 0 <= j < k < |rej| ==> rej[j].0 < rej[k].0)
  {
    OutcomesRowNumbers(hs, dataLines, rt, now);
    RejectedRowsAscend(Outcomes(hs, dataLines, rt, now));
  }

  /** The loop over the data lines, pushing into `processedRecords` and `errors`. */
  method ProcessRows(hs: seq<string>, dataLines: seq<string>, rt: Runtime, now: string)
    returns (processed: seq<SalesItem>, errors: seq<string>)
    ensures processed == AcceptedRecords(Outcomes(hs, dataLines, rt, now))
    ensures errors == ErrorDetails(Outcomes(hs, dataLines, rt, now))
    ensures |processed| + |errors| == |dataLines|
  {
    ghost var outs := Outcomes(hs, dataLines, rt, now);
    processed, errors := [], [];
    var i := 0;
    while i < |dataLines|
      invariant 0 <= i <= |dataLines|
      invariant processed == AcceptedRecords(outs[..i])
      invariant errors == ErrorDetails(outs[..i])
    {
      var out := ParseRow(hs, dataLines[i], i + 2, rt, now);
      OutcomesStep(hs, dataLines, rt, now, i);
      OutcomesSnoc(outs[..i], out);
      match out {
        case Accepted(record) =>
          processed := processed + [record];
        case Rejected(row, reason) =>
          errors := errors + [ErrorLine(row, reason)];
      }
      i := i + 1;
    }
    assert outs[..i] == outs;
    OutcomeCounts(outs);
  }

  // ---------------------------------------------------------------------
  // Writing to the sales table

  /** The table after putting `recs` one after the other. */
  function Upserted(table: map<Key, SalesItem>, recs: seq<SalesItem>): map<Key, SalesItem> {
    if recs == [] then table
    else
      var last := recs[|recs| - 1];
      Upserted(table, recs[..|recs| - 1])[SalesKey(last) := last]
  }

  /** `recs[i]` is the last record of `recs` written under `k`. */
  predicate LastWriteAt(recs: seq<SalesItem>, k: Key, i: int) {
    0 <= i < |recs| && SalesKey(recs[i]) == k && forall j :: i < j < |recs| ==> SalesKey(recs[j]) != k
  }

  /** The position of the last record in `recs` written under `k`, if any. */
  function LastWrite(recs: seq<SalesItem>, k: Key): (j: Option<nat>)
    ensures j.None? ==> forall i :: 0 <= i < |recs| ==> SalesKey(recs[i]) != k
    ensures j.Some? ==> LastWriteAt(recs, k, j.value)
  {
    if recs == [] then None
    else if SalesKey(recs[|recs| - 1]) == k then Some(|recs| - 1)
    else
      var init := recs[..|recs| - 1];
      assert forall i :: 0 <= i < |init| ==> init[i] == recs[i];
      LastWrite(init, k)
  }

  /** Last write wins: a key written by `recs` holds the last record written
      to it; every other key keeps its old item, or stays absent. */
  lemma {:induction false} UpsertedLastWriteWins(table: map<Key, SalesItem>, recs: seq<SalesItem>, k: Key)
    ensures LastWrite(recs, k).Some? ==>
      k in Upserted(table, recs) && Upserted(table, recs)[k] == recs[LastWrite(recs, k).value]
    ensures LastWrite(recs, k).None? ==>
      (k in Upserted(table, recs) <==> k in table) && (k in table ==> Upserted(table, recs)[k] == table[k])
  {
    if recs != [] {
      var init := recs[..|recs| - 1];
      assert forall i :: 0 <= i < |init| ==> init[i] == recs[i];
      UpsertedLastWriteWins(table, init, k);
    }
  }

  /** Whether `marshall` accepts a record: its three numbers lie within the
      safe-integer range (the other fields are strings). */
  predicate Storable(r: SalesItem) {
    Marshallable(Num(r.quantity_sold)) && Marshallable(Num(r.price)) && Marshallable(Num(r.revenue))
  }

  /** The number of records put before the first one `marshall` refuses:
      all of them when it refuses none. */
  function StorablePrefix(recs: seq<SalesItem>): (n: nat)
    ensures n <= |recs|
    ensures forall i :: 0 <= i < n ==> Storable(recs[i])
    ensures n < |recs| ==> !Storable(recs[n])
  {
    if recs == [] || !Storable(recs[0]) then 0
    else
      var n := 1 + StorablePrefix(recs[1..]);
      assert forall i :: 1 <= i < n ==> recs[i] == recs[1..][i - 1];
      n
  }

  /** `for (const record of processedRecords) await dynamodb.send(new PutItemCommand(...))`.
      A record `marshall` refuses throws out of the loop: the records before
      it stay written and the rest are not put. */
  method StoreRecords(sales: Table<SalesItem>, recs: seq<SalesItem>) returns (stored: bool)
    modifies sales
    ensures stored <==> StorablePrefix(recs) == |recs|
    ensures sales.items == Upserted(old(sales.items), recs[..StorablePrefix(recs)])
  {
    var i := 0;
    while i < |recs|
      invariant 0 <= i <= |recs|
      invariant forall j :: 0 <= j < i ==> Storable(recs[j])
      invariant sales.items == Upserted(old(sales.items), recs[..i])
    {
      if !Storable(recs[i]) {
        PrefixUpTo(recs, i);
        return false;
      }
      sales.Put(SalesKey(recs[i]), recs[i]);
      assert recs[..i + 1][..i] == recs[..i];
      i := i + 1;
    }
    PrefixUpTo(recs, i);
    assert recs[..i] == recs;
    stored := true;
  }

  /** The storable prefix ends at the first record `marshall` refuses. */
  lemma PrefixUpTo(recs: seq<SalesItem>, i: nat)
    requires i <= |recs|
    requires forall j :: 0 <= j < i ==> Storable(recs[j])
    requires i < |recs| ==> !Storable(recs[i])
    ensures StorablePrefix(recs) == i
  {
  }

  // ---------------------------------------------------------------------
  // uploadSalesData

  /** What an upload of `csvData` decides: a 400 response with nothing
      written, or the records to write and the error lines to report. */
  datatype UploadPlan = Refuse(reply: SalesReply) | Ingest(records: seq<SalesItem>, errors: seq<string>)

  /** `csvData.split('\n')` with the blank lines dropped. */
  function UploadLines(csvData: string): seq<string> {
    NonBlankLines(Split(csvData, '\n'))
  }

  /** The refusals, in the order the source checks them: no CSV text, fewer
      than two non-blank lines, then a missing required header; otherwise
      the outcomes of the data lines are ingested. */
  function PlanUpload(csvData: string, rt: Runtime, now: string): (plan: UploadPlan)
    ensures plan.Refuse? ==> plan.reply.StatusCode() == 400
    ensures plan == Refuse(CsvRequired) <==> csvData == ""
    ensures plan == Refuse(InvalidCsvFormat) <==> csvData != "" && |UploadLines(csvData)| < 2
    ensures plan.Refuse? && plan.reply.HeadersMissing? <==>
      && csvData != "" && |UploadLines(csvData)| >= 2
      && AbsentHeaders(HeaderTokens(UploadLines(csvData)[0])) != []
    ensures plan.Refuse? && plan.reply.HeadersMissing? ==>
      var hs := HeaderTokens(UploadLines(csvData)[0]);
      plan.reply == HeadersMissing(AbsentHeaders(hs), RequiredHeaders, hs)
    ensures plan.Ingest? <==>
      && csvData != "" && |UploadLines(csvData)| >= 2
      && AbsentHeaders(HeaderTokens(UploadLines(csvData)[0])) == []
    ensures plan.Ingest? ==>
      var lines := UploadLines(csvData);
      var outs := Outcomes(HeaderTokens(lines[0]), lines[1..], rt, now);
      plan.records == AcceptedRecords(outs) && plan.errors == ErrorDetails(outs)
    ensures plan.Ingest? ==> |plan.records| + |plan.errors| == |UploadLines(csvData)| - 1
  {
    if csvData == "" then Refuse(CsvRequired)
    else
      var lines := UploadLines(csvData);
      if |lines| < 2 then Refuse(InvalidCsvFormat)
      else
        var hs := HeaderTokens(lines[0]);
        var missing := AbsentHeaders(hs);
        if missing != [] then Refuse(HeadersMissing(missing, RequiredHeaders, hs))
        else
          var outs := Outcomes(hs, lines[1..], rt, now);
          OutcomeCounts(outs);
          Ingest(AcceptedRecords(outs), ErrorDetails(outs))
  }

  /** Blank lines never count, so an upload whose lines after the first are
      all blank (a header line alone, or nothing but blank lines) has no data
      line and is "Invalid CSV format". */
  lemma BlankInputIsInvalid(csvData: string, rt: Runtime, now: string)
    requires csvData != ""
    requires forall i :: 1 <= i < |Split(csvData, '\n')| ==> IsBlank(Split(csvData, '\n')[i])
    ensures PlanUpload(csvData, rt, now) == Refuse(InvalidCsvFormat)
  {
    var parts := Split(csvData, '\n');
    HeadTail(parts);
    NonBlankLinesAppend([parts[0]], parts[1..]);
    NonBlankLinesAllBlank(parts[1..]);
    assert |UploadLines(csvData)| <= 1;
  }

  /** A header without all four required columns rejects the whole upload,
      listing the missing ones; no row is looked at. */
  lemma MissingHeaderRejectsAll(csvData: string, h: string, rt: Runtime, now: string)
    requires csvData != ""
    requires |UploadLines(csvData)| >= 2
    requires h in RequiredHeaders && h !in HeaderTokens(UploadLines(csvData)[0])
    ensures PlanUpload(csvData, rt, now).Refuse?
    ensures PlanUpload(csvData, rt, now).reply.HeadersMissing?
    ensures h in PlanUpload(csvData, rt, now).reply.missing
    ensures PlanUpload(csvData, rt, now).reply.expected == RequiredHeaders
  {
    var hs := HeaderTokens(UploadLines(csvData)[0]);
    assert h in AbsentHeaders(hs);
  }

  /** The ingested error lines read `Row k: ...` with k strictly increasing. */
  lemma IngestedErrorsAscend(csvData: string, rt: Runtime, now: string)
    ensures PlanUpload(csvData, rt, now).Ingest? ==>
      var lines := UploadLines(csvData);
      var rej := Rejections(Outcomes(HeaderTokens(lines[0]), lines[1..], rt, now));
      PlanUpload(csvData, rt, now).errors == RenderErrors(rej)
    ensures PlanUpload(csvData, rt, now).Ingest? ==>
      var lines := UploadLines(csvData);
      var rej := Rejections(Outcomes(HeaderTokens(lines[0]), lines[1..], rt, now));
      forall j :: 0 <= j < |rej| ==> 2 <= rej[j].0 <= |lines|
    ensures PlanUpload(csvData, rt, now).Ingest? ==>
      var lines := UploadLines(csvData);
      var rej := Rejections(Outcomes(HeaderTokens(lines[0]), lines[1..], rt, now));
      forall j, k :: 0 <= j < k < |rej| ==> rej[j].0 < rej[k].0
  {
    if PlanUpload(csvData, rt, now).Ingest? {
      var lines := UploadLines(csvData);
      OutcomeRowsAscend(HeaderTokens(lines[0]), lines[1..], rt, now);
    }
  }

  /** uploadSalesData: validate every row, write the accepted ones in file
      order, report counts and error lines.  A refused upload writes nothing;
      an accepted record `marshall` refuses stops the writes there with a 500. */
  method UploadSalesData(sales: Table<SalesItem>, csvData: string, rt: Runtime, now: string)
    returns (reply: SalesReply)
    modifies sales
    ensures match PlanUpload(csvData, rt, now)
      case Refuse(r) => reply == r && sales.items == old(sales.items)
      case Ingest(recs, errs) =>
        && reply == (if StorablePrefix(recs) == |recs| then Uploaded(|recs|, |errs|, errs) else InternalError)
        && sales.items == Upserted(old(sales.items), recs[..StorablePrefix(recs)])
  {
    if csvData == "" {
      return CsvRequired;
    }
    var lines := UploadLines(csvData);
    if |lines| < 2 {
      return InvalidCsvFormat;
    }
    var hs := HeaderTokens(lines[0]);
    var missing := AbsentHeaders(hs);
    if missing != [] {
      return HeadersMissing(missing, RequiredHeaders, hs);
    }
    var processed, errors := ProcessRows(hs, lines[1..], rt, now);
    var stored := StoreRecords(sales, processed);
    if !stored {
      return InternalError;
    }
    reply := Uploaded(|processed|, |errors|, errors);
  }

  // ---------------------------------------------------------------------
  // addSalesRecord

  /** The request body of a single-record POST. */
  datatype RecordBody = RecordBody(product_id: string, date: string, quantity_sold: JsValue, price: JsValue)

  predicate HasRequiredFields(body: RecordBody) {
    body.product_id != "" && body.date != "" && Truthy(body.quantity_sold) && Truthy(body.price)
  }

  /** The reply `addSalesRecord` gives for a body. */
  function PlanRecord(body: RecordBody, rt: Runtime, now: string): SalesReply {
    if !HasRequiredFields(body) then MissingFields
    else
      var q := ToNumber(body.quantity_sold, rt);
      var p := ToNumber(body.price, rt);
      if q.NaN? || p.NaN? then InternalError
      else
        var r := SalesItem(body.product_id, body.date, q.n, p.n, q.n * p.n, now);
        if !Storable(r) then InternalError else Created(r)
  }

  /** The table after a reply of `addSalesRecord`: only a created record is put. */
  function RecordStored(items: map<Key, SalesItem>, reply: SalesReply): map<Key, SalesItem> {
    if reply.Created? then items[SalesKey(reply.record) := reply.record] else items
  }

  /** addSalesRecord: every field must be truthy (so a numeric 0 quantity or
      price is refused); the record is then put under the same key shape as
      an uploaded row.  A value `Number()` turns into NaN, or a number of the
      record beyond the safe-integer range, makes `marshall` throw, which the
      handler reports as a 500. */
  method AddSalesRecord(sales: Table<SalesItem>, body: RecordBody, rt: Runtime, now: string)
    returns (reply: SalesReply)
    modifies sales
    ensures !HasRequiredFields(body) ==> reply == MissingFields && sales.items == old(sales.items)
    ensures (HasRequiredFields(body) &&
      (ToNumber(body.quantity_sold, rt).NaN? || ToNumber(body.price, rt).NaN?)) ==>
        reply == InternalError && sales.items == old(sales.items)
    ensures (HasRequiredFields(body) &&
      ToNumber(body.quantity_sold, rt).Num? && ToNumber(body.price, rt).Num?) ==>
        var q := ToNumber(body.quantity_sold, rt).n;
        var p := ToNumber(body.price, rt).n;
        var r := SalesItem(body.product_id, body.date, q, p, q * p, now);
        && (Storable(r) ==> reply == Created(r) && sales.items == old(sales.items)[SalesKey(r) := r])
        && (!Storable(r) ==> reply == InternalError && sales.items == old(sales.items))
    ensures reply == PlanRecord(body, rt, now) && sales.items == RecordStored(old(sales.items), reply)
  {
    if !HasRequiredFields(body) {
      return MissingFields;
    }
    var q := ToNumber(body.quantity_sold, rt);
    var p := ToNumber(body.price, rt);
    if q.NaN? || p.NaN? {
      return InternalError;
    }
    var record := SalesItem(body.product_id, body.date, q.n, p.n, q.n * p.n, now);
    if !Storable(record) {
      return InternalError;
    }
    sales.Put(SalesKey(record), record);
    reply := Created(record);
  }

  // ---------------------------------------------------------------------
  // getSalesDataForProduct and getSalesDataSummary

  /** getSalesDataForProduct: the product's partition in sort-key order. */
  method GetSalesDataForProduct(sales: Table<SalesItem>, productId: string) returns (reply: SalesReply)
    ensures reply == SalesData(QueryRows(sales.items, SalesPk(productId)))
    ensures |reply.salesData| == |PartitionKeys(sales.items, SalesPk(productId))|
  {
    var rows := sales.Query(SalesPk(productId));
    reply := SalesData(rows);
  }

  function TotalRevenue(rows: seq<SalesItem>): real {
    if rows == [] then 0.0 else TotalRevenue(rows[..|rows| - 1]) + rows[|rows| - 1].revenue
  }

  /** The distinct product ids; never more of them than rows. */
  function ProductIds(rows: seq<SalesItem>): (ids: set<string>)
    ensures forall p :: p in ids <==> exists i :: 0 <= i < |rows| && rows[i].product_id == p
    ensures |ids| <= |rows|
  {
    if rows == [] then {}
    else
      var init := rows[..|rows| - 1];
      assert forall i :: 0 <= i < |init| ==> init[i] == rows[i];
      ProductIds(init) + {rows[|rows| - 1].product_id}
  }

  /** The earliest date, under the order of ISO dates as text. */
  function EarliestDate(rows: seq<SalesItem>): (d: Option<string>)
    ensures d.None? <==> rows == []
    ensures d.Some? ==> exists i :: 0 <= i < |rows| && rows[i].date == d.value
    ensures d.Some? ==> forall i :: 0 <= i < |rows| ==> LexLe(d.value, rows[i].date)
  {
    if rows == [] then None
    else
      var init := rows[..|rows| - 1];
      var last := rows[|rows| - 1].date;
      assert forall i :: 0 <= i < |init| ==> init[i] == rows[i];
      LexLeReflexive(last);
      match EarliestDate(init)
      case None => Some(last)
      case Some(e) =>
        LexLeTotal(e, last);
        if LexLe(e, last) then Some(e)
        else
          assert forall i :: 0 <= i < |init| ==> LexLe(last, init[i].date) by {
            forall i | 0 <= i < |init| ensures LexLe(last, init[i].date) {
              LexLeTransitive(last, e, init[i].date);
            }
          }
          Some(last)
  }

  /** The latest date, under the order of ISO dates as text. */
  function LatestDate(rows: seq<SalesItem>): (d: Option<string>)
    ensures d.None? <==> rows == []
    ensures d.Some? ==> exists i :: 0 <= i < |rows| && rows[i].date == d.value
    ensures d.Some? ==> forall i :: 0 <= i < |rows| ==> LexLe(rows[i].date, d.value)
  {
    if rows == [] then None
    else
      var init := rows[..|rows| - 1];
      var last := rows[|rows| - 1].date;
      assert forall i :: 0 <= i < |init| ==> init[i] == rows[i];
      LexLeReflexive(last);
      match LatestDate(init)
      case None => Some(last)
      case Some(e) =>
        LexLeTotal(e, last);
        if LexLe(last, e) then Some(e)
        else
          assert forall i :: 0 <= i < |init| ==> LexLe(init[i].date, last) by {
            forall i | 0 <= i < |init| ensures LexLe(init[i].date, last) {
              LexLeTransitive(init[i].date, e, last);
            }
          }
          Some(last)
  }

  /** The summary of a scan: record count, distinct products (never more than
      the records) and a date range that is absent exactly when there are no
      records and otherwise runs from earliest to latest. */
  function Summarize(rows: seq<SalesItem>): (s: Summary)
    ensures s.totalRecords == |rows|
    ensures s.uniqueProducts <= s.totalRecords
    ensures s.earliest.None? <==> rows == []
    ensures s.latest.None? <==> rows == []
    ensures s.earliest.Some? && s.latest.Some? ==> LexLe(s.earliest.value, s.latest.value)
  {
    var earliest := EarliestDate(rows);
    var latest := LatestDate(rows);
    assert earliest.Some? && latest.Some? ==> LexLe(earliest.value, latest.value) by {
      if earliest.Some? && latest.Some? {
        var i :| 0 <= i < |rows| && rows[i].date == latest.value;
        assert LexLe(earliest.value, rows[i].date);
      }
    }
    Summary(|rows|, TotalRevenue(rows), |ProductIds(rows)|, earliest, latest)
  }

  ghost function StoredProductIds(items: map<Key, SalesItem>): set<string> {
    set k | k in items :: items[k].product_id
  }

  /** The rows of a scan hold exactly the stored items. */
  ghost predicate ScanOf(items: map<Key, SalesItem>, keys: seq<Key>, rows: seq<SalesItem>) {
    && |keys| == |rows|
    && (forall k :: k in keys <==> k in items)
    && (forall i :: 0 <= i < |keys| ==> keys[i] in items && rows[i] == items[keys[i]])
  }

  /** The distinct ids of a scan are the distinct ids stored. */
  lemma ScanProductIds(items: map<Key, SalesItem>, keys: seq<Key>, rows: seq<SalesItem>)
    requires ScanOf(items, keys, rows)
    ensures ProductIds(rows) == StoredProductIds(items)
  {
    forall p | p in StoredProductIds(items) ensures p in ProductIds(rows) {
      var k :| k in items && items[k].product_id == p;
      var i :| 0 <= i < |keys| && keys[i] == k;
      assert rows[i].product_id == p;
    }
  }

  /** Every stored item is a row of the scan. */
  lemma ScanHasItems(items: map<Key, SalesItem>, keys: seq<Key>, rows: seq<SalesItem>)
    requires ScanOf(items, keys, rows)
    ensures forall k :: k in items ==> exists i :: 0 <= i < |rows| && rows[i] == items[k]
  {
    forall k | k in items ensures exists i :: 0 <= i < |rows| && rows[i] == items[k] {
      var i :| 0 <= i < |keys| && keys[i] == k;
      assert rows[i] == items[k];
    }
  }

  /** A scan is empty exactly when the table is. */
  lemma ScanEmpty(items: map<Key, SalesItem>, keys: seq<Key>, rows: seq<SalesItem>)
    requires ScanOf(items, keys, rows)
    ensures rows == [] <==> items == map[]
  {
    if items != map[] {
      var k :| k in items;
      assert k in keys;
    }
    if rows != [] {
      assert keys[0] in items;
    }
  }

  /** The earliest date of a scan is a stored date, not after any other. */
  lemma ScanEarliest(items: map<Key, SalesItem>, keys: seq<Key>, rows: seq<SalesItem>)
    requires ScanOf(items, keys, rows)
    requires EarliestDate(rows).Some?
    ensures exists k :: k in items && items[k].date == EarliestDate(rows).value
    ensures forall k :: k in items ==> LexLe(EarliestDate(rows).value, items[k].date)
  {
    ScanHasItems(items, keys, rows);
    var i :| 0 <= i < |rows| && rows[i].date == EarliestDate(rows).value;
    assert keys[i] in items && items[keys[i]].date == EarliestDate(rows).value;
  }

  /** The latest date of a scan is a stored date, not before any other. */
  lemma ScanLatest(items: map<Key, SalesItem>, keys: seq<Key>, rows: seq<SalesItem>)
    requires ScanOf(items, keys, rows)
    requires LatestDate(rows).Some?
    ensures exists k :: k in items && items[k].date == LatestDate(rows).value
    ensures forall k :: k in items ==> LexLe(items[k].date, LatestDate(rows).value)
  {
    ScanHasItems(items, keys, rows);
    var i :| 0 <= i < |rows| && rows[i].date == LatestDate(rows).value;
    assert keys[i] in items && items[keys[i]].date == LatestDate(rows).value;
  }

  /** The reply of `getSalesDataSummary` summarises some scan of the table. */
  ghost predicate SummaryReplyOf(items: map<Key, SalesItem>, reply: SalesReply) {
    exists keys, rows :: ScanOf(items, keys, rows) && reply == SummaryReport(Summarize(rows))
  }

  /** getSalesDataSummary over the whole table. */
  method GetSalesDataSummary(sales: Table<SalesItem>) returns (reply: SalesReply)
    ensures SummaryReplyOf(sales.items, reply)
    ensures reply.SummaryReport?
    ensures reply.summary.totalRecords == |sales.items|
    ensures reply.summary.uniqueProducts == |StoredProductIds(sales.items)|
    ensures reply.summary.earliest.Some? <==> sales.items != map[]
    ensures reply.summary.latest.Some? <==> sales.items != map[]
    ensures reply.summary.earliest.Some? ==>
      (exists k :: k in sales.items && sales.items[k].date == reply.summary.earliest.value)
      && forall k :: k in sales.items ==> LexLe(reply.summary.earliest.value, sales.items[k].date)
    ensures reply.summary.latest.Some? ==>
      (exists k :: k in sales.items && sales.items[k].date == reply.summary.latest.value)
      && forall k :: k in sales.items ==> LexLe(sales.items[k].date, reply.summary.latest.value)
  {
    var keys, rows := sales.Scan();
    assert ScanOf(sales.items, keys, rows);
    ScanProductIds(sales.items, keys, rows);
    ScanEmpty(sales.items, keys, rows);
    if rows != [] {
      ScanEarliest(sales.items, keys, rows);
      ScanLatest(sales.items, keys, rows);
    }
    reply := SummaryReport(Summarize(rows));
  }

  // ---------------------------------------------------------------------
  // handler

  /** A parsed POST body: the upload fields and the single-record fields. */
  datatype SalesBody = SalesBody(csvData: string, record: RecordBody)

  /** `httpMethod`, `path`, `queryStringParameters.product_id` ("" when
      absent) and the body, `None` when `JSON.parse` throws. */
  datatype SalesEvent = SalesEvent(httpMethod: string, path: string, productIdParam: string, body: Option<SalesBody>)

  datatype SalesRoute = OptionsRoute | UploadRoute | AddRecordRoute | ProductSalesRoute(productId: string)
    | SummaryRoute | UnsupportedMethod

  /** The handler's `switch (method)`. */
  function RouteOf(httpMethod: string, path: string, productIdParam: string): (route: SalesRoute)
    ensures route == UnsupportedMethod <==> httpMethod !in {"OPTIONS", "POST", "GET"}
    ensures route == OptionsRoute <==> httpMethod == "OPTIONS"
    ensures route == UploadRoute <==> httpMethod == "POST" && IndexOf(path, "/upload", 0).Some?
    ensures route == AddRecordRoute <==> httpMethod == "POST" && IndexOf(path, "/upload", 0).None?
    ensures route.ProductSalesRoute? <==> httpMethod == "GET" && productIdParam != ""
    ensures route.ProductSalesRoute? ==> route.productId == productIdParam
    ensures route == SummaryRoute <==> httpMethod == "GET" && productIdParam == ""
  {
    if httpMethod == "OPTIONS" then OptionsRoute
    else if httpMethod == "POST" then
      if IndexOf(path, "/upload", 0).Some? then UploadRoute else AddRecordRoute
    else if httpMethod == "GET" then
      if productIdParam != "" then ProductSalesRoute(productIdParam) else SummaryRoute
    else UnsupportedMethod
  }

  /** The Lambda entry point.  Only POST writes; a body that does not parse
      is a 500 from the catch-all. */
  method Handle(sales: Table<SalesItem>, event: SalesEvent, rt: Runtime, now: string) returns (reply: SalesReply)
    modifies sales
    ensures RouteOf(event.httpMethod, event.path, event.productIdParam) == UnsupportedMethod ==>
      reply == MethodNotAllowed && reply.StatusCode() == 405
    ensures event.httpMethod == "OPTIONS" ==> reply == Preflight && reply.StatusCode() == 200
    ensures event.httpMethod == "POST" && event.body.None? ==>
      reply == InternalError && sales.items == old(sales.items)
    ensures event.httpMethod != "POST" ==> sales.items == old(sales.items)
    ensures RouteOf(event.httpMethod, event.path, event.productIdParam) == UploadRoute && event.body.Some? ==>
      match PlanUpload(event.body.value.csvData, rt, now)
      case Refuse(r) => reply == r && sales.items == old(sales.items)
      case Ingest(recs, errs) =>
        && reply == (if StorablePrefix(recs) == |recs| then Uploaded(|recs|, |errs|, errs) else InternalError)
        && sales.items == Upserted(old(sales.items), recs[..StorablePrefix(recs)])
    ensures RouteOf(event.httpMethod, event.path, event.productIdParam) == AddRecordRoute && event.body.Some? ==>
      && reply == PlanRecord(event.body.value.record, rt, now)
      && sales.items == RecordStored(old(sales.items), reply)
    ensures RouteOf(event.httpMethod, event.path, event.productIdParam).ProductSalesRoute? ==>
      reply == SalesData(QueryRows(old(sales.items), SalesPk(event.productIdParam)))
    ensures RouteOf(event.httpMethod, event.path, event.productIdParam) == SummaryRoute ==>
      SummaryReplyOf(old(sales.items), reply)
  {
    match RouteOf(event.httpMethod, event.path, event.productIdParam)
    case OptionsRoute =>
      reply := Preflight;
    case UploadRoute =>
      if event.body.None? {
        return InternalError;
      }
      reply := UploadSalesData(sales, event.body.value.csvData, rt, now);
    case AddRecordRoute =>
      if event.body.None? {
        return InternalError;
      }
      reply := AddSalesRecord(sales, event.body.value.record, rt, now);
    case ProductSalesRoute(id) =>
      reply := GetSalesDataForProduct(sales, id);
    case SummaryRoute =>
      reply := GetSalesDataSummary(sales);
    case UnsupportedMethod =>
      reply := MethodNotAllowed;
  }
}
