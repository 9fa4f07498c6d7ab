/**
 * `load_data`: the table read from the uploaded CSV has its headers
 * normalised, must then hold a Date, a Category and an Amount column, has
 * its Date and Amount columns converted (a cell that does not convert
 * becomes missing) and loses every row whose Date, Amount or Category is
 * missing. Reading the CSV and the two cell parsers are inputs: the table
 * arrives as a header and rows of optional texts (`None` for an empty
 * field), and each parser returns `None` where pandas would coerce the
 * cell to NaT or NaN.
 */
module DataUtils {
  import opened Wrappers
  import opened Text
  import opened Ledger

  /** A cell of the table: missing, as read, or converted to a date or a number. */
  datatype Cell = Missing | Raw(text: string) | Stamp(date: Date) | Number(value: real)

  // ---- header normalisation ----

  /** `col.strip().capitalize()`. */
  function NormaliseHeader(h: string): string {
    Capitalize(Strip(h, Whitespace))
  }

  /** Normalising a header that is already normalised changes nothing. */
  lemma NormaliseIdempotent(h: string)
    ensures NormaliseHeader(NormaliseHeader(h)) == NormaliseHeader(h)
  {
    var s := Strip(h, Whitespace);
    var c := Capitalize(s);
    if c != [] {
      CaseKeepsWhitespace(s[0]);
      CaseKeepsWhitespace(s[|s| - 1]);
      assert c[0] !in Whitespace;
      assert c[|c| - 1] !in Whitespace;
    }
    StripUnchanged(c, Whitespace);
    CapitalizeIdempotent(s);
  }

  /** A header padded with a space and a no-break space, in lower case, normalises to "Date". */
  lemma PaddedHeader()
    ensures NormaliseHeader(" date\U{00A0}") == "Date"
  {
    PaddedStrip();
    CapitalizedDate();
  }

  lemma PaddedStrip()
    ensures Strip(" date\U{00A0}", Whitespace) == "date"
  {
    var h := " date\U{00A0}";
    assert h[0] == ' ' && h[1] == 'd' && ' ' in Whitespace && 'd' !in Whitespace;
    TrimLeftIs(h, Whitespace, 1);
    var l := h[1..];
    assert l == "date\U{00A0}";
    assert l[3] == 'e' && l[4] == '\U{00A0}' && 'e' !in Whitespace && '\U{00A0}' in Whitespace;
    TrimRightIs(l, Whitespace, 4);
    assert l[..4] == "date";
  }

  lemma CapitalizedDate()
    ensures Capitalize("date") == "Date"
  {
  }

  function NormaliseHeaders(cols: seq<string>): (r: seq<string>)
    ensures |r| == |cols|
  {
    seq(|cols|, i requires 0 <= i < |cols| => NormaliseHeader(cols[i]))
  }

  /** The header comprehension is idempotent as a whole, and keeps the number and order of columns. */
  lemma NormaliseHeadersIdempotent(cols: seq<string>)
    ensures NormaliseHeaders(NormaliseHeaders(cols)) == NormaliseHeaders(cols)
  {
    var once := NormaliseHeaders(cols);
    forall i | 0 <= i < |cols| ensures NormaliseHeaders(once)[i] == once[i] {
      NormaliseIdempotent(cols[i]);
    }
  }

  // ---- the required columns ----

  const Required: set<string> := {"Date", "Category", "Amount"}

  /**
   * Why loading failed. `MissingColumns` stands for the one fixed
   * `ValueError` message, which does not say which columns are absent.
   */
  datatype LoadError = MissingColumns | DuplicateColumn(name: string)

  /** Where the three required columns stand. */
  datatype Columns = Columns(date: nat, category: nat, amount: nat)

  function Names(cols: seq<string>): set<string> {
    set i | 0 <= i < |cols| :: cols[i]
  }

  /** The index of the first column with the given name. */
  function IndexOf(cols: seq<string>, name: string): (r: Option<nat>)
    ensures r.Some? ==> r.value < |cols| && cols[r.value] == name
    ensures r.None? ==> name !in Names(cols)
  {
    if cols == [] then None
    else if cols[0] == name then Some(0)
    else match IndexOf(cols[1..], name)
      case None => None
      case Some(i) => Some(i + 1)
  }

  /** A name that occurs at most once among the columns. */
  predicate Unique(cols: seq<string>, name: string) {
    multiset(cols)[name] <= 1
  }

  /**
   * `required.issubset(set(df.columns))`, and then the positions of the
   * three columns; a required name that two columns share has no single
   * position.
   */
  function ResolveColumns(cols: seq<string>): Result<Columns, LoadError> {
    if !(Required <= Names(cols)) then Failure(MissingColumns)
    else if !Unique(cols, "Date") then Failure(DuplicateColumn("Date"))
    else if !Unique(cols, "Category") then Failure(DuplicateColumn("Category"))
    else if !Unique(cols, "Amount") then Failure(DuplicateColumn("Amount"))
    else
      assert "Date" in Names(cols) && "Category" in Names(cols) && "Amount" in Names(cols);
      Success(Columns(IndexOf(cols, "Date").value, IndexOf(cols, "Category").value, IndexOf(cols, "Amount").value))
  }

  /**
   * Loading stops with the missing-columns error exactly when some required
   * name is not a column; when it goes on, each index names its column, and
   * the three are different columns.
   */
  lemma ResolveColumnsSpec(cols: seq<string>)
    ensures ResolveColumns(cols) == Failure(MissingColumns) <==> !(Required <= Names(cols))
    ensures ResolveColumns(cols).Success? ==>
              var k := ResolveColumns(cols).value;
              k.date < |cols| && k.category < |cols| && k.amount < |cols|
              && cols[k.date] == "Date" && cols[k.category] == "Category" && cols[k.amount] == "Amount"
              && k.date != k.category && k.date != k.amount && k.category != k.amount
  {
  }

  // ---- type conversion ----

  /** `pd.to_datetime(..., errors='coerce')` on one cell. */
  function ToDate(c: Cell, parse: string -> Option<Date>): Cell {
    match c
    case Raw(s) => (match parse(s) case Some(d) => Stamp(d) case None => Missing)
    case Stamp(_) => c
    case _ => Missing
  }

  /** `pd.to_numeric(..., errors='coerce')` on one cell. */
  function ToNumber(c: Cell, parse: string -> Option<real>): Cell {
    match c
    case Raw(s) => (match parse(s) case Some(x) => Number(x) case None => Missing)
    case Number(_) => c
    case _ => Missing
  }

  /** Every row has exactly `width` cells. */
  predicate Rectangular(rows: seq<seq<Cell>>, width: nat) {
    forall i :: 0 <= i < |rows| ==> |rows[i]| == width
  }

  /** The j-th column with every cell converted to a date. */
  function ConvertDates(rows: seq<seq<Cell>>, j: nat, parse: string -> Option<Date>): (r: seq<seq<Cell>>)
    requires forall i :: 0 <= i < |rows| ==> j < |rows[i]|
    ensures |r| == |rows| && forall i :: 0 <= i < |rows| ==> |r[i]| == |rows[i]|
  {
    seq(|rows|, i requires 0 <= i < |rows| => rows[i][j := ToDate(rows[i][j], parse)])
  }

  /** The j-th column with every cell converted to a number. */
  function ConvertAmounts(rows: seq<seq<Cell>>, j: nat, parse: string -> Option<real>): (r: seq<seq<Cell>>)
    requires forall i :: 0 <= i < |rows| ==> j < |rows[i]|
    ensures |r| == |rows| && forall i :: 0 <= i < |rows| ==> |r[i]| == |rows[i]|
  {
    seq(|rows|, i requires 0 <= i < |rows| => rows[i][j := ToNumber(rows[i][j], parse)])
  }

  // ---- dropping incomplete rows ----

  predicate Fits(row: seq<Cell>, k: Columns) {
    k.date < |row| && k.category < |row| && k.amount < |row|
  }

  /** The row's Date, Amount and Category are all present. */
  predicate Complete(row: seq<Cell>, k: Columns)
    requires Fits(row, k)
  {
    row[k.date] != Missing && row[k.amount] != Missing && row[k.category] != Missing
  }

  /** `df.dropna(subset=['Date', 'Amount', 'Category'])`. */
  function KeepComplete(rows: seq<seq<Cell>>, k: Columns): seq<seq<Cell>>
    requires forall i :: 0 <= i < |rows| ==> Fits(rows[i], k)
  {
    if rows == [] then []
    else
      var last := rows[|rows| - 1];
      KeepComplete(rows[..|rows| - 1], k) + (if Complete(last, k) then [last] else [])
  }

  /**
   * The kept rows are the complete rows, unchanged and in their original
   * order: `K` lists the positions kept, strictly increasing, and a
   * position is kept exactly when its row is complete.
   */
  lemma {:induction false} KeepCompleteSpec(rows: seq<seq<Cell>>, k: Columns) returns (K: seq<nat>)
    requires forall i :: 0 <= i < |rows| ==> Fits(rows[i], k)
    ensures |K| == |KeepComplete(rows, k)|
    ensures forall n :: 0 <= n < |K| ==> K[n] < |rows| && KeepComplete(rows, k)[n] == rows[K[n]]
    ensures forall n, m :: 0 <= n < m < |K| ==> K[n] < K[m]
    ensures forall i :: 0 <= i < |rows| ==> (i in K <==> Complete(rows[i], k))
  {
    if rows == [] {
      K := [];
    } else {
      var init, last := rows[..|rows| - 1], rows[|rows| - 1];
      var K0 := KeepCompleteSpec(init, k);
      assert forall i :: 0 <= i < |init| ==> init[i] == rows[i];
      if Complete(last, k) {
        K := K0 + [|rows| - 1];
        assert KeepComplete(rows, k) == KeepComplete(init, k) + [last];
      } else {
        K := K0;
        assert KeepComplete(rows, k) == KeepComplete(init, k);
      }
    }
  }

  // ---- load_data ----

  /** What `pd.read_csv` hands over for one field: its text, or missing when it is empty. */
  function ImportCell(c: Option<string>): Cell {
    match c
    case Some(s) => Raw(s)
    case None => Missing
  }

  function ImportRow(row: seq<Option<string>>): (r: seq<Cell>)
    ensures |r| == |row|
  {
    seq(|row|, j requires 0 <= j < |row| => ImportCell(row[j]))
  }

  function Imported(body: seq<seq<Option<string>>>): (rows: seq<seq<Cell>>)
    ensures |rows| == |body| && forall i :: 0 <= i < |body| ==> |rows[i]| == |body[i]|
  {
    seq(|body|, i requires 0 <= i < |body| => ImportRow(body[i]))
  }

  predicate RectangularBody(body: seq<seq<Option<string>>>, width: nat) {
    forall i :: 0 <= i < |body| ==> |body[i]| == width
  }

  /** The body as read, with its Date and Amount columns converted. */
  function Converted(body: seq<seq<Option<string>>>, k: Columns,
                     parseDate: string -> Option<Date>, parseAmount: string -> Option<real>): (rows: seq<seq<Cell>>)
    requires forall i :: 0 <= i < |body| ==> k.date < |body[i]| && k.amount < |body[i]|
    ensures |rows| == |body| && forall i :: 0 <= i < |body| ==> |rows[i]| == |body[i]|
  {
    ConvertAmounts(ConvertDates(Imported(body), k.date, parseDate), k.amount, parseAmount)
  }

  /** One converted row: the Date and Amount cells parsed, every other cell as read. */
  lemma ConvertedRow(body: seq<seq<Option<string>>>, k: Columns,
                     parseDate: string -> Option<Date>, parseAmount: string -> Option<real>, i: nat)
    requires forall i :: 0 <= i < |body| ==> k.date < |body[i]| && k.amount < |body[i]|
    requires i < |body| && k.category < |body[i]|
    requires k.date != k.amount && k.date != k.category && k.amount != k.category
    ensures Complete(Converted(body, k, parseDate, parseAmount)[i], k) <==> Survives(body[i], k, parseDate, parseAmount)
    ensures Survives(body[i], k, parseDate, parseAmount) ==>
              ParsedFrom(Converted(body, k, parseDate, parseAmount)[i], body[i], k, parseDate, parseAmount)
  {
    var rows0 := Imported(body);
    var rows1 := ConvertDates(rows0, k.date, parseDate);
    var rows2 := ConvertAmounts(rows1, k.amount, parseAmount);
    assert rows0[i] == ImportRow(body[i]);
    assert rows1[i] == rows0[i][k.date := ToDate(rows0[i][k.date], parseDate)];
    assert rows2[i] == rows1[i][k.amount := ToNumber(rows1[i][k.amount], parseAmount)];
  }

  /** The loaded table: its column names and its rows. */
  datatype Table = Table(columns: seq<string>, rows: seq<seq<Cell>>)

  /** `load_data` as one function: the error, or the normalised, converted and filtered table. */
  function Load(header: seq<string>, body: seq<seq<Option<string>>>,
                parseDate: string -> Option<Date>, parseAmount: string -> Option<real>): Result<Table, LoadError>
    requires RectangularBody(body, |header|)
  {
    var cols := NormaliseHeaders(header);
    match ResolveColumns(cols)
    case Failure(e) => Failure(e)
    case Success(k) =>
      ResolveColumnsSpec(cols);
      Success(Table(cols, KeepComplete(Converted(body, k, parseDate, parseAmount), k)))
  }

  /** The table `load_data` changes in place. */
  class Frame {
    var columns: seq<string>
    var rows: seq<seq<Cell>>

    ghost predicate Valid()
      reads this
    {
      Rectangular(rows, |columns|)
    }

    /** `pd.read_csv(uploaded_file)`, the reading itself left to the caller. */
    constructor (header: seq<string>, body: seq<seq<Option<string>>>)
      requires RectangularBody(body, |header|)
      ensures Valid() && columns == header && rows == Imported(body)
    {
      columns := header;
      rows := Imported(body);
    }

    /** `df.columns = [col.strip().capitalize() for col in df.columns]`. */
    method NormaliseColumns()
      requires Valid()
      modifies this
      ensures Valid() && columns == NormaliseHeaders(old(columns)) && rows == old(rows)
    {
      columns := NormaliseHeaders(columns);
    }

    /** `df['Date'] = pd.to_datetime(df['Date'], errors='coerce')`, the Date column standing j-th. */
    method ConvertDateColumn(j: nat, parse: string -> Option<Date>)
      requires Valid() && j < |columns|
      modifies this
      ensures Valid() && columns == old(columns) && rows == ConvertDates(old(rows), j, parse)
    {
      rows := ConvertDates(rows, j, parse);
    }

    /** `df['Amount'] = pd.to_numeric(df['Amount'], errors='coerce')`, the Amount column standing j-th. */
    method ConvertAmountColumn(j: nat, parse: string -> Option<real>)
      requires Valid() && j < |columns|
      modifies this
      ensures Valid() && columns == old(columns) && rows == ConvertAmounts(old(rows), j, parse)
    {
      rows := ConvertAmounts(rows, j, parse);
    }

    /** `df = df.dropna(subset=['Date', 'Amount', 'Category'])`. */
    method DropIncomplete(k: Columns)
      requires Valid() && k.date < |columns| && k.category < |columns| && k.amount < |columns|
      modifies this
      ensures Valid() && columns == old(columns) && rows == KeepComplete(old(rows), k)
    {
      var K := KeepCompleteSpec(rows, k);
      rows := KeepComplete(rows, k);
    }
  }

  /** `load_data`: the frame it returns holds exactly the table `Load` describes, or it stops with `Load`'s error. */
  method LoadData(header: seq<string>, body: seq<seq<Option<string>>>,
                  parseDate: string -> Option<Date>, parseAmount: string -> Option<real>)
    returns (r: Result<Frame, LoadError>)
    requires RectangularBody(body, |header|)
    ensures r.Failure? ==> Load(header, body, parseDate, parseAmount) == Failure(r.error)
    ensures r.Success? ==> fresh(r.value) && r.value.Valid()
    ensures r.Success? ==> Load(header, body, parseDate, parseAmount) == Success(Table(r.value.columns, r.value.rows))
  {
    var df := new Frame(header, body);
    df.NormaliseColumns();
    var cols := ResolveColumns(df.columns);
    if cols.Failure? {
      return Failure(cols.error);
    }
    var k := cols.value;
    ResolveColumnsSpec(df.columns);
    df.ConvertDateColumn(k.date, parseDate);
    df.ConvertAmountColumn(k.amount, parseAmount);
    df.DropIncomplete(k);
    return Success(df);
  }

  // ---- what loading promises ----

  /** Without all three required columns, loading fails with the missing-columns error; no table comes back. */
  lemma MissingColumnsFail(header: seq<string>, body: seq<seq<Option<string>>>,
                           parseDate: string -> Option<Date>, parseAmount: string -> Option<real>)
    requires RectangularBody(body, |header|)
    ensures Load(header, body, parseDate, parseAmount) == Failure(MissingColumns)
            <==> !(Required <= Names(NormaliseHeaders(header)))
  {
    ResolveColumnsSpec(NormaliseHeaders(header));
  }

  /** A body row survives loading: its Category is present and its Date and Amount both parse. */
  predicate Survives(row: seq<Option<string>>, k: Columns, parseDate: string -> Option<Date>,
                     parseAmount: string -> Option<real>)
    requires k.date < |row| && k.category < |row| && k.amount < |row|
  {
    row[k.category].Some?
    && row[k.date].Some? && parseDate(row[k.date].value).Some?
    && row[k.amount].Some? && parseAmount(row[k.amount].value).Some?
  }

  /**
   * A loaded row read from a body row: its Date holds the parsed date, its
   * Amount the parsed number, its Category the text as read, and every
   * other field is as read.
   */
  predicate ParsedFrom(out: seq<Cell>, row: seq<Option<string>>, k: Columns,
                       parseDate: string -> Option<Date>, parseAmount: string -> Option<real>)
  {
    |out| == |row| && k.date < |row| && k.category < |row| && k.amount < |row|
    && row[k.date].Some? && parseDate(row[k.date].value).Some?
    && out[k.date] == Stamp(parseDate(row[k.date].value).value)
    && row[k.amount].Some? && parseAmount(row[k.amount].value).Some?
    && out[k.amount] == Number(parseAmount(row[k.amount].value).value)
    && row[k.category].Some? && out[k.category] == Raw(row[k.category].value)
    && forall j :: 0 <= j < |row| && j != k.date && j != k.amount ==> out[j] == ImportCell(row[j])
  }

  /**
   * The loaded rows are the surviving body rows, in their original order
   * (`K` lists their positions, strictly increasing), each read from its
   * body row as `ParsedFrom` says.
   */
  lemma LoadedRows(header: seq<string>, body: seq<seq<Option<string>>>,
                   parseDate: string -> Option<Date>, parseAmount: string -> Option<real>, k: Columns)
    returns (K: seq<nat>)
    requires RectangularBody(body, |header|)
    requires ResolveColumns(NormaliseHeaders(header)) == Success(k)
    ensures Load(header, body, parseDate, parseAmount).Success?
    ensures |K| == |Load(header, body, parseDate, parseAmount).value.rows|
    ensures forall n, m :: 0 <= n < m < |K| ==> K[n] < K[m]
    ensures forall n :: 0 <= n < |K| ==> K[n] < |body|
    ensures forall i :: 0 <= i < |body| ==> k.date < |body[i]| && k.category < |body[i]| && k.amount < |body[i]|
    ensures forall i :: 0 <= i < |body| ==> (i in K <==> Survives(body[i], k, parseDate, parseAmount))
    ensures forall n :: 0 <= n < |K| ==>
              ParsedFrom(Load(header, body, parseDate, parseAmount).value.rows[n], body[K[n]], k, parseDate, parseAmount)
  {
    ResolveColumnsSpec(NormaliseHeaders(header));
    var rows := Converted(body, k, parseDate, parseAmount);
    assert Load(header, body, parseDate, parseAmount) == Success(Table(NormaliseHeaders(header), KeepComplete(rows, k)));
    K := KeepCompleteSpec(rows, k);
    ConvertedRows(body, k, parseDate, parseAmount);
    KeptSurvivors(body, rows, KeepComplete(rows, k), K, k, parseDate, parseAmount);
  }

  /** `ConvertedRow` for every body row at once. */
  lemma ConvertedRows(body: seq<seq<Option<string>>>, k: Columns,
                      parseDate: string -> Option<Date>, parseAmount: string -> Option<real>)
    requires forall i :: 0 <= i < |body| ==> k.date < |body[i]| && k.category < |body[i]| && k.amount < |body[i]|
    requires k.date != k.amount && k.date != k.category && k.amount != k.category
    ensures forall i :: 0 <= i < |body| ==>
              (Complete(Converted(body, k, parseDate, parseAmount)[i], k) <==> Survives(body[i], k, parseDate, parseAmount))
    ensures forall i :: 0 <= i < |body| && Survives(body[i], k, parseDate, parseAmount) ==>
              ParsedFrom(Converted(body, k, parseDate, parseAmount)[i], body[i], k, parseDate, parseAmount)
  {
    forall i | 0 <= i < |body|
      ensures Complete(Converted(body, k, parseDate, parseAmount)[i], k) <==> Survives(body[i], k, parseDate, parseAmount)
      ensures Survives(body[i], k, parseDate, parseAmount) ==>
                ParsedFrom(Converted(body, k, parseDate, parseAmount)[i], body[i], k, parseDate, parseAmount)
    {
      ConvertedRow(body, k, parseDate, parseAmount, i);
    }
  }

  /** Every kept row stands for a surviving body row, so it is read from that row as `ParsedFrom` says. */
  lemma KeptSurvivors(body: seq<seq<Option<string>>>, rows: seq<seq<Cell>>, kept: seq<seq<Cell>>, K: seq<nat>,
                      k: Columns, parseDate: string -> Option<Date>, parseAmount: string -> Option<real>)
    requires |rows| == |body| && |kept| == |K|
    requires forall i :: 0 <= i < |body| ==> k.date < |body[i]| && k.category < |body[i]| && k.amount < |body[i]|
    requires forall n :: 0 <= n < |K| ==> K[n] < |rows| && kept[n] == rows[K[n]]
    requires forall i :: 0 <= i < |body| ==> (i in K <==> Survives(body[i], k, parseDate, parseAmount))
    requires forall i :: 0 <= i < |body| && Survives(body[i], k, parseDate, parseAmount) ==>
               ParsedFrom(rows[i], body[i], k, parseDate, parseAmount)
    ensures forall n :: 0 <= n < |K| ==> ParsedFrom(kept[n], body[K[n]], k, parseDate, parseAmount)
  {
    forall n | 0 <= n < |K|
      ensures ParsedFrom(kept[n], body[K[n]], k, parseDate, parseAmount)
    {
      assert K[n] in K;
    }
  }
}
