/** The message record and the two HTML generators of the chat page
    (client/src/components/chat-page/constants.ts). */
module Constants {
  import opened Js

  /** A chat message. `content` is a JavaScript value rather than a string:
      an "update" frame stores whatever its `msg` field holds. */
  datatype Message = Message(
    id: string,
    content: Value,
    isSentByUser: bool,
    fileUrls: Option<seq<string>>,
    fileNames: Option<seq<string>>,
    avatarUrl: Option<string>)

  // ------------------------------------------------------------ dashboard

  /** The three colours of the dashboard: circle, text and container. */
  datatype Palette = Palette(circle: string, text: string, container: string)

  function DashboardPalette(mode: string): (p: Palette)
    ensures mode == "dark" ==> p == Palette("#444", "#fff", "#333")
    ensures mode != "dark" ==> p == Palette("#ddd", "#000", "#fff")
  {
    var isDarkMode := mode == "dark";
    Palette(if isDarkMode then "#444" else "#ddd",
            if isDarkMode then "#fff" else "#000",
            if isDarkMode then "#333" else "#fff")
  }

  /** One tile of the dashboard: a circle holding the count, then its label. */
  function DashboardTile(p: Palette, comment: string, count: string, caption: string): string {
    TileBefore(p, comment) + count + TileAfter(p, caption)
  }

  /** The tile up to its count: the comment and the circle's opening. */
  function TileBefore(p: Palette, comment: string): string {
    "  <!-- " + comment + " -->\n"
    + "  <div style=\"display: flex; flex-direction: column; align-items: center;\">\n"
    + "    <div style=\"\n      width: 80px;\n      height: 80px;\n      background: " + p.circle
    + ";\n      border-radius: 50%;\n      display: flex;\n      align-items: center;\n"
    + "      justify-content: center;\n      font-weight:400;\n      color: " + p.text
    + ";\n    \">"
  }

  /** The tile after its count: the circle's end and the caption. */
  function TileAfter(p: Palette, caption: string): string {
    "\n    </div>\n"
    + "    <span style=\"margin-top: 5px; color: " + p.text + ";\">" + caption + "</span>\n  </div>"
  }

  /** The container opening, which carries the container background. */
  function DashboardOpening(p: Palette): string {
    "<div style=\"\n    display: flex;\n    justify-content: center;\n    gap: 40px;\n"
    + "    text-align: center;\n    margin: 30px;\n    background: " + p.container
    + ";\n    padding: 20px;\n    border-radius: 8px;\n"
    + "    font-family: var(--font-geist-sans), sans-serif;\n  \">\n"
  }

  /** The dashboard for the three deal counts, in the order active, fewer
      than two days left, closed. */
  function DashboardHtml(p: Palette, active: string, soon: string, closed: string): string {
    DashboardOpening(p)
    + DashboardTile(p, "Active Deals", active, "Active deals") + "\n\n"
    + DashboardTile(p, "<2 Days Deals", soon, "&lt;2 days deals") + "\n\n"
    + DashboardTile(p, "Closed Deals", closed, "Closed deals") + "\n</div>"
  }

  /** `generateDashboardMessage(data, mode)`: None is the TypeError thrown
      when `data` is undefined or null. */
  function GenerateDashboardMessage(data: Value, mode: string): (r: Option<string>)
    ensures r.None? <==> (data.Undefined? || data.Null?)
  {
    DashboardIn(DashboardPalette(mode), data)
  }

  /** The dashboard in the colours `p`. */
  function DashboardIn(p: Palette, data: Value): (r: Option<string>)
    ensures r.None? <==> (data.Undefined? || data.Null?)
  {
    match (Prop(data, "active_deals"), Prop(data, "less_than_2_days_deals"), Prop(data, "closed_deals"))
    case (Some(a), Some(l), Some(c)) =>
      Some(DashboardHtml(p, ToStr(a), ToStr(l), ToStr(c)))
    case _ => None
  }

  lemma DashboardInObj(p: Palette, m: map<string, Value>)
    ensures DashboardIn(p, Obj(m)) ==
      Some(DashboardHtml(p, ToStr(Get(m, "active_deals")),
                         ToStr(Get(m, "less_than_2_days_deals")), ToStr(Get(m, "closed_deals"))))
  {
    assert Prop(Obj(m), "active_deals") == Some(Get(m, "active_deals"));
    assert Prop(Obj(m), "less_than_2_days_deals") == Some(Get(m, "less_than_2_days_deals"));
    assert Prop(Obj(m), "closed_deals") == Some(Get(m, "closed_deals"));
  }

  /** The fixed text of the dashboard around its three counts. */
  datatype Gaps = Gaps(before: string, first: string, second: string, after: string)

  function DashboardGaps(p: Palette): (g: Gaps)
  {
    Gaps(DashboardOpening(p) + TileBefore(p, "Active Deals"),
         TileAfter(p, "Active deals") + "\n\n" + TileBefore(p, "<2 Days Deals"),
         TileAfter(p, "&lt;2 days deals") + "\n\n" + TileBefore(p, "Closed Deals"),
         TileAfter(p, "Closed deals") + "\n</div>")
  }

  /** Moving the brackets of the dashboard's concatenation so that each
      count stands between two gaps. */
  lemma Regroup<T>(o: seq<T>, b1: seq<T>, x: seq<T>, a1: seq<T>, sep: seq<T>, b2: seq<T>, y: seq<T>,
                   a2: seq<T>, b3: seq<T>, z: seq<T>, a3: seq<T>, close: seq<T>)
    ensures o + (b1 + x + a1) + sep + (b2 + y + a2) + sep + (b3 + z + a3) + close
         == (o + b1) + x + (a1 + sep + b2) + y + (a2 + sep + b3) + z + (a3 + close)
  {
  }

  /** The dashboard in any colours is its fixed text with the three counts
      filled in, each between two gaps. */
  lemma DashboardHtmlShape(p: Palette, active: string, soon: string, closed: string)
    ensures var g := DashboardGaps(p);
      DashboardHtml(p, active, soon, closed) == g.before + active + g.first + soon + g.second + closed + g.after
  {
    Regroup(DashboardOpening(p), TileBefore(p, "Active Deals"), active, TileAfter(p, "Active deals"),
            "\n\n", TileBefore(p, "<2 Days Deals"), soon, TileAfter(p, "&lt;2 days deals"),
            TileBefore(p, "Closed Deals"), closed, TileAfter(p, "Closed deals"), "\n</div>");
  }

  /** An object's dashboard is the fixed text of its mode's colours with the
      three counts filled in, in the order active deals, deals with fewer
      than two days left, closed deals. */
  lemma DashboardCountsInOrder(m: map<string, Value>, mode: string)
    ensures var g := DashboardGaps(DashboardPalette(mode));
      GenerateDashboardMessage(Obj(m), mode) ==
        Some(g.before + ToStr(Get(m, "active_deals")) + g.first + ToStr(Get(m, "less_than_2_days_deals"))
             + g.second + ToStr(Get(m, "closed_deals")) + g.after)
  {
    var p := DashboardPalette(mode);
    DashboardInObj(p, m);
    DashboardHtmlShape(p, ToStr(Get(m, "active_deals")), ToStr(Get(m, "less_than_2_days_deals")),
                       ToStr(Get(m, "closed_deals")));
  }

  /** Only whether the mode is "dark" matters to the dashboard. */
  lemma DashboardDependsOnlyOnDarkness(data: Value, mode1: string, mode2: string)
    requires (mode1 == "dark") == (mode2 == "dark")
    ensures GenerateDashboardMessage(data, mode1) == GenerateDashboardMessage(data, mode2)
  {
    assert DashboardPalette(mode1) == DashboardPalette(mode2);
  }

  // ---------------------------------------------------------- status table

  /** The seven fixed status columns, in order. */
  const StatusColumns: seq<string> := [
    "Received earnest $",
    "Contingency removed",
    "Appraisal received",
    "Loan approved",
    "Buyer walkthrough",
    "Loan Funded",
    "Project closed"
  ]

  function HeaderCell(col: string): string {
    "<th className=\"px-4 py-2 text-center font-medium\">" + col + "</th>"
  }

  /** One header cell per column, in order. */
  function HeaderCells(cols: seq<string>): string {
    if |cols| == 0 then "" else HeaderCell(cols[0]) + HeaderCells(cols[1..])
  }

  /** Table opening and header row: an ID cell, then one cell per column. */
  const StatusOpening: string :=
    "<table border=\"1\" cellspacing=\"0\" cellpadding=\"6\" style=\"border-collapse: collapse; "
    + "font-family: var(--font-geist-sans), sans-serif; \">\n      <thead>\n        <tr >\n"
    + "          <th>ID</th>\n          "
    + HeaderCells(StatusColumns)
    + "\n        </tr>\n      </thead>\n      <tbody>\n  "

  const StatusClosing: string := "\n      </tbody>\n</table>"

  /** A body cell coloured with the given background. */
  function StatusCell(colour: string): string {
    "<td style=\"background-color: " + colour + "; border: 1px solid #ccc;\"></td>"
  }

  /** The background of column `i`: `row.values[i] || ""`. */
  function CellColour(values: Value, i: nat): string
    requires !values.Undefined? && !values.Null?
  {
    OrEmpty(Index(values, i).value)
  }

  /** The first `n` coloured cells of a row; None when `row.values` is
      undefined or null, so that indexing it throws. */
  function StatusCells(values: Value, n: nat): (r: Option<string>)
    ensures r.None? <==> (values.Undefined? || values.Null?) && n > 0
  {
    if n == 0 then Some("")
    else
      match (StatusCells(values, n - 1), Index(values, n - 1))
      case (Some(h), Some(v)) => Some(h + StatusCell(OrEmpty(v)))
      case _ => None
  }

  /** One body row: the ID cell, then one cell per column. */
  function StatusRow(row: Value): Option<string> {
    match (Prop(row, "id"), Prop(row, "values"))
    case (Some(id), Some(values)) =>
      (match StatusCells(values, |StatusColumns|)
       case Some(cells) => Some("<tr>" + "<td>" + ToStr(id) + "</td>" + cells + "</tr>")
       case None => None)
    case _ => None
  }

  /** The body rows for `rows`, in order; None when one of them throws. */
  function StatusRows(rows: seq<Value>): Option<string> {
    if |rows| == 0 then Some("")
    else
      match (StatusRows(rows[..|rows| - 1]), StatusRow(rows[|rows| - 1]))
      case (Some(h), Some(r)) => Some(h + r)
      case _ => None
  }

  /** The rows iterated: `input.data` when it is truthy, else `input`; None
      when `input` is undefined or null. */
  function StatusInputRows(input: Value): (r: Option<Value>)
    ensures r.None? <==> (input.Undefined? || input.Null?)
    ensures r.Some? && Truthy(Prop(input, "data").value) ==> r.value == Prop(input, "data").value
    ensures r.Some? && !Truthy(Prop(input, "data").value) ==> r.value == input
  {
    match Prop(input, "data")
    case None => None
    case Some(data) => Some(if Truthy(data) then data else input)
  }

  /** `generateStatusTable(input)`: None when it throws (input undefined or
      null, rows not an array, a row or its values undefined or null). */
  function StatusTable(input: Value): Option<string> {
    match StatusInputRows(input)
    case Some(Arr(rows)) =>
      (match StatusRows(rows)
       case Some(body) => Some(StatusOpening + body + StatusClosing)
       case None => None)
    case _ => None
  }

  /** The body of the `forEach` callback: the `<tr>` for one row, its
      seven coloured cells built by an index loop. */
  method RenderStatusRow(row: Value) returns (line: Option<string>)
    ensures line == StatusRow(row)
  {
    var id := Prop(row, "id");
    var values := Prop(row, "values");
    if id.None? || values.None? {
      return None;
    }
    var tr := "<tr>" + "<td>" + ToStr(id.value) + "</td>";
    ghost var head, cells := tr, "";
    var i := 0;
    while i < |StatusColumns|
      invariant 0 <= i <= |StatusColumns|
      invariant StatusCells(values.value, i) == Some(cells)
      invariant tr == head + cells
    {
      var v := Index(values.value, i);
      if v.None? {
        StatusCellsStep(values.value, i);
        return None;
      }
      StatusCellsStep(values.value, i);
      var cell := StatusCell(OrEmpty(v.value));
      AppendAssoc(head, cells, cell);
      tr := tr + cell;
      cells := cells + cell;
      i := i + 1;
    }
    line := Some(tr + "</tr>");
  }

  /** One more cell: the row so far, then cell `i`; None exactly when
      `row.values` cannot be indexed. */
  lemma StatusCellsStep(values: Value, i: nat)
    requires StatusCells(values, i).Some?
    ensures Index(values, i).None? ==> StatusCells(values, i + 1).None?
    ensures Index(values, i).Some? ==>
      StatusCells(values, i + 1) == Some(StatusCells(values, i).value + StatusCell(OrEmpty(Index(values, i).value)))
  {
  }

  /** `generateStatusTable`, as the source builds it: `+=` in a `forEach`
      over the rows, between the fixed opening and closing. */
  method GenerateStatusTable(input: Value) returns (html: Option<string>)
    ensures html == StatusTable(input)
  {
    var rowsOrNone := StatusInputRows(input);
    if rowsOrNone.None? || !rowsOrNone.value.Arr? {
      return None;
    }
    var body := RenderStatusRows(rowsOrNone.value.items);
    if body.None? {
      return None;
    }
    html := Some(StatusOpening + body.value + StatusClosing);
  }

  /** The `forEach` over the rows: each row's `<tr>` appended in turn; None
      as soon as one throws. */
  method RenderStatusRows(rows: seq<Value>) returns (body: Option<string>)
    ensures body == StatusRows(rows)
  {
    var html := "";
    var j := 0;
    while j < |rows|
      invariant 0 <= j <= |rows|
      invariant StatusRows(rows[..j]) == Some(html)
    {
      var line := RenderStatusRow(rows[j]);
      if line.None? {
        StatusRowsSucceedIff(rows);
        return None;
      }
      StatusRowsStep(rows, j);
      html := html + line.value;
      j := j + 1;
    }
    assert rows[..|rows|] == rows;
    body := Some(html);
  }

  /** One more row: the body so far, then row `j`; None when that row throws. */
  lemma StatusRowsStep(rows: seq<Value>, j: nat)
    requires j < |rows|
    ensures StatusRows(rows[..j + 1]) ==
      if StatusRows(rows[..j]).Some? && StatusRow(rows[j]).Some?
      then Some(StatusRows(rows[..j]).value + StatusRow(rows[j]).value) else None
  {
    assert rows[..j + 1][..j] == rows[..j];
  }

  /** A row that does not throw is the ID cell followed by exactly seven
      cells, cell `i` coloured by `row.values[i] || ""`. */
  lemma StatusRowShape(row: Value)
    requires StatusRow(row).Some?
    ensures !Prop(row, "values").value.Undefined? && !Prop(row, "values").value.Null?
    ensures StatusRow(row).value ==
      "<tr><td>" + ToStr(Prop(row, "id").value) + "</td>"
      + Concat(ColouredCells(Prop(row, "values").value, |StatusColumns|)) + "</tr>"
  {
    StatusCellsShape(Prop(row, "values").value, |StatusColumns|);
  }

  /** The first `n` cells, cell `i` coloured by `values[i] || ""`. */
  function ColouredCells(values: Value, n: nat): (r: seq<string>)
    requires !values.Undefined? && !values.Null?
    ensures |r| == n
    ensures forall i :: 0 <= i < n ==> r[i] == StatusCell(CellColour(values, i))
  {
    if n == 0 then [] else ColouredCells(values, n - 1) + [StatusCell(CellColour(values, n - 1))]
  }

  lemma {:induction false} StatusCellsShape(values: Value, n: nat)
    requires !values.Undefined? && !values.Null?
    ensures StatusCells(values, n) == Some(Concat(ColouredCells(values, n)))
  {
    if n > 0 {
      StatusCellsShape(values, n - 1);
      StatusCellsStep(values, n - 1);
      ConcatSnoc(ColouredCells(values, n - 1), StatusCell(CellColour(values, n - 1)));
    }
  }

  /** A row's HTML, or "" when building it throws. */
  function RowOrEmpty(row: Value): string {
    match StatusRow(row)
    case Some(r) => r
    case None => ""
  }

  /** The body exists exactly when no row throws. */
  lemma {:induction false} StatusRowsSucceedIff(rows: seq<Value>)
    ensures StatusRows(rows).Some? <==> forall k :: 0 <= k < |rows| ==> StatusRow(rows[k]).Some?
  {
    if |rows| > 0 {
      var init := rows[..|rows| - 1];
      StatusRowsSucceedIff(init);
      assert forall k :: 0 <= k < |init| ==> init[k] == rows[k];
    }
  }

  /** The body is one row per input row, in input order. */
  lemma {:induction false} StatusRowsInOrder(rows: seq<Value>)
    requires StatusRows(rows).Some?
    ensures StatusRows(rows).value == Concat(MapSeq(RowOrEmpty, rows))
  {
    if |rows| > 0 {
      var n := |rows|;
      var init := rows[..n - 1];
      StatusRowsStep(rows, n - 1);
      assert rows[..n] == rows;
      StatusRowsInOrder(init);
      ConcatSnoc(MapSeq(RowOrEmpty, init), RowOrEmpty(rows[n - 1]));
    }
  }

  /** The table opens with the fixed `<table>` header and closes with
      `</tbody></table>`, around the rows. */
  lemma StatusTableFrame(input: Value)
    requires StatusTable(input).Some?
    ensures StartsWith(StatusTable(input).value, StatusOpening)
    ensures var h := StatusTable(input).value;
      |StatusClosing| <= |h| && h[|h| - |StatusClosing|..] == StatusClosing
  {
    var body := StatusRows(StatusInputRows(input).value.items).value;
    Framed(StatusOpening, body, StatusClosing);
  }
}
