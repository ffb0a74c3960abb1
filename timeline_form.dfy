/** The timeline edit form: the list of process steps a deal goes through,
    normalised when the dialog opens, edited one row at a time, and
    submitted as a Markdown table together with the JSON of the form. */
module TimelineForm {
  import opened Js

  /** What one field of a timeline row holds: a value that came from JSON or
      was typed in, or a `Date` object set by the normalisation, the date
      picker or the "Completed" stamp. */
  datatype Cell = J(v: Value) | D(date: Date)

  /** One row of the timeline: field name to field value. */
  type Item = map<string, Cell>

  /** The form data: every field of the initial data except the list, and
      the list of rows. */
  datatype FormData = FormData(fields: map<string, Value>, items: seq<Item>)

  const ListKey := "timeline_data_dict_list"

  /** The form data before the initial data arrives. */
  const InitialForm := FormData(map["deal_id" := Str(""), "address_from_rpa_doc" := Str(""),
                                    "rpa_version" := Str(""), "editable_fields" := Arr([])], [])

  /** The form data when the dialog opens without initial data: no
      `editable_fields` this time. */
  const EmptyForm := FormData(map["deal_id" := Str(""), "address_from_rpa_doc" := Str(""),
                                  "rpa_version" := Str("")], [])

  /** `item[key]`: `undefined` when the row has no such field. */
  function CellAt(item: Item, key: string): Cell {
    if key in item then item[key] else J(Undefined)
  }

  // ---------------------------------------------------------------------
  // Normalisation when the dialog opens
  // ---------------------------------------------------------------------

  /** `{...item, "Due Date": ...}`: every field is kept, and the due date
      stays a string or becomes `new Date(dueDate)` (given as `newDate`).
      None is the TypeError of reading a field of `null` or `undefined`. */
  function NormaliseItem(newDate: Value -> Date, v: Value): (r: Option<Item>)
    ensures r.None? <==> (v.Undefined? || v.Null?)
    ensures r.Some? ==>
      && (forall k :: k in SpreadFields(v) && k != "Due Date" ==> k in r.value && r.value[k] == J(SpreadFields(v)[k]))
      && (forall k :: k in r.value ==> k == "Due Date" || k in SpreadFields(v))
      && "Due Date" in r.value
      && var due := Prop(v, "Due Date").value;
         r.value["Due Date"] == (if due.Str? then J(due) else D(newDate(due)))
  {
    if v.Undefined? || v.Null? then None
    else
      var raw := SpreadFields(v);
      var due := Prop(v, "Due Date").value;
      Some((map k | k in raw :: J(raw[k]))["Due Date" := if due.Str? then J(due) else D(newDate(due))])
  }

  /** `list.map(normaliseItem)`; None when some element is `null` or `undefined`. */
  function NormaliseList(newDate: Value -> Date, list: seq<Value>): (r: Option<seq<Item>>)
    ensures r.Some? <==> forall i :: 0 <= i < |list| ==> NormaliseItem(newDate, list[i]).Some?
    ensures r.Some? ==> |r.value| == |list| &&
                        forall i :: 0 <= i < |list| ==> r.value[i] == NormaliseItem(newDate, list[i]).value
  {
    if |list| == 0 then Some([])
    else
      match (NormaliseItem(newDate, list[0]), NormaliseList(newDate, list[1..]))
      case (Some(first), Some(rest)) => Some([first] + rest)
      case _ => None
  }

  /** The effect that runs when the initial data changes. A falsy initial
      value gives the empty form; otherwise every field is kept and the list
      (absent or `null` becomes `[]`) is normalised row by row. None is the
      TypeError of calling `map` on a list that is not an array, or of a row
      that is `null`. */
  function Normalise(newDate: Value -> Date, initialData: Value): Option<FormData> {
    if !Truthy(initialData) then Some(EmptyForm)
    else
      var fields := SpreadFields(initialData) - {ListKey};
      var list := Prop(initialData, ListKey).value;
      if list.Undefined? || list.Null? then Some(FormData(fields, []))
      else if !list.Arr? then None
      else
        match NormaliseList(newDate, list.items)
        case Some(items) => Some(FormData(fields, items))
        case None => None
  }

  /** After normalisation every row has a due date, and it is a string or a
      `Date`; a missing list becomes empty. */
  lemma NormaliseGivesDueDates(newDate: Value -> Date, initialData: Value)
    requires Normalise(newDate, initialData).Some?
    ensures var f := Normalise(newDate, initialData).value;
      forall i :: 0 <= i < |f.items| ==>
        "Due Date" in f.items[i] && (f.items[i]["Due Date"].D? || f.items[i]["Due Date"].v.Str?)
    ensures Truthy(initialData) && Prop(initialData, ListKey).value.Undefined? ==>
      Normalise(newDate, initialData).value.items == []
  {
  }

  /** The list of an object is normalised in full, one row per element, and
      the other fields are carried over unchanged. */
  lemma NormaliseObject(newDate: Value -> Date, fields: map<string, Value>, list: seq<Value>)
    requires forall i :: 0 <= i < |list| ==> !list[i].Undefined? && !list[i].Null?
    ensures var f := Normalise(newDate, Obj(fields[ListKey := Arr(list)]));
      && f.Some?
      && f.value.fields == fields - {ListKey}
      && |f.value.items| == |list|
      && forall i :: 0 <= i < |list| ==> f.value.items[i] == NormaliseItem(newDate, list[i]).value
  {
    var o := fields[ListKey := Arr(list)];
    assert o - {ListKey} == fields - {ListKey};
  }

  // ---------------------------------------------------------------------
  // Editing one row
  // ---------------------------------------------------------------------

  /** `list[index][key] = c` on a copy of the list; None is the TypeError
      when there is no row `index`. */
  function SetCell(items: seq<Item>, index: int, key: string, c: Cell): (r: Option<seq<Item>>)
    ensures r.Some? <==> 0 <= index < |items|
    ensures r.Some? ==>
      && |r.value| == |items|
      && r.value[index] == items[index][key := c]
      && forall i :: 0 <= i < |items| && i != index ==> r.value[i] == items[i]
  {
    if 0 <= index < |items| then Some(items[index := items[index][key := c]]) else None
  }

  /** `handleDateChange`: a cleared picker changes nothing; a date replaces
      the row's due date. */
  function DateChanged(f: FormData, index: int, date: Option<Date>): FormData {
    if date.None? then f
    else
      match SetCell(f.items, index, "Due Date", D(date.value))
      case Some(items) => FormData(f.fields, items)
      case None => f
  }

  /** `handleStatusChange`: the status is set, and choosing "Completed"
      stamps the actual close date with the current Los Angeles time `laNow`. */
  function StatusChanged(f: FormData, index: int, status: string, laNow: Date): FormData {
    match SetCell(f.items, index, "Status", J(Str(status)))
    case None => f
    case Some(items) =>
      if status == "Completed" then
        FormData(f.fields, items[index := items[index]["Actual Close Date" := D(laNow)]])
      else FormData(f.fields, items)
  }

  /** `handleCommentChange`. */
  function CommentChanged(f: FormData, index: int, comment: string): FormData {
    match SetCell(f.items, index, "Comment", J(Str(comment)))
    case Some(items) => FormData(f.fields, items)
    case None => f
  }

  /** Choosing a status changes that row alone: its status, and its close
      date exactly when the status is "Completed". */
  lemma StatusChangeTouchesOneRow(f: FormData, index: int, status: string, laNow: Date)
    requires 0 <= index < |f.items|
    ensures var g := StatusChanged(f, index, status, laNow);
      && g.fields == f.fields
      && |g.items| == |f.items|
      && (forall i :: 0 <= i < |f.items| && i != index ==> g.items[i] == f.items[i])
      && g.items[index]["Status"] == J(Str(status))
      && (status == "Completed" ==> g.items[index]["Actual Close Date"] == D(laNow))
      && (status != "Completed" ==> g.items[index] == f.items[index]["Status" := J(Str(status))])
  {
  }

  /** An edit of a row that does not exist changes nothing. */
  lemma EditOutOfRangeIsIgnored(f: FormData, index: int, date: Date, status: string, laNow: Date, comment: string)
    requires !(0 <= index < |f.items|)
    ensures DateChanged(f, index, Some(date)) == f
    ensures StatusChanged(f, index, status, laNow) == f
    ensures CommentChanged(f, index, comment) == f
  {
  }

  /** A date and a comment replace exactly that field of that row. */
  lemma DateAndCommentTouchOneField(f: FormData, index: int, date: Date, comment: string)
    requires 0 <= index < |f.items|
    ensures DateChanged(f, index, Some(date)) ==
      FormData(f.fields, f.items[index := f.items[index]["Due Date" := D(date)]])
    ensures CommentChanged(f, index, comment) ==
      FormData(f.fields, f.items[index := f.items[index]["Comment" := J(Str(comment))]])
  {
  }

  // ---------------------------------------------------------------------
  // The Markdown table
  // ---------------------------------------------------------------------

  /** The largest timestamp magnitude a JavaScript `Date` accepts. */
  const MaxTime := 8640000000000000

  /** The date text of a cell: a string is used as it is; anything else goes
      through `format(x, "yyyy-MM-dd")` (given as `day`), which accepts a
      `Date` or a timestamp and throws (None) on an invalid date and on
      every other value. */
  function DateText(day: int -> string, c: Cell): (r: Option<string>)
    ensures c.J? && c.v.Str? ==> r == Some(c.v.s)
    ensures c.J? && !c.v.Str? && !c.v.Num? ==> r.None?
    ensures c.D? ==> (r.None? <==> c.date.InvalidDate?)
  {
    match c
    case D(d) => FormatDate(day, d)
    case J(Str(s)) => Some(s)
    case J(Num(n)) => if -MaxTime <= n <= MaxTime then Some(day(n)) else None
    case J(_) => None
  }

  /** The text of a cell passed to `text.replace`: a non-string throws. */
  function Text(c: Cell): (r: Option<string>)
    ensures r.Some? <==> c.J? && c.v.Str?
  {
    match c
    case J(Str(s)) => Some(s)
    case _ => None
  }

  /** `item["Comment"] || ""`: a falsy comment is empty, a string is kept,
      and any other value has no `replace` and throws. */
  function CommentText(c: Cell): (r: Option<string>)
    ensures c.J? && !Truthy(c.v) ==> r == Some("")
    ensures c.J? && c.v.Str? ==> r == Some(c.v.s)
    ensures c.D? ==> r.None?
  {
    match c
    case D(_) => None
    case J(v) => if !Truthy(v) then Some("") else if v.Str? then Some(v.s) else None
  }

  /** `text.replace(/\|/g, "\\|")`. */
  function EscapePipes(t: string): string {
    if |t| == 0 then ""
    else (if t[0] == '|' then "\\|" else [t[0]]) + EscapePipes(t[1..])
  }

  /** `comment.replace(/\n/g, "<br>")`. */
  function NewlinesToBr(t: string): string {
    if |t| == 0 then ""
    else (if t[0] == '\n' then "<br>" else [t[0]]) + NewlinesToBr(t[1..])
  }

  /** The inverse of `EscapePipes`: every `\|` is read back as `|`. */
  function UnescapePipes(s: string): string {
    if |s| == 0 then ""
    else if |s| >= 2 && s[0] == '\\' && s[1] == '|' then "|" + UnescapePipes(s[2..])
    else [s[0]] + UnescapePipes(s[1..])
  }

  lemma EscapeNeverStartsWithPipe(t: string)
    ensures EscapePipes(t) == "" || EscapePipes(t)[0] != '|'
  {
  }

  /** Escaping loses nothing: the cell text can be read back. */
  lemma {:induction false} UnescapeEscape(t: string)
    ensures UnescapePipes(EscapePipes(t)) == t
  {
    if |t| > 0 {
      var rest := EscapePipes(t[1..]);
      UnescapeEscape(t[1..]);
      if t[0] == '|' {
        assert EscapePipes(t) == "\\|" + rest;
        assert ("\\|" + rest)[2..] == rest;
      } else {
        EscapeNeverStartsWithPipe(t[1..]);
        assert EscapePipes(t) == [t[0]] + rest;
        assert ([t[0]] + rest)[1..] == rest;
      }
    }
  }

  /** After escaping, every pipe is preceded by a backslash, so none of them
      can end a table cell. */
  lemma {:induction false} EscapedPipesArePreceded(t: string)
    ensures var e := EscapePipes(t);
      forall i :: 0 <= i < |e| && e[i] == '|' ==> 0 < i && e[i - 1] == '\\'
  {
    if |t| > 0 {
      EscapedPipesArePreceded(t[1..]);
      var head := if t[0] == '|' then "\\|" else [t[0]];
      var rest := EscapePipes(t[1..]);
      assert EscapePipes(t) == head + rest;
      EscapeNeverStartsWithPipe(t[1..]);
      forall i | 0 <= i < |head + rest| && (head + rest)[i] == '|'
        ensures 0 < i && (head + rest)[i - 1] == '\\'
      {
        if i < |head| {
          assert (head + rest)[i] == head[i];
          assert i == 1 && head == "\\|";
          assert (head + rest)[i - 1] == head[0] == '\\';
        } else {
          assert (head + rest)[i] == rest[i - |head|];
          if i - |head| > 0 {
            var j := i - |head|;
            assert EscapePipes(t[1..])[j] == '|';
            assert EscapePipes(t[1..])[j - 1] == '\\';
            assert (head + rest)[i - 1] == rest[i - |head| - 1];
          }
        }
      }
    }
  }

  /** Turning newlines into `<br>` before escaping pipes gives the same text
      as the other order: neither rewrite produces what the other looks for. */
  lemma {:induction false} BrAndEscapeCommute(t: string)
    ensures EscapePipes(NewlinesToBr(t)) == NewlinesToBr(EscapePipes(t))
  {
    if |t| > 0 {
      BrAndEscapeCommute(t[1..]);
      var head := if t[0] == '\n' then "<br>" else [t[0]];
      EscapeAppend(head, NewlinesToBr(t[1..]));
      var eHead := if t[0] == '|' then "\\|" else [t[0]];
      BrAppend(eHead, EscapePipes(t[1..]));
      if t[0] == '\n' {
        assert EscapePipes("<br>") == "<br>" by {
          assert "<br>"[1..] == "br>";
          assert "br>"[1..] == "r>";
          assert "r>"[1..] == ">";
        }
      } else if t[0] == '|' {
        assert NewlinesToBr("\\|") == "\\|" by { assert "\\|"[1..] == "|"; }
      }
    }
  }

  lemma {:induction false} EscapeAppend(a: string, b: string)
    ensures EscapePipes(a + b) == EscapePipes(a) + EscapePipes(b)
  {
    if |a| > 0 {
      EscapeAppend(a[1..], b);
      var ab := a + b;
      assert ab[0] == a[0] && ab[1..] == a[1..] + b;
      var piece := if a[0] == '|' then "\\|" else [a[0]];
      assert EscapePipes(ab) == piece + EscapePipes(a[1..] + b);
      AppendAssoc(piece, EscapePipes(a[1..]), EscapePipes(b));
    } else {
      assert a + b == b;
    }
  }

  lemma {:induction false} BrAppend(a: string, b: string)
    ensures NewlinesToBr(a + b) == NewlinesToBr(a) + NewlinesToBr(b)
  {
    if |a| > 0 {
      BrAppend(a[1..], b);
      var ab := a + b;
      assert ab[0] == a[0] && ab[1..] == a[1..] + b;
      var piece := if a[0] == '\n' then "<br>" else [a[0]];
      assert NewlinesToBr(ab) == piece + NewlinesToBr(a[1..] + b);
      AppendAssoc(piece, NewlinesToBr(a[1..]), NewlinesToBr(b));
    } else {
      assert a + b == b;
    }
  }

  /** The title, header and separator the table always starts with. */
  const TimelineHeading :=
    "# Project Timeline\n\n"
    + "| Process Step | Owner | Due Date | Actual Close Date | Comment | Status |\n"
    + "| --- | --- | --- | --- | --- | --- |\n"

  /** The six cells of a row, in column order, before they are joined. */
  datatype RowCells = RowCells(step: string, owner: string, due: string, closed: string,
                               comment: string, status: string)

  /** The cells of one row; None when one of them throws. */
  function Cells(day: int -> string, item: Item): Option<RowCells> {
    match (DateText(day, CellAt(item, "Due Date")), DateText(day, CellAt(item, "Actual Close Date")),
           CommentText(CellAt(item, "Comment")))
    case (Some(due), Some(closed), Some(comment)) =>
      (match (Text(CellAt(item, "Process Step")), Text(CellAt(item, "Owner")), Text(CellAt(item, "Status")))
       case (Some(step), Some(owner), Some(status)) =>
         Some(RowCells(step, owner, due, closed, comment, status))
       case _ => None)
    case _ => None
  }

  /** One Markdown row: the text cells and the comment escaped, the comment's
      newlines as `<br>`, the two dates as they are. */
  function RowLine(c: RowCells): string {
    "| " + EscapePipes(c.step) + " | " + EscapePipes(c.owner) + " | " + c.due + " | " + c.closed
    + " | " + EscapePipes(NewlinesToBr(c.comment)) + " | " + EscapePipes(c.status) + " |\n"
  }

  function TimelineRow(day: int -> string, item: Item): Option<string> {
    match Cells(day, item)
    case Some(c) => Some(RowLine(c))
    case None => None
  }

  /** The rows of the table, first item first; None when any row throws. */
  function TimelineRows(day: int -> string, items: seq<Item>): Option<string> {
    if |items| == 0 then Some("")
    else
      match (TimelineRows(day, items[..|items| - 1]), TimelineRow(day, items[|items| - 1]))
      case (Some(h), Some(r)) => Some(h + r)
      case _ => None
  }

  /** `generateMarkdownTable(list)`. */
  function TimelineMarkdown(day: int -> string, items: seq<Item>): Option<string> {
    match TimelineRows(day, items)
    case Some(body) => Some(TimelineHeading + body)
    case None => None
  }

  /** `generateMarkdownTable`, as the source builds it: `+=` in a `forEach`
      over the rows after the heading. */
  method GenerateMarkdownTable(day: int -> string, data: seq<Item>) returns (markdown: Option<string>)
    ensures markdown == TimelineMarkdown(day, data)
  {
    var body := "";
    var j := 0;
    while j < |data|
      invariant 0 <= j <= |data|
      invariant TimelineRows(day, data[..j]) == Some(body)
    {
      var row := TimelineRow(day, data[j]);
      if row.None? {
        TimelineRowsSucceedIff(day, data);
        return None;
      }
      assert data[..j + 1][..j] == data[..j];
      body := body + row.value;
      j := j + 1;
    }
    assert data[..|data|] == data;
    markdown := Some(TimelineHeading + body);
  }

  /** The table exists exactly when no row throws. */
  lemma {:induction false} TimelineRowsSucceedIff(day: int -> string, items: seq<Item>)
    ensures TimelineRows(day, items).Some? <==>
      forall k :: 0 <= k < |items| ==> TimelineRow(day, items[k]).Some?
  {
    if |items| > 0 {
      var init := items[..|items| - 1];
      TimelineRowsSucceedIff(day, init);
      assert forall k :: 0 <= k < |init| ==> init[k] == items[k];
    }
  }

  function RowOrEmpty(day: int -> string, item: Item): string {
    match TimelineRow(day, item)
    case Some(r) => r
    case None => ""
  }

  /** A row's line as a function of the row, for a given date formatter. */
  function RowText(day: int -> string): Item -> string {
    item => RowOrEmpty(day, item)
  }

  /** The table is the heading followed by one line per row, in list order. */
  lemma {:induction false} TimelineRowsInOrder(day: int -> string, items: seq<Item>)
    requires TimelineRows(day, items).Some?
    ensures TimelineRows(day, items).value == Concat(MapSeq(RowText(day), items))
  {
    if |items| > 0 {
      var init := items[..|items| - 1];
      TimelineRowsInOrder(day, init);
      ConcatSnoc(MapSeq(RowText(day), init), RowOrEmpty(day, items[|items| - 1]));
    }
  }

  /** A row's comment column reads back as the comment with its line breaks
      as `<br>`, and its text columns read back as typed. */
  lemma RowCellsReadBack(c: RowCells)
    ensures UnescapePipes(EscapePipes(NewlinesToBr(c.comment))) == NewlinesToBr(c.comment)
    ensures UnescapePipes(EscapePipes(c.step)) == c.step
    ensures UnescapePipes(EscapePipes(c.owner)) == c.owner
    ensures UnescapePipes(EscapePipes(c.status)) == c.status
  {
    UnescapeEscape(NewlinesToBr(c.comment));
    UnescapeEscape(c.step);
    UnescapeEscape(c.owner);
    UnescapeEscape(c.status);
  }

  // ---------------------------------------------------------------------
  // Submitting
  // ---------------------------------------------------------------------

  /** The object `{data: formData, marker: "TIMELINE"}` handed to
      `JSON.stringify`; `dateJson` is `Date.prototype.toJSON`. */
  function Payload(dateJson: Date -> Value, f: FormData): (r: Value)
    ensures r.Obj? && "marker" in r.fields && r.fields["marker"] == Str("TIMELINE")
    ensures "data" in r.fields && r.fields["data"].Obj?
    ensures var data := r.fields["data"].fields;
      ListKey in data && data[ListKey].Arr? && |data[ListKey].items| == |f.items|
  {
    var rows := seq(|f.items|, i requires 0 <= i < |f.items| =>
      Obj(map k | k in f.items[i] :: CellJson(dateJson, f.items[i][k])));
    Obj(map["data" := Obj(f.fields[ListKey := Arr(rows)]), "marker" := Str("TIMELINE")])
  }

  function CellJson(dateJson: Date -> Value, c: Cell): Value {
    match c
    case J(v) => v
    case D(d) => dateJson(d)
  }

  /** What `handleSubmit` hands to `onSubmit`: the table and the pretty
      printed JSON (given as `stringify`), or None when building the table
      throws and nothing is submitted. */
  function Submission(day: int -> string, dateJson: Date -> Value, stringify: Value -> string, f: FormData)
    : (r: Option<(string, string)>)
    ensures r.Some? <==> forall k :: 0 <= k < |f.items| ==> TimelineRow(day, f.items[k]).Some?
    ensures r.Some? ==> TimelineMarkdown(day, f.items) == Some(r.value.0)
  {
    TimelineRowsSucceedIff(day, f.items);
    match TimelineMarkdown(day, f.items)
    case Some(md) => Some((md, stringify(Payload(dateJson, f))))
    case None => None
  }

  /** `parseDate`: a `Date` is returned as it is, a non-empty string other
      than the placeholder `"__"` is parsed, anything else gives `null`. */
  function ParseDate(newDate: Value -> Date, c: Cell): (r: Option<Date>)
    ensures r.Some? <==> c.D? || (c.v.Str? && c.v.s != "" && c.v.s != "__")
    ensures c.D? ==> r == Some(c.date)
  {
    match c
    case D(d) => Some(d)
    case J(Str(s)) => if s != "" && s != "__" then Some(newDate(Str(s))) else None
    case J(_) => None
  }

  // ---------------------------------------------------------------------
  // The dialog's state
  // ---------------------------------------------------------------------

  /** The dialog's `formData` state and the handlers that replace it. */
  class TimelineEditor {
    var form: FormData
    /** `new Date(x)`. */
    const newDate: Value -> Date

    constructor(newDate: Value -> Date)
      ensures form == InitialForm && this.newDate == newDate
    {
      form := InitialForm;
      this.newDate := newDate;
    }

    /** The effect on `initialData`; when it throws the form is left as it was. */
    method Initialise(initialData: Value)
      modifies this
      ensures var n := Normalise(newDate, initialData);
        form == (if n.Some? then n.value else old(form))
    {
      var n := Normalise(newDate, initialData);
      if n.Some? {
        form := n.value;
      }
    }

    method HandleDateChange(index: int, date: Option<Date>)
      modifies this
      ensures form == DateChanged(old(form), index, date)
    {
      if date.Some? {
        var items := SetCell(form.items, index, "Due Date", D(date.value));
        if items.Some? {
          form := FormData(form.fields, items.value);
        }
      }
    }

    method HandleStatusChange(index: int, status: string, laNow: Date)
      modifies this
      ensures form == StatusChanged(old(form), index, status, laNow)
    {
      var items := SetCell(form.items, index, "Status", J(Str(status)));
      if items.Some? {
        var list := items.value;
        if status == "Completed" {
          list := list[index := list[index]["Actual Close Date" := D(laNow)]];
        }
        form := FormData(form.fields, list);
      }
    }

    method HandleCommentChange(index: int, comment: string)
      modifies this
      ensures form == CommentChanged(old(form), index, comment)
    {
      var items := SetCell(form.items, index, "Comment", J(Str(comment)));
      if items.Some? {
        form := FormData(form.fields, items.value);
      }
    }

    /** `handleSubmit`; the form itself is not changed. */
    method HandleSubmit(day: int -> string, dateJson: Date -> Value, stringify: Value -> string)
      returns (submitted: Option<(string, string)>)
      ensures submitted == Submission(day, dateJson, stringify, form)
    {
      var markdown := GenerateMarkdownTable(day, form.items);
      if markdown.None? {
        return None;
      }
      submitted := Some((markdown.value, stringify(Payload(dateJson, form))));
    }
  }
}
