/** What the two deal-document forms (the seller counter offer and the
    purchase agreement) share: the form data is one flat record, a date
    field is a string or an object `{date, days?}`, the three field
    handlers are the same, and the summary is a two-column Markdown table. */
module DocumentFields {
  import opened Js

  /** The form data: field name to value. */
  type Record = map<string, Value>

  /** `{date: s}`. */
  function DateOnly(date: string): Value {
    Obj(map["date" := Str(date)])
  }

  /** `{...data, [key]: value}` for a typed-in value: exactly that key
      changes. */
  function TextChanged(data: Record, key: string, value: string): (r: Record)
    ensures r.Keys == data.Keys + {key}
    ensures r[key] == Str(value)
    ensures forall k :: k in data && k != key ==> r[k] == data[k]
  {
    data[key := Str(value)]
  }

  /** The new value of a date field whose date is picked as `dateString`: the
      old `days` is kept when the old value is an object with a `days` key.
      None is the TypeError of `"days" in null`. */
  function PickedDate(previous: Value, dateString: string): (r: Option<Value>)
    ensures r.None? <==> previous.Null?
    ensures previous.Obj? && "days" in previous.fields ==>
      r == Some(Obj(map["date" := Str(dateString), "days" := previous.fields["days"]]))
    ensures !previous.Null? && !(previous.Obj? && "days" in previous.fields) ==> r == Some(DateOnly(dateString))
  {
    match previous
    case Null => None
    case Obj(m) =>
      if "days" in m then Some(Obj(map["date" := Str(dateString), "days" := m["days"]]))
      else Some(DateOnly(dateString))
    case _ => Some(DateOnly(dateString))
  }

  /** `handleDateChange(key, date)`: a cleared picker changes nothing, and
      neither does a handler that throws (an invalid date for `format`,
      given as `day`, or a `null` old value). */
  function DateChanged(data: Record, key: string, date: Option<Date>, day: int -> string): Record {
    if date.None? then data
    else
      match FormatDate(day, date.value)
      case None => data
      case Some(s) =>
        (match PickedDate(Get(data, key), s)
         case Some(v) => data[key := v]
         case None => data)
  }

  /** `handleDaysChange(key, days)`: `n = parseInt(days)` days from `today`
      (`addDays` and `format` given as parameters); non-numeric input
      changes nothing. */
  function DaysChanged(data: Record, key: string, days: string, today: Date,
                       addDays: (Date, int) -> Date, day: int -> string): Record
  {
    match ParseInt(days)
    case None => data
    case Some(n) =>
      (match FormatDate(day, addDays(today, n))
       case Some(s) => data[key := Obj(map["days" := Num(n), "date" := Str(s)])]
       case None => data)
  }

  /** A picked date changes the one key alone, keeping the old `days` exactly
      when the old value had one. */
  lemma DateChangeTouchesOneKey(data: Record, key: string, ms: int, day: int -> string)
    requires !Get(data, key).Null?
    ensures var r := DateChanged(data, key, Some(At(ms)), day);
      && r.Keys == data.Keys + {key}
      && (forall k :: k in data && k != key ==> r[k] == data[k])
      && r[key].Obj? && r[key].fields["date"] == Str(day(ms))
      && ("days" in r[key].fields <==> Get(data, key).Obj? && "days" in Get(data, key).fields)
      && ("days" in r[key].fields ==> r[key].fields["days"] == Get(data, key).fields["days"])
  {
  }

  /** A cleared picker, or a `null` old value, leaves the data as it was. */
  lemma DateChangeWithoutDate(data: Record, key: string, date: Option<Date>, day: int -> string)
    requires date.None? || Get(data, key).Null?
    ensures DateChanged(data, key, date, day) == data
  {
  }

  /** Non-numeric days change nothing; a number sets both `days` and `date`
      on that key and nothing else. */
  lemma DaysChangeIff(data: Record, key: string, days: string, today: Date,
                      addDays: (Date, int) -> Date, day: int -> string)
    ensures ParseInt(days).None? ==> DaysChanged(data, key, days, today, addDays, day) == data
    ensures ParseInt(days).Some? && addDays(today, ParseInt(days).value).At? ==>
      var r := DaysChanged(data, key, days, today, addDays, day);
      var n := ParseInt(days).value;
      && r.Keys == data.Keys + {key}
      && (forall k :: k in data && k != key ==> r[k] == data[k])
      && r[key] == Obj(map["days" := Num(n), "date" := Str(day(addDays(today, n).ms))])
  {
    match ParseInt(days)
    case None =>
    case Some(n) =>
      var d := addDays(today, n);
      if d.At? {
        var v := Obj(map["days" := Num(n), "date" := Str(day(d.ms))]);
        assert DaysChanged(data, key, days, today, addDays, day) == data[key := v];
      }
  }

  // ---------------------------------------------------------------------
  // The summary table
  // ---------------------------------------------------------------------

  /** `${data[key] || ""}`. */
  function Detail(data: Record, key: string): (r: string)
    ensures key !in data ==> r == ""
    ensures key in data && data[key].Str? ==> r == data[key].s
  {
    OrEmpty(Get(data, key))
  }

  /** `${data[key]?.date || ""}`. */
  function DateOf(data: Record, key: string): (r: string)
    ensures key !in data ==> r == ""
    ensures key in data && data[key].Obj? ==> r == OrEmpty(Get(data[key].fields, "date"))
  {
    var v := Get(data, key);
    if v.Undefined? || v.Null? then "" else OrEmpty(Prop(v, "date").value)
  }

  /** ` (N days)` when the field's `days` is truthy, else nothing. */
  function DaysSuffix(field: Value): string
    requires !field.Undefined? && !field.Null?
  {
    var d := Prop(field, "days").value;
    if Truthy(d) then " (" + ToStr(d) + " days)" else ""
  }

  /** The Loan Amount cell: the amount, a space, and `(percentage)` when
      the percentage is truthy. */
  function LoanDetail(data: Record): (r: string)
    ensures !Truthy(Get(data, "Loan percentage")) ==> r == Detail(data, "Loan amount") + " "
    ensures Get(data, "Loan percentage").Str? && Truthy(Get(data, "Loan percentage")) ==>
      r == Detail(data, "Loan amount") + " (" + Get(data, "Loan percentage").s + ")"
  {
    var pct := Get(data, "Loan percentage");
    Detail(data, "Loan amount") + " " + (if Truthy(pct) then "(" + ToStr(pct) + ")" else "")
  }

  /** One row of a summary: the item and its details. */
  datatype Row = Row(item: string, details: string)

  function Line(r: Row): string {
    "| " + r.item + " | " + r.details + " |\n"
  }

  /** The rows' lines, in order. */
  function Lines(rows: seq<Row>): string {
    if |rows| == 0 then "" else Line(rows[0]) + Lines(rows[1..])
  }

  const TableHeader := "| Item | Details |\n| --- | --- |\n"

  /** A summary: the title, the two-column header, and a line per row. */
  function Table(title: string, rows: seq<Row>): string {
    title + TableHeader + Lines(rows)
  }

  function Items(rows: seq<Row>): (r: seq<string>)
    ensures |r| == |rows| && forall i :: 0 <= i < |rows| ==> r[i] == rows[i].item
  {
    seq(|rows|, i requires 0 <= i < |rows| => rows[i].item)
  }

  /** The rows of a summary: each item beside its details, in order. */
  function Rows(items: seq<string>, details: seq<string>): (r: seq<Row>)
    requires |items| == |details|
    ensures |r| == |items|
    ensures forall i :: 0 <= i < |r| ==> r[i] == Row(items[i], details[i])
  {
    if |items| == 0 then [] else [Row(items[0], details[0])] + Rows(items[1..], details[1..])
  }

  /** Building rows from items and details keeps the items as given. */
  lemma ItemsOfRows(items: seq<string>, details: seq<string>)
    requires |items| == |details|
    ensures Items(Rows(items, details)) == items
  {
  }

  /** The table is the header followed by one line per row, in row order. */
  lemma {:induction false} LinesInOrder(rows: seq<Row>)
    ensures Lines(rows) == Concat(MapSeq(Line, rows))
  {
    if |rows| > 0 {
      LinesInOrder(rows[1..]);
      assert MapSeq(Line, rows)[1..] == MapSeq(Line, rows[1..]);
    }
  }

  /** What `parseDate` can give: a thrown TypeError, `null`, or a date. */
  datatype Parsed = Throws | NoDate | ParsedDate(date: Date)
}
