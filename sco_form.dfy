/** The seller counter offer (SCO) edit form: its date fields are wrapped
    as `{date}` objects when the dialog opens, its fields are edited one at
    a time, and it is submitted as an 18-row summary plus the raw JSON
    behind a `@@@SCO@@@` prefix. */
module ScoForm {
  import opened Js
  import opened DocumentFields

  /** The ten fields the opening effect treats as dates. */
  const ScoDateFields: seq<string> := [
    "Seller signed date", "Buyer signed date", "Close of escrow date", "Offer expiry date",
    "Loan contingency due", "Appraisal contingency due", "Property contingency due",
    "Seller disclosure due", "Title report due", "Seller docs due"]

  /** A value the effect wraps: a string other than the "-" placeholder. */
  predicate Wrappable(v: Value) {
    v.Str? && v.s != "-"
  }

  /** The data with every listed field that holds a wrappable string turned
      into `{date: s}`; every other field as it was. */
  function WrapDates(data: Record, fields: seq<string>): (r: Record)
    ensures r.Keys == data.Keys
    ensures forall k :: k in data && k in fields && Wrappable(data[k]) ==> r[k] == DateOnly(data[k].s)
    ensures forall k :: k in data && !(k in fields && Wrappable(data[k])) ==> r[k] == data[k]
  {
    map k | k in data :: if k in fields && Wrappable(data[k]) then DateOnly(data[k].s) else data[k]
  }

  /** The opening effect as a function of the initial data. */
  function Normalise(data: Record): Record {
    WrapDates(data, ScoDateFields)
  }

  /** The opening effect as the source runs it: a copy of the data whose
      listed fields are rewritten in place, one after another. */
  method NormaliseDates(initialData: Record) returns (processed: Record)
    ensures processed == Normalise(initialData)
  {
    processed := WrapFields(initialData, ScoDateFields);
  }

  /** The `forEach` over the field names. */
  method WrapFields(data: Record, fields: seq<string>) returns (processed: Record)
    ensures processed == WrapDates(data, fields)
  {
    processed := data;
    for i := 0 to |fields|
      invariant processed == WrapDates(data, fields[..i])
    {
      var field := fields[i];
      WrapOneMore(data, fields[..i], field);
      if field in processed && Wrappable(processed[field]) {
        processed := processed[field := DateOnly(processed[field].s)];
      }
      assert fields[..i + 1] == fields[..i] + [field];
    }
    assert fields[..|fields|] == fields;
  }

  /** One in-place rewrite of `field`, on the data with `fields` done. */
  function WrapOne(p: Record, field: string): (r: Record)
    ensures r.Keys == p.Keys
  {
    if field in p && Wrappable(p[field]) then p[field := DateOnly(p[field].s)] else p
  }

  /** Rewriting one more field in place extends the list of fields done. */
  lemma WrapOneMore(data: Record, fields: seq<string>, field: string)
    ensures WrapOne(WrapDates(data, fields), field) == WrapDates(data, fields + [field])
  {
    var q := WrapOne(WrapDates(data, fields), field);
    var w := WrapDates(data, fields + [field]);
    forall k | k in data
      ensures k in q && q[k] == w[k]
    {
      WrapOneKey(data, fields, field, k);
    }
    assert q.Keys == w.Keys;
  }

  lemma WrapOneKey(data: Record, fields: seq<string>, field: string, k: string)
    requires k in data
    ensures var q := WrapOne(WrapDates(data, fields), field);
      k in q && q[k] == WrapDates(data, fields + [field])[k]
  {
    var p := WrapDates(data, fields);
    assert k in fields + [field] <==> k in fields || k == field;
    if k == field && Wrappable(data[field]) {
      if field in fields {
        assert p[k] == DateOnly(data[k].s);
      } else {
        assert p[k] == data[k];
      }
    }
  }

  /** Opening the dialog twice is the same as opening it once: a wrapped
      field is no longer a string. */
  lemma NormaliseIdempotent(data: Record)
    ensures Normalise(Normalise(data)) == Normalise(data)
  {
  }

  /** "SCO Number" as typed: the parsed integer, or 0 when the text is not
      numeric. */
  function ScoNumber(input: string): (n: int)
    ensures ParseInt(input).Some? ==> n == ParseInt(input).value
    ensures ParseInt(input).None? ==> n == 0
  {
    match ParseInt(input)
    case Some(v) => v
    case None => 0
  }

  function ScoNumberChanged(data: Record, input: string): Record {
    data["SCO Number" := Num(ScoNumber(input))]
  }

  /** Whatever is typed, the stored number reads back as the typed integer;
      text that is not a number clears the number, which the summary then
      shows as an empty cell. */
  lemma ScoNumberRoundTrip(data: Record, n: int, input: string)
    ensures ScoNumberChanged(data, IntToString(n))["SCO Number"] == Num(n)
    ensures ParseInt(input).None? ==> Detail(ScoNumberChanged(data, input), "SCO Number") == ""
  {
    ParseIntOfIntToString(n);
  }

  /** `formatDateAndDays`: falsy gives "", a string is kept, an object gives
      its date (or "") and ` (N days)` when `days` is truthy. */
  function FormatDateAndDays(field: Value): (r: string)
    ensures !Truthy(field) ==> r == ""
    ensures field.Str? ==> r == field.s
    ensures field.Obj? ==> r == OrEmpty(Get(field.fields, "date")) + DaysSuffix(field)
  {
    if !Truthy(field) then ""
    else if field.Str? then field.s
    else OrEmpty(Prop(field, "date").value) + DaysSuffix(field)
  }

  /** An object's `date` when it is truthy (`typeof v === "object" && v?.date`). */
  predicate HasDate(v: Value) {
    (v.Obj? || v.Arr?) && Truthy(Prop(v, "date").value)
  }

  /** The Buyer Signed Date cell: a date object's date, a string as it is,
      anything else "". */
  function BuyerDate(v: Value): (r: string)
    ensures v.Obj? && Truthy(Get(v.fields, "date")) ==> r == ToStr(Get(v.fields, "date"))
    ensures v.Str? ==> r == v.s
    ensures !v.Str? && !HasDate(v) ==> r == ""
  {
    if HasDate(v) then ToStr(Prop(v, "date").value)
    else if v.Str? then v.s
    else ""
  }

  /** The Close of Escrow Date cell: like the buyer's date, and a number is
      printed with `String`. */
  function EscrowDate(v: Value): (r: string)
    ensures v.Num? ==> r == IntToString(v.n)
    ensures !v.Num? ==> r == BuyerDate(v)
  {
    if HasDate(v) then ToStr(Prop(v, "date").value)
    else if v.Str? then v.s
    else if v.Num? then IntToString(v.n)
    else ""
  }

  const ScoTitle := "# Seller Counter Offer (SCO) Summary\n\n"

  /** The items of the summary, in order. */
  const ScoItems: seq<string> := [
    "SCO Number", "Address", "Offer Price", "Seller(s)", "Seller Signed Date", "Buyer(s)",
    "Buyer Signed Date", "Close of Escrow Date", "Offer Expiry Date", "Earnest Deposit",
    "Loan Amount", "Down Payment", "Loan Contingency Due", "Appraisal Contingency",
    "Property Contingency Due", "Seller Disclosure Due", "Title Report Due", "Seller Docs Due"]

  /** The details column, in item order. */
  function ScoDetails(data: Record): (r: seq<string>)
    ensures |r| == 18
  {
    [ Detail(data, "SCO Number"),
      Detail(data, "Address"),
      Detail(data, "Offer price"),
      Detail(data, "Sellers name(s)"),
      DateOf(data, "Seller signed date"),
      Detail(data, "Buyers name(s)"),
      BuyerDate(Get(data, "Buyer signed date")),
      EscrowDate(Get(data, "Close of escrow date")),
      FormatDateAndDays(Get(data, "Offer expiry date")),
      Detail(data, "Earnest deposit"),
      LoanDetail(data),
      Detail(data, "Down payment"),
      FormatDateAndDays(Get(data, "Loan contingency due")),
      FormatDateAndDays(Get(data, "Appraisal contingency due")),
      FormatDateAndDays(Get(data, "Property contingency due")),
      FormatDateAndDays(Get(data, "Seller disclosure due")),
      FormatDateAndDays(Get(data, "Title report due")),
      FormatDateAndDays(Get(data, "Seller docs due")) ]
  }

  function ScoRows(data: Record): seq<Row> {
    Rows(ScoItems, ScoDetails(data))
  }

  /** `generateMarkdownTable(formData)`. */
  function ScoMarkdown(data: Record): string {
    Table(ScoTitle, ScoRows(data))
  }

  /** The summary always has the same 18 items in the same order, whatever
      the data; only the details vary. */
  lemma ScoSummaryItems(data: Record)
    ensures |ScoRows(data)| == 18
    ensures Items(ScoRows(data)) == ScoItems
  {
    ItemsOfRows(ScoItems, ScoDetails(data));
  }

  /** The summary is the title, the header and one line per row, in order. */
  lemma ScoSummaryLayout(data: Record)
    ensures var rows := ScoRows(data);
      ScoMarkdown(data) == ScoTitle + TableHeader + Concat(MapSeq(Line, rows))
  {
    var rows := ScoRows(data);
    LinesInOrder(rows);
    assert ScoMarkdown(data) == ScoTitle + TableHeader + Lines(rows);
  }

  /** The raw data handed to `onSubmit`: the prefix, then the JSON of the
      form data (given as `stringify`). */
  function ScoRaw(stringify: Value -> string, data: Record): (r: string)
    ensures |r| >= 9 && r[..9] == "@@@SCO@@@" && r[9..] == stringify(Obj(data))
  {
    "@@@SCO@@@" + stringify(Obj(data))
  }

  /** `parseDate`: an object's truthy date or a string other than "" and
      "-" goes through `new Date` (given as `newDate`); anything else is
      `null`. */
  function ParseDate(newDate: Value -> Date, v: Value): (r: Option<Date>)
    ensures r.Some? <==> HasDate(v) || (v.Str? && v.s != "" && v.s != "-")
    ensures v.Obj? && Truthy(Get(v.fields, "date")) ==> r == Some(newDate(Get(v.fields, "date")))
  {
    if HasDate(v) then Some(newDate(Prop(v, "date").value))
    else if v.Str? && v.s != "" && v.s != "-" then Some(newDate(v))
    else None
  }

  /** A date the effect wrapped is read back by the picker exactly as the
      string was. */
  lemma WrappedDateParsesAsString(newDate: Value -> Date, s: string)
    requires s != "" && s != "-"
    ensures ParseDate(newDate, DateOnly(s)) == ParseDate(newDate, Str(s)) == Some(newDate(Str(s)))
  {
  }

  /** The dialog's `formData` state and the handlers that replace it. */
  class ScoEditor {
    var form: Record

    /** `useState(initialData)`: the data as given until the effect runs. */
    constructor(initialData: Record)
      ensures form == initialData
    {
      form := initialData;
    }

    method Initialise(initialData: Record)
      modifies this
      ensures form == Normalise(initialData)
    {
      form := NormaliseDates(initialData);
    }

    method HandleTextChange(key: string, value: string)
      modifies this
      ensures form == TextChanged(old(form), key, value)
    {
      form := form[key := Str(value)];
    }

    method HandleDateChange(key: string, date: Option<Date>, day: int -> string)
      modifies this
      ensures form == DateChanged(old(form), key, date, day)
    {
      if date.Some? {
        var dateString := FormatDate(day, date.value);
        if dateString.Some? {
          var v := PickedDate(Get(form, key), dateString.value);
          if v.Some? {
            form := form[key := v.value];
          }
        }
      }
    }

    method HandleDaysChange(key: string, days: string, today: Date,
                            addDays: (Date, int) -> Date, day: int -> string)
      modifies this
      ensures form == DaysChanged(old(form), key, days, today, addDays, day)
    {
      var n := ParseInt(days);
      if n.Some? {
        var dateString := FormatDate(day, addDays(today, n.value));
        if dateString.Some? {
          var next := form[key := Obj(map["days" := Num(n.value), "date" := Str(dateString.value)])];
          form := next;
        }
      }
    }

    method HandleScoNumberChange(input: string)
      modifies this
      ensures form == ScoNumberChanged(old(form), input)
    {
      var n := ParseInt(input);
      form := form["SCO Number" := Num(if n.Some? then n.value else 0)];
    }

    /** `handleSubmit`: the summary and the raw data; the form is unchanged. */
    method HandleSubmit(stringify: Value -> string) returns (markdown: string, raw: string)
      ensures markdown == ScoMarkdown(form)
      ensures raw == ScoRaw(stringify, form)
    {
      markdown := ScoMarkdown(form);
      raw := "@@@SCO@@@" + stringify(Obj(form));
    }
  }
}
