/** The residential purchase agreement (RPA) edit form: fields edited one
    at a time, submitted as a 25-row summary and the JSON of the form data
    wrapped with the marker "RPA". */
module RpaForm {
  import opened Js
  import opened DocumentFields

  /** `formatDateAndDays` of this form: falsy gives ""; otherwise the
      field's date (or "") and ` (N days)` when `days` is truthy. A string
      has neither, so it gives "". */
  function FormatDateAndDays(field: Value): (r: string)
    ensures !Truthy(field) ==> r == ""
    ensures field.Str? ==> r == ""
    ensures field.Obj? ==> r == OrEmpty(Get(field.fields, "date")) + DaysSuffix(field)
  {
    if !Truthy(field) then ""
    else OrEmpty(Prop(field, "date").value) + DaysSuffix(field)
  }

  const NoAppraisal := "No appraisal contigency"

  /** Whether `formatDateAndDays(field)` returns a truthy value before it
      is printed: the field is truthy and either its date is truthy (kept
      as it is by `field.date || ""`) or its days are (which appends text). */
  predicate AppraisalGiven(field: Value) {
    Truthy(field) && (Truthy(Prop(field, "date").value) || Truthy(Prop(field, "days").value))
  }

  /** The Appraisal Contingency cell: `formatDateAndDays(field) || fallback`.
      The `||` tests the value the helper returns, not its printed text, so
      a truthy date that prints as "" (an empty array) gives an empty cell. */
  function AppraisalDetail(field: Value): (r: string)
    ensures !Truthy(field) ==> r == NoAppraisal
    ensures Truthy(field) && !Truthy(Prop(field, "date").value) && !Truthy(Prop(field, "days").value)
            ==> r == NoAppraisal
    ensures Truthy(field) && (Truthy(Prop(field, "date").value) || Truthy(Prop(field, "days").value))
            ==> r == FormatDateAndDays(field)
  {
    if AppraisalGiven(field) then FormatDateAndDays(field) else NoAppraisal
  }

  /** The fixed text replaces only an empty formatted appraisal. */
  lemma FallbackOnlyWhenEmpty(field: Value)
    requires AppraisalDetail(field) == NoAppraisal && FormatDateAndDays(field) != NoAppraisal
    ensures FormatDateAndDays(field) == ""
  {
  }

  /** The converse fails: a date that is an empty array is truthy, so the
      fixed text is not used, yet it prints as "". */
  lemma ArrayDateShowsEmptyCell()
    ensures FormatDateAndDays(Obj(map["date" := Arr([])])) == ""
    ensures AppraisalDetail(Obj(map["date" := Arr([])])) == ""
  {
    var field := Obj(map["date" := Arr([])]);
    assert Prop(field, "date").value == Arr([]);
    assert Prop(field, "days").value == Undefined;
    assert ToStr(Arr([])) == "";
  }

  /** An appraisal contingency given as a plain string, whatever it says,
      is shown as the fixed "no contingency" text. */
  lemma StringAppraisalIsNeverShown(s: string)
    ensures AppraisalDetail(Str(s)) == NoAppraisal
  {
  }

  /** An appraisal contingency with a date is shown with that date. */
  lemma DatedAppraisalIsShown(m: map<string, Value>, date: string)
    requires "date" in m && m["date"] == Str(date) && date != ""
    ensures AppraisalDetail(Obj(m)) == date + DaysSuffix(Obj(m))
  {
  }

  const RpaTitle := "# Real Estate Transaction Summary\n\n"

  /** The items of the summary, in order. */
  const RpaItems: seq<string> := [
    "Address", "City", "Zip Code", "Parcel Number", "Offer Price", "Earnest Deposit",
    "Loan Amount", "Down Payment", "Seller(s)", "Seller Signed Date", "Seller's Agent",
    "Seller Agent Sign Date", "Buyer(s)", "Buyer Signed Date", "Buyer's Agent",
    "Buyer Agent Sign Date", "Document Preparation Date", "Close of Escrow Date",
    "Offer Expiry Date", "Loan Contingency Due", "Appraisal Contingency",
    "Property Contingency Due", "Seller Disclosure Due", "Title Report Due", "Seller Docs Due"]

  /** The details column, in item order. */
  function RpaDetails(data: Record): (r: seq<string>)
    ensures |r| == 25
  {
    [ Detail(data, "Address"),
      Detail(data, "City"),
      Detail(data, "Zip code"),
      Detail(data, "Parcel number"),
      Detail(data, "Offer price"),
      Detail(data, "Earnest deposit"),
      LoanDetail(data),
      Detail(data, "Down payment"),
      Detail(data, "Sellers name(s)"),
      DateOf(data, "Seller signed date"),
      Detail(data, "Seller agent details"),
      DateOf(data, "Seller Agent Sign Date"),
      Detail(data, "Buyers name(s)"),
      DateOf(data, "Buyer signed date"),
      Detail(data, "Buyer agent details"),
      DateOf(data, "Buyer Agent Sign Date"),
      DateOf(data, "Doc preparation date"),
      DateOf(data, "Close of escrow date"),
      FormatDateAndDays(Get(data, "Offer expiry date")),
      FormatDateAndDays(Get(data, "Loan contingency due")),
      AppraisalDetail(Get(data, "Appraisal contingency due")),
      FormatDateAndDays(Get(data, "Property contingency due")),
      FormatDateAndDays(Get(data, "Seller disclosure due")),
      FormatDateAndDays(Get(data, "Title report due")),
      FormatDateAndDays(Get(data, "Seller docs due")) ]
  }

  function RpaRows(data: Record): seq<Row> {
    Rows(RpaItems, RpaDetails(data))
  }

  /** `generateMarkdownTable(formData)`, the generator the submit uses. */
  function RpaMarkdown(data: Record): string {
    Table(RpaTitle, RpaRows(data))
  }

  /** The summary always has the same 25 items in the same order. */
  lemma RpaSummaryItems(data: Record)
    ensures |RpaRows(data)| == 25
    ensures Items(RpaRows(data)) == RpaItems
  {
    ItemsOfRows(RpaItems, RpaDetails(data));
  }

  /** The summary is the title, the header and one line per row, in order. */
  lemma RpaSummaryLayout(data: Record)
    ensures var rows := RpaRows(data);
      RpaMarkdown(data) == RpaTitle + TableHeader + Concat(MapSeq(Line, rows))
  {
    var rows := RpaRows(data);
    LinesInOrder(rows);
    assert RpaMarkdown(data) == RpaTitle + TableHeader + Lines(rows);
  }

  /** Fields that are missing show as empty cells; the loan amount keeps
      its separating space and the appraisal falls back to its text. */
  lemma RpaMissingFields(data: Record)
    requires "Address" !in data && "Loan amount" !in data && "Loan percentage" !in data
    requires "Appraisal contingency due" !in data && "Seller signed date" !in data
    ensures RpaDetails(data)[0] == ""
    ensures RpaDetails(data)[6] == " "
    ensures RpaDetails(data)[9] == ""
    ensures RpaDetails(data)[20] == NoAppraisal
  {
    var d := RpaDetails(data);
    assert d[0] == Detail(data, "Address");
    assert d[6] == LoanDetail(data);
    assert d[9] == DateOf(data, "Seller signed date");
    assert d[20] == AppraisalDetail(Get(data, "Appraisal contingency due"));
  }

  /** The object handed to `JSON.stringify`: `{data: formData, marker: "RPA"}`. */
  function RpaPayload(data: Record): (r: Value)
    ensures r.Obj? && r.fields.Keys == {"data", "marker"}
    ensures r.fields["data"] == Obj(data) && r.fields["marker"] == Str("RPA")
  {
    Obj(map["data" := Obj(data), "marker" := Str("RPA")])
  }

  /** `parseDate` of this form: an object with a truthy date or a non-empty
      string goes through `new Date` (given as `newDate`); `null` throws on
      `.date`; anything else is `null`. */
  function ParseDate(newDate: Value -> Date, v: Value): (r: Parsed)
    ensures r.Throws? <==> v.Null?
    ensures r.ParsedDate? <==>
      ((v.Obj? || v.Arr?) && Truthy(Prop(v, "date").value)) || (v.Str? && v.s != "")
    ensures v.Obj? && Truthy(Get(v.fields, "date")) ==> r == ParsedDate(newDate(Get(v.fields, "date")))
  {
    if v.Null? then Throws
    else if (v.Obj? || v.Arr?) && Truthy(Prop(v, "date").value) then ParsedDate(newDate(Prop(v, "date").value))
    else if v.Str? && v.s != "" then ParsedDate(newDate(v))
    else NoDate
  }

  /** The dialog's `formData` state and the handlers that replace it. */
  class RpaEditor {
    var form: Record

    /** `useState(initialData)`. */
    constructor(initialData: Record)
      ensures form == initialData
    {
      form := initialData;
    }

    method HandleTextChange(key: string, value: string)
      modifies this
      ensures form == TextChanged(old(form), key, value)
    {
      form := form[key := Str(value)];
    }

    method HandleDateChange(key: string, date: Option<Date>, day: int -> string)
      modifies this
      ensures form == DateChanged(old(form), key, date, day)
    {
      if date.Some? {
        var dateString := FormatDate(day, date.value);
        if dateString.Some? {
          var v := PickedDate(Get(form, key), dateString.value);
          if v.Some? {
            form := form[key := v.value];
          }
        }
      }
    }

    method HandleDaysChange(key: string, days: string, today: Date,
                            addDays: (Date, int) -> Date, day: int -> string)
      modifies this
      ensures form == DaysChanged(old(form), key, days, today, addDays, day)
    {
      var n := ParseInt(days);
      if n.Some? {
        var dateString := FormatDate(day, addDays(today, n.value));
        if dateString.Some? {
          var next := form[key := Obj(map["days" := Num(n.value), "date" := Str(dateString.value)])];
          form := next;
        }
      }
    }

    /** `handleSubmit`: the live summary and the wrapped JSON (given as
        `stringify`); the form is unchanged. */
    method HandleSubmit(stringify: Value -> string) returns (markdown: string, raw: string)
      ensures markdown == RpaMarkdown(form)
      ensures raw == stringify(RpaPayload(form))
    {
      markdown := RpaMarkdown(form);
      raw := stringify(Obj(map["data" := Obj(form), "marker" := Str("RPA")]));
    }
  }
}
