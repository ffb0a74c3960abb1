/** The user permission form: one entry per role, each with an email typed
    in by the user and a list of permissions ticked from a fixed set; it is
    sent as a three-column Markdown table. */
module UserPermissionForm {
  import opened Js

  /** One entry: its other fields (among them `role`), its email and its
      permissions in the order they were ticked. */
  datatype Entry = Entry(fields: map<string, Value>, email: string, permission: seq<string>)

  /** The permissions the form offers. */
  const PermissionOptions: seq<string> := ["agent", "buyer", "admin", "seller", "guest"]

  /** `initialData.map(item => ({...item, email: ""}))`: the state the form
      opens with and returns to on cancel. */
  function Reset(initial: seq<Entry>): (r: seq<Entry>)
    ensures |r| == |initial|
    ensures forall i :: 0 <= i < |initial| ==>
      r[i].email == "" && r[i].fields == initial[i].fields && r[i].permission == initial[i].permission
  {
    seq(|initial|, i requires 0 <= i < |initial| => initial[i].(email := ""))
  }

  /** `newFormData[index].email = value`; None is the TypeError when there
      is no entry `index`. */
  function EmailChanged(entries: seq<Entry>, index: int, value: string): (r: Option<seq<Entry>>)
    ensures r.Some? <==> 0 <= index < |entries|
    ensures r.Some? ==>
      && |r.value| == |entries|
      && r.value[index] == entries[index].(email := value)
      && forall i :: 0 <= i < |entries| && i != index ==> r.value[i] == entries[i]
  {
    if 0 <= index < |entries| then Some(entries[index := entries[index].(email := value)]) else None
  }

  /** `permissions.filter(p => p !== permission)`. */
  function Without(ps: seq<string>, p: string): (r: seq<string>)
    ensures p !in r
    ensures forall q :: q != p ==> (q in r <==> q in ps)
    ensures |r| <= |ps|
  {
    if |ps| == 0 then []
    else if ps[0] == p then Without(ps[1..], p)
    else [ps[0]] + Without(ps[1..], p)
  }

  /** Ticking a permission: a present one is removed everywhere it occurs,
      an absent one is appended. */
  function Toggled(ps: seq<string>, p: string): seq<string> {
    if p in ps then Without(ps, p) else ps + [p]
  }

  /** `handlePermissionChange(index, permission)`; None is the TypeError
      when there is no entry `index`. */
  function PermissionChanged(entries: seq<Entry>, index: int, p: string): (r: Option<seq<Entry>>)
    ensures r.Some? <==> 0 <= index < |entries|
    ensures r.Some? ==>
      && |r.value| == |entries|
      && r.value[index] == entries[index].(permission := Toggled(entries[index].permission, p))
      && forall i :: 0 <= i < |entries| && i != index ==> r.value[i] == entries[i]
  {
    if 0 <= index < |entries| then
      Some(entries[index := entries[index].(permission := Toggled(entries[index].permission, p))])
    else None
  }

  /** A toggle flips whether the permission is held and leaves every other
      permission held or not held as before. */
  lemma ToggleFlipsMembership(ps: seq<string>, p: string)
    ensures p in Toggled(ps, p) <==> p !in ps
    ensures forall q :: q != p ==> (q in Toggled(ps, p) <==> q in ps)
  {
  }

  /** Filtering out a permission that is not there changes nothing. */
  lemma {:induction false} WithoutAbsent(ps: seq<string>, p: string)
    requires p !in ps
    ensures Without(ps, p) == ps
  {
    if |ps| > 0 {
      WithoutAbsent(ps[1..], p);
      assert ps == [ps[0]] + ps[1..];
    }
  }

  /** One step of the filter, on a list written as its head and tail. */
  lemma WithoutCons(x: string, rest: seq<string>, p: string)
    ensures Without([x] + rest, p) == if x == p then Without(rest, p) else [x] + Without(rest, p)
  {
    assert ([x] + rest)[1..] == rest;
  }

  /** Filtering distributes over concatenation. */
  lemma {:induction false} WithoutAppend(a: seq<string>, b: seq<string>, p: string)
    ensures Without(a + b, p) == Without(a, p) + Without(b, p)
  {
    if |a| == 0 {
      assert a + b == b;
    } else {
      var x, rest := a[0], a[1..];
      WithoutAppend(rest, b, p);
      assert a == [x] + rest && a + b == [x] + (rest + b);
      WithoutCons(x, rest, p);
      WithoutCons(x, rest + b, p);
    }
  }

  /** Removing a permission keeps the others in the order they had. */
  lemma {:induction false} WithoutKeepsOrder(ps: seq<string>, p: string, i: nat, j: nat)
    requires i < j < |ps| && ps[i] != p && ps[j] != p
    ensures exists a, b :: 0 <= a < b < |Without(ps, p)| && Without(ps, p)[a] == ps[i] && Without(ps, p)[b] == ps[j]
  {
    var w := Without(ps, p);
    if i == 0 {
      assert w == [ps[0]] + Without(ps[1..], p);
      assert ps[j] in Without(ps[1..], p) by { assert ps[1..][j - 1] == ps[j]; }
      var b' :| 0 <= b' < |Without(ps[1..], p)| && Without(ps[1..], p)[b'] == ps[j];
      assert w[0] == ps[i] && w[b' + 1] == ps[j];
    } else {
      WithoutKeepsOrder(ps[1..], p, i - 1, j - 1);
      var a, b :| 0 <= a < b < |Without(ps[1..], p)| && Without(ps[1..], p)[a] == ps[1..][i - 1]
                  && Without(ps[1..], p)[b] == ps[1..][j - 1];
      if ps[0] == p {
        assert w == Without(ps[1..], p);
        assert w[a] == ps[i] && w[b] == ps[j];
      } else {
        assert w == [ps[0]] + Without(ps[1..], p);
        assert w[a + 1] == ps[i] && w[b + 1] == ps[j];
      }
    }
  }

  /** Ticking an absent permission and then unticking it restores the list. */
  lemma ToggleTwiceRestores(ps: seq<string>, p: string)
    requires p !in ps
    ensures Toggled(Toggled(ps, p), p) == ps
  {
    WithoutAppend(ps, [p], p);
    WithoutAbsent(ps, p);
    assert Without([p], p) == [];
  }

  /** Unticking a held permission and ticking it again moves it, once, to
      the end. */
  lemma ToggleTwiceMovesToEnd(ps: seq<string>, p: string)
    requires p in ps
    ensures Toggled(Toggled(ps, p), p) == Without(ps, p) + [p]
  {
  }

  const PermissionHeader := "| Role | Email | Permissions |\n| --- | --- | --- |\n"

  /** One entry's line: its role, its email and its permissions joined by ", ". */
  function EntryLine(e: Entry): string {
    "| " + ToStr(Get(e.fields, "role")) + " | " + e.email + " | " + Join(e.permission, ", ") + " |\n"
  }

  /** The lines of the entries, first entry first. */
  function EntryLines(entries: seq<Entry>): string {
    if |entries| == 0 then ""
    else EntryLines(entries[..|entries| - 1]) + EntryLine(entries[|entries| - 1])
  }

  /** `generateMarkdownTable(formData)`. */
  function PermissionMarkdown(entries: seq<Entry>): string {
    PermissionHeader + EntryLines(entries)
  }

  /** `generateMarkdownTable`, as the source builds it: `+=` in a `forEach`
      after the two header lines. */
  method GenerateMarkdownTable(data: seq<Entry>) returns (markdown: string)
    ensures markdown == PermissionMarkdown(data)
  {
    var body := "";
    for j := 0 to |data|
      invariant body == EntryLines(data[..j])
    {
      assert data[..j + 1][..j] == data[..j];
      body := body + EntryLine(data[j]);
    }
    assert data[..|data|] == data;
    markdown := PermissionHeader + body;
  }

  /** The table is the two header lines and then one line per entry, in
      entry order. */
  lemma {:induction false} EntryLinesInOrder(entries: seq<Entry>)
    ensures EntryLines(entries) == Concat(MapSeq(EntryLine, entries))
  {
    if |entries| > 0 {
      var init := entries[..|entries| - 1];
      EntryLinesInOrder(init);
      ConcatSnoc(MapSeq(EntryLine, init), EntryLine(entries[|entries| - 1]));
    }
  }

  /** The dialog's `formData` state and its handlers. */
  class PermissionEditor {
    var entries: seq<Entry>
    /** The entries the dialog was opened with. */
    const initial: seq<Entry>

    constructor(initialData: seq<Entry>)
      ensures initial == initialData && entries == Reset(initialData)
    {
      initial := initialData;
      entries := Reset(initialData);
    }

    method HandleEmailChange(index: int, value: string)
      modifies this
      ensures var r := EmailChanged(old(entries), index, value);
        entries == (if r.Some? then r.value else old(entries))
    {
      if 0 <= index < |entries| {
        entries := entries[index := entries[index].(email := value)];
      }
    }

    method HandlePermissionChange(index: int, p: string)
      modifies this
      ensures var r := PermissionChanged(old(entries), index, p);
        entries == (if r.Some? then r.value else old(entries))
    {
      if 0 <= index < |entries| {
        var ps := entries[index].permission;
        if p in ps {
          ps := Without(ps, p);
        } else {
          ps := ps + [p];
        }
        entries := entries[index := entries[index].(permission := ps)];
      }
    }

    /** `handleCancel`: back to the opening state. */
    method HandleCancel()
      modifies this
      ensures entries == Reset(initial)
    {
      entries := Reset(initial);
    }

    /** `handleSubmit`: the table handed to the chat; the state is unchanged. */
    method HandleSubmit() returns (markdown: string)
      ensures markdown == PermissionMarkdown(entries)
    {
      markdown := GenerateMarkdownTable(entries);
    }
  }
}
