/** What `strings_to_dates`, `assign_attributes` and the decision of
    `get_or_create` guarantee. */
module HelpersProperties {

  import opened Wrappers
  import opened Dicts
  import opened Json
  import opened Text
  import opened Schema
  import opened Helpers

  // ---- get_field_type ---------------------------------------------------

  /** A column, a proxy to a remote column and a hybrid giving a SQL
      expression have a type, the one they carry; relationships, methods,
      constants, untyped hybrids and proxies to a relationship have none.
      So a Date or DateTime column is a date field and an Interval column an
      interval field. */
  lemma FieldTypeOfAttribute(reg: Registry, kind: string, name: string)
    requires name in ModelOf(reg, kind).attrs
    ensures var a := ModelOf(reg, kind).attrs[name];
      (a.Column? ==> GetFieldType(reg, kind, name) == Ok(Some(a.ftype))) &&
      (a.Proxy? && a.remote.RemoteColumn? ==> GetFieldType(reg, kind, name) == Ok(Some(a.remote.ftype))) &&
      (a.Hybrid? ==> GetFieldType(reg, kind, name) == Ok(a.expr)) &&
      (a.Relation? || a.Other? || (a.Proxy? && a.remote.RemoteRelation?) ==> GetFieldType(reg, kind, name) == Ok(None))
    ensures var a := ModelOf(reg, kind).attrs[name];
      (a.Column? && (a.ftype == Date || a.ftype == DateTime) ==> IsDateField(reg, kind, name) == Ok(true)) &&
      (a.Column? && a.ftype == Interval ==> IsIntervalField(reg, kind, name) == Ok(true))
  {
  }

  // ---- strings_to_dates, one field -------------------------------------

  /** A field fails to convert exactly when the class lacks it, or when it
      is a date field holding something other than None or a string. */
  lemma ConvertFieldFails(reg: Registry, kind: string, name: string, value: Val)
    ensures ConvertField(reg, kind, name, value).Err? <==> (name !in ModelOf(reg, kind).attrs ||
      (IsDateField(reg, kind, name) == Ok(true) && value != Data(JNull) && !(value.Data? && value.j.JStr?)))
  {
  }

  /** A blank or whitespace-only string in a date field becomes None. */
  lemma BlankDateBecomesNone(reg: Registry, kind: string, name: string, s: string)
    requires IsDateField(reg, kind, name) == Ok(true) && IsBlank(s)
    ensures ConvertField(reg, kind, name, Data(JStr(s))) == Ok(Data(JNull))
  {
  }

  /** A current-time marker in a date field becomes the database function
      named by the marker in lower case. */
  lemma MarkerBecomesNow(reg: Registry, kind: string, name: string, s: string)
    requires IsDateField(reg, kind, name) == Ok(true) && s in CURRENT_TIME_MARKERS
    ensures ConvertField(reg, kind, name, Data(JStr(s))) == Ok(Now(Lower(s)))
  {
    assert !IsBlank(s) by {
      assert s[0] != ' ' && !IsSpace(s[0]);
    }
  }

  /** Any other string in a date field is parsed; a Date column keeps only
      the date, a DateTime column the date and time. */
  lemma DateStringParsed(reg: Registry, kind: string, name: string, s: string)
    requires IsDateField(reg, kind, name) == Ok(true) && !IsBlank(s) && s !in CURRENT_TIME_MARKERS
    ensures GetFieldType(reg, kind, name) == Ok(Some(Date)) ==> ConvertField(reg, kind, name, Data(JStr(s))) == Ok(Day(s))
    ensures GetFieldType(reg, kind, name) == Ok(Some(DateTime)) ==> ConvertField(reg, kind, name, Data(JStr(s))) == Ok(Moment(s))
  {
  }

  /** An integer in an interval field becomes that many seconds; `True` and
      `False` count as the integers 1 and 0. Any other value is copied. */
  lemma IntervalSeconds(reg: Registry, kind: string, name: string, v: Val)
    requires IsIntervalField(reg, kind, name) == Ok(true)
    ensures v.Data? && v.j.JInt? ==> ConvertField(reg, kind, name, v) == Ok(Span(v.j.i))
    ensures v == Data(JBool(true)) ==> ConvertField(reg, kind, name, v) == Ok(Span(1))
    ensures !(v.Data? && IsInt(v.j)) ==> ConvertField(reg, kind, name, v) == Ok(v)
  {
  }

  /** None, and every value of a field that is neither a date nor an
      interval, is copied unchanged. */
  lemma OthersCopied(reg: Registry, kind: string, name: string, v: Val)
    requires name in ModelOf(reg, kind).attrs
    requires v == Data(JNull) || GetFieldType(reg, kind, name).value !in {Some(Date), Some(DateTime), Some(Interval)}
    ensures ConvertField(reg, kind, name, v) == Ok(v)
  {
  }

  // ---- strings_to_dates, the whole dict --------------------------------

  /** The converted dict has exactly the keys of the input, in its order,
      and holds the conversion of every input value. */
  lemma StringsToDatesShape(reg: Registry, kind: string, d: Dict<Val>, r: Dict<Val>)
    requires Distinct(Keys(d)) && StringsToDatesSpec(reg, kind, d) == Ok(r)
    ensures Keys(r) == Keys(d)
    ensures forall j :: 0 <= j < |d| ==>
      d[j].0 in Keys(r) && ConvertField(reg, kind, d[j].0, d[j].1) == Ok(Get(r, d[j].0))
  {
    var items := ConvertItems(reg, kind, d, |d|).value;
    ConvertItemsShape(reg, kind, d, |d|, items);
    assert r == Assigned([], items);
    AssignedSameKeys(d, items);
  }

  /** Assigning items keyed like a dict without repeated keys, starting
      from an empty dict, gives that dict's keys, each holding its item. */
  lemma AssignedSameKeys(d: Dict<Val>, items: Dict<Val>)
    requires Distinct(Keys(d)) && |items| == |d|
    requires forall j :: 0 <= j < |d| ==> items[j].0 == d[j].0
    ensures Keys(Assigned([], items)) == Keys(d)
    ensures forall j :: 0 <= j < |d| ==>
      d[j].0 in Keys(Assigned([], items)) && Get(Assigned([], items), d[j].0) == items[j].1
  {
    assert Keys(items) == Keys(d);
    assert forall i, j :: 0 <= i < j < |items| ==> items[i].0 != items[j].0 by {
      forall i, j | 0 <= i < j < |items|
        ensures items[i].0 != items[j].0
      {
        assert Keys(d)[i] == d[i].0 && Keys(d)[j] == d[j].0;
      }
    }
    AssignedFresh(items);
  }

  /** Assigning items whose keys are all different to an empty dict gives
      those items back, key by key and in order. */
  lemma AssignedFresh(items: Dict<Val>)
    requires forall i, j :: 0 <= i < j < |items| ==> items[i].0 != items[j].0
    ensures Keys(Assigned([], items)) == Keys(items)
    ensures forall j :: 0 <= j < |items| ==>
      items[j].0 in Keys(Assigned([], items)) && Get(Assigned([], items), items[j].0) == items[j].1
  {
    assert Keys(Assigned([], items)) == Keys(items) by {
      AssignedFreshKeys(items, |items|);
      assert items[..|items|] == items;
    }
    forall j | 0 <= j < |items|
      ensures items[j].0 in Keys(Assigned([], items)) && Get(Assigned([], items), items[j].0) == items[j].1
    {
      AssignedSetsAt([], items, j);
    }
  }

  /** `strings_to_dates` fails exactly when one of the values does not
      convert, and then with AttributeError. */
  lemma StringsToDatesFails(reg: Registry, kind: string, d: Dict<Val>)
    ensures StringsToDatesSpec(reg, kind, d).Err? <==>
      exists j :: 0 <= j < |d| && ConvertField(reg, kind, d[j].0, d[j].1).Err?
    ensures StringsToDatesSpec(reg, kind, d).Err? ==> StringsToDatesSpec(reg, kind, d).error == AttributeError
  {
    ConvertItemsFails(reg, kind, d, |d|);
  }

  /** Item `j` of the converted items is item `j` of the input, converted. */
  lemma {:induction false} ConvertItemsShape(reg: Registry, kind: string, d: Dict<Val>, n: nat, items: Dict<Val>)
    requires n <= |d| && ConvertItems(reg, kind, d, n) == Ok(items)
    ensures forall j :: 0 <= j < n ==> items[j].0 == d[j].0 && ConvertField(reg, kind, d[j].0, d[j].1) == Ok(items[j].1)
  {
    if n > 0 {
      var prev := ConvertItems(reg, kind, d, n - 1);
      ConvertItemsShape(reg, kind, d, n - 1, prev.value);
    }
  }

  /** The items convert exactly when each of them does. */
  lemma {:induction false} ConvertItemsFails(reg: Registry, kind: string, d: Dict<Val>, n: nat)
    requires n <= |d|
    ensures ConvertItems(reg, kind, d, n).Err? <==> exists j :: 0 <= j < n && ConvertField(reg, kind, d[j].0, d[j].1).Err?
  {
    if n > 0 {
      ConvertItemsFails(reg, kind, d, n - 1);
    }
  }

  // ---- the dict after a run of assignments -----------------------------

  /** Item `j` holds its value at the end, when no later item names the same key. */
  lemma {:induction false} AssignedSetsAt(fields: Dict<Val>, items: Dict<Val>, j: nat)
    requires j < |items|
    requires forall i :: j < i < |items| ==> items[i].0 != items[j].0
    ensures items[j].0 in Keys(Assigned(fields, items)) && Get(Assigned(fields, items), items[j].0) == items[j].1
    decreases |items|
  {
    var init := items[..|items| - 1];
    if j < |items| - 1 {
      AssignedSetsAt(fields, init, j);
    }
  }

  /** Exactly the keys already there and the assigned ones are present, and
      every key not assigned keeps its value. */
  lemma {:induction false} AssignedKeeps(fields: Dict<Val>, items: Dict<Val>)
    ensures forall k :: k in Keys(Assigned(fields, items)) <==> k in Keys(fields) || k in Keys(items)
    ensures forall k :: k in Keys(fields) && k !in Keys(items) ==>
      Get(Assigned(fields, items), k) == Get(fields, k)
    decreases |items|
  {
    if items != [] {
      var init := items[..|items| - 1];
      AssignedKeeps(fields, init);
      assert Keys(items) == Keys(init) + [items[|items| - 1].0];
    }
  }

  /** Assigning keys that are all different, starting from an empty dict,
      keeps their order: the first `n` items give the keys of those items. */
  lemma {:induction false} AssignedFreshKeys(items: Dict<Val>, n: nat)
    requires n <= |items|
    requires forall i, j :: 0 <= i < j < |items| ==> items[i].0 != items[j].0
    ensures Keys(Assigned([], items[..n])) == Keys(items[..n])
    decreases n
  {
    if n > 0 {
      AssignedFreshKeys(items, n - 1);
      AssignedFreshStep(items, n);
    }
  }

  /** One more item with a new key adds that key at the end. */
  lemma AssignedFreshStep(items: Dict<Val>, n: nat)
    requires 0 < n <= |items|
    requires Keys(Assigned([], items[..n - 1])) == Keys(items[..n - 1])
    requires forall i :: 0 <= i < n - 1 ==> items[i].0 != items[n - 1].0
    ensures Keys(Assigned([], items[..n])) == Keys(items[..n])
  {
    assert items[n - 1].0 !in Keys(items[..n - 1]);
    AssignedPrefix([], items, n - 1);
    KeysSnoc(items, n);
  }

  // ---- assign_attributes -----------------------------------------------

  /** When `assign_attributes` raises TypeError, the keywords before the
      first one the class lacks are set, and that one and all after it are
      not: attributes they name keep their old values. */
  lemma AssignStopsAtMissing(reg: Registry, kind: string, fields: Dict<Val>, kwargs: Dict<Val>)
    requires Distinct(Keys(kwargs))
    requires FirstMissing(reg, kind, kwargs) < |kwargs|
    ensures var n := FirstMissing(reg, kind, kwargs);
      var after := Assigned(fields, kwargs[..n]);
      (forall j :: 0 <= j < n ==> kwargs[j].0 in Keys(after) && Get(after, kwargs[j].0) == kwargs[j].1) &&
      (forall j :: n <= j < |kwargs| && kwargs[j].0 in Keys(fields) ==>
         kwargs[j].0 in Keys(after) && Get(after, kwargs[j].0) == Get(fields, kwargs[j].0)) &&
      (forall j :: n <= j < |kwargs| && kwargs[j].0 !in Keys(fields) ==> kwargs[j].0 !in Keys(after))
  {
    var n := FirstMissing(reg, kind, kwargs);
    var done := kwargs[..n];
    AssignedKeeps(fields, done);
    forall j | 0 <= j < n
      ensures kwargs[j].0 in Keys(Assigned(fields, done)) && Get(Assigned(fields, done), kwargs[j].0) == kwargs[j].1
    {
      forall i | j < i < n
        ensures done[i].0 != done[j].0
      {
        assert Keys(kwargs)[i] == kwargs[i].0 && Keys(kwargs)[j] == kwargs[j].0;
      }
      AssignedSetsAt(fields, done, j);
    }
    forall j | n <= j < |kwargs|
      ensures kwargs[j].0 !in Keys(done)
    {
      forall i | 0 <= i < n
        ensures Keys(done)[i] != kwargs[j].0
      {
        assert Keys(kwargs)[i] == kwargs[i].0 && Keys(kwargs)[j] == kwargs[j].0;
      }
    }
  }

  // ---- get_or_create ---------------------------------------------------

  /** A missing primary-key value always means a new instance. */
  lemma MissingKeyCreates(reg: Registry, kind: string, attrs: Dict<Val>, rows: seq<Row>, k: string)
    requires k in PrimaryKeyNames(reg, kind) && k !in Keys(attrs)
    ensures Decide(reg, kind, attrs, rows) == Create
  {
  }

  /** An update assigns only non-key attributes, so however far the
      assignment gets, the updated row keeps its primary-key values. */
  lemma UpdateKeepsPrimaryKeys(reg: Registry, kind: string, attrs: Dict<Val>, rows: seq<Row>, n: nat)
    requires Decide(reg, kind, attrs, rows).Update?
    requires n <= |Filter(attrs, PrimaryKeyNames(reg, kind), false)|
    ensures var row := rows[Decide(reg, kind, attrs, rows).index];
      var after := Assigned(row.fields, Filter(attrs, PrimaryKeyNames(reg, kind), false)[..n]);
      forall k :: k in PrimaryKeyNames(reg, kind) ==>
        k in Keys(row.fields) && k in Keys(after) && Get(after, k) == Get(row.fields, k) && Get(after, k) == Get(attrs, k)
  {
    var pk := PrimaryKeyNames(reg, kind);
    var row := rows[Decide(reg, kind, attrs, rows).index];
    var kwargs := Filter(attrs, pk, false);
    AssignedKeeps(row.fields, kwargs[..n]);
    forall k | k in pk
      ensures k in Keys(row.fields) && Get(row.fields, k) == Get(attrs, k) && k !in Keys(kwargs[..n])
    {
      var e := attrs[IndexOf(attrs, k)];
      assert e in Filter(attrs, pk, true);
      forall i | 0 <= i < n
        ensures Keys(kwargs[..n])[i] != k
      {
        assert kwargs[i] in kwargs;
      }
    }
  }

  /** Without primary-key columns every request updates the first row of
      its class, whatever it holds. */
  lemma NoKeyUpdatesFirstRow(reg: Registry, kind: string, attrs: Dict<Val>, rows: seq<Row>, i: nat)
    requires PrimaryKeyNames(reg, kind) == []
    requires i < |rows| && rows[i].kind == kind
    requires forall j :: 0 <= j < i ==> rows[j].kind != kind
    ensures Decide(reg, kind, attrs, rows) == Update(i)
  {
    var values := Filter(attrs, [], true);
    assert Matches(rows[i], kind, values);
  }
}
