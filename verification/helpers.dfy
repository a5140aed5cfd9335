/** The helpers that shape a request's attributes before they reach the
    database: `strings_to_dates`, `assign_attributes` and `get_or_create`.
    Mapped objects are `Instance` objects; the database is a `Session`
    holding the instances a query can find (`rows`) and the instances
    `get_or_create` constructs (`built`). */
module Helpers {

  import opened Wrappers
  import opened Dicts
  import opened Json
  import opened Text
  import opened Schema

  /** A mapped object: its class, fixed when it is made, and its attribute values. */
  class Instance {
    const kind: string
    var fields: Dict<Val>

    constructor (kind: string, fields: Dict<Val>)
      ensures this.kind == kind && this.fields == fields
    {
      this.kind := kind;
      this.fields := fields;
    }
  }

  /** An attribute value on its way to the database. */
  datatype Val =
    | Data(j: Json)            // as the request gave it
    | Now(name: string)        // `getattr(func, name)()`: the database's current-time function
    | Moment(text: string)     // `parse_datetime(text)`
    | Day(text: string)        // `parse_datetime(text).date()`
    | Span(seconds: int)       // `datetime.timedelta(seconds=...)`
    | Ref(obj: Instance)       // an instance
    | Refs(items: seq<Val>)    // a list of what `get_or_create` returned

  /** String values that stand for the database's current time. */
  const CURRENT_TIME_MARKERS: seq<string> := ["CURRENT_TIMESTAMP", "CURRENT_DATE", "LOCALTIMESTAMP"]

  /** `isinstance(value, int)` for request data: booleans are integers too. */
  predicate IsInt(j: Json)
  {
    j.JInt? || j.JBool?
  }

  function IntOf(j: Json): int
    requires IsInt(j)
  {
    if j.JInt? then j.i else if j.b then 1 else 0
  }

  /** One pass of the `strings_to_dates` loop: the value stored under
      `name`. A date field turns a blank string into None, a current-time
      marker into the database function of that name in lower case, and any
      other string into a parsed date and time, or its date for a Date
      column; any other value but None has no `strip` (AttributeError). An
      interval field turns an integer into that many seconds. Everything
      else is copied; a name the class lacks raises AttributeError. */
  function ConvertField(reg: Registry, kind: string, name: string, value: Val): (r: Result<Val, Error>)
    ensures r.Err? ==> r.error == AttributeError
  {
    var date :- IsDateField(reg, kind, name);
    if date && value != Data(JNull) then
      if !(value.Data? && value.j.JStr?) then Err(AttributeError)
      else
        var s := value.j.s;
        if IsBlank(s) then Ok(Data(JNull))
        else if s in CURRENT_TIME_MARKERS then Ok(Now(Lower(s)))
        else if GetFieldType(reg, kind, name) == Ok(Some(Date)) then Ok(Day(s))
        else Ok(Moment(s))
    else if IsIntervalField(reg, kind, name) == Ok(true) && value.Data? && IsInt(value.j) then Ok(Span(IntOf(value.j)))
    else Ok(value)
  }

  /** The items of `d` before `n`, each with its converted value, in
      order; the first item that does not convert ends it with its error. */
  function ConvertItems(reg: Registry, kind: string, d: Dict<Val>, n: nat): (r: Result<Dict<Val>, Error>)
    requires n <= |d|
    ensures r.Ok? ==> |r.value| == n
    ensures r.Err? ==> r.error == AttributeError
  {
    if n == 0 then Ok([])
    else
      var prev :- ConvertItems(reg, kind, d, n - 1);
      var value :- ConvertField(reg, kind, d[n - 1].0, d[n - 1].1);
      Ok(prev + [(d[n - 1].0, value)])
  }

  /** `strings_to_dates(model, dictionary)`: every value converted and
      stored under its key in a new dict. */
  function StringsToDatesSpec(reg: Registry, kind: string, d: Dict<Val>): Result<Dict<Val>, Error>
  {
    var items :- ConvertItems(reg, kind, d, |d|);
    Ok(Assigned([], items))
  }

  /** `strings_to_dates(model, dictionary)`: a new dict, built item by item. */
  method StringsToDates(reg: Registry, kind: string, d: Dict<Val>) returns (r: Result<Dict<Val>, Error>)
    ensures r == StringsToDatesSpec(reg, kind, d)
  {
    var result: Dict<Val> := [];
    ghost var items: Dict<Val> := [];
    for i := 0 to |d|
      invariant ConvertItems(reg, kind, d, i) == Ok(items)
      invariant result == Assigned([], items)
    {
      var (fieldname, value) := d[i];
      var converted := ConvertField(reg, kind, fieldname, value);
      if converted.Err? {
        ConvertFails(reg, kind, d, i, items);
        return Err(converted.error);
      }
      ConvertNext(reg, kind, d, i, items, converted.value);
      items := items + [(fieldname, converted.value)];
      result := Put(result, fieldname, converted.value);
    }
    r := Ok(result);
  }

  /** A converted item extends the converted prefix and its dict by one entry. */
  lemma ConvertNext(reg: Registry, kind: string, d: Dict<Val>, i: nat, items: Dict<Val>, v: Val)
    requires i < |d| && ConvertItems(reg, kind, d, i) == Ok(items)
    requires ConvertField(reg, kind, d[i].0, d[i].1) == Ok(v)
    ensures ConvertItems(reg, kind, d, i + 1) == Ok(items + [(d[i].0, v)])
    ensures Assigned([], items + [(d[i].0, v)]) == Put(Assigned([], items), d[i].0, v)
  {
    AssignedStep([], items, (d[i].0, v));
  }

  /** An item that fails to convert is the error of the whole dict. */
  lemma ConvertFails(reg: Registry, kind: string, d: Dict<Val>, i: nat, items: Dict<Val>)
    requires i < |d| && ConvertItems(reg, kind, d, i) == Ok(items)
    requires ConvertField(reg, kind, d[i].0, d[i].1).Err?
    ensures ConvertItems(reg, kind, d, |d|) == Err(ConvertField(reg, kind, d[i].0, d[i].1).error)
  {
    ConvertStops(reg, kind, d, i + 1, |d|);
  }

  /** Once an item fails, so does every longer prefix, with the same error. */
  lemma {:induction false} ConvertStops(reg: Registry, kind: string, d: Dict<Val>, i: nat, n: nat)
    requires i <= n <= |d| && ConvertItems(reg, kind, d, i).Err?
    ensures ConvertItems(reg, kind, d, n) == ConvertItems(reg, kind, d, i)
    decreases n - i
  {
    if i < n {
      ConvertStops(reg, kind, d, i, n - 1);
    }
  }

  /** Position of the first keyword the class `kind` has no attribute for,
      or the number of keywords when it has them all. */
  function FirstMissing(reg: Registry, kind: string, kwargs: Dict<Val>): (n: nat)
    ensures n <= |kwargs|
    ensures forall j :: 0 <= j < n ==> kwargs[j].0 in ModelOf(reg, kind).attrs
    ensures n < |kwargs| ==> kwargs[n].0 !in ModelOf(reg, kind).attrs
  {
    if kwargs == [] || kwargs[0].0 !in ModelOf(reg, kind).attrs then 0
    else 1 + FirstMissing(reg, kind, kwargs[1..])
  }

  /** The dict after `d[k] = v` (or `setattr`) for every item of `items`, in order. */
  function Assigned(fields: Dict<Val>, items: Dict<Val>): Dict<Val>
    decreases |items|
  {
    if items == [] then fields
    else Put(Assigned(fields, items[..|items| - 1]), items[|items| - 1].0, items[|items| - 1].1)
  }

  /** One more assignment at the end is one more `Put`. */
  lemma AssignedStep(fields: Dict<Val>, items: Dict<Val>, item: (string, Val))
    ensures Assigned(fields, items + [item]) == Put(Assigned(fields, items), item.0, item.1)
  {
    assert (items + [item])[..|items|] == items;
  }

  /** Assigning the first `j + 1` items is assigning the first `j`, then item `j`. */
  lemma AssignedPrefix(fields: Dict<Val>, items: Dict<Val>, j: nat)
    requires j < |items|
    ensures Assigned(fields, items[..j + 1]) == Put(Assigned(fields, items[..j]), items[j].0, items[j].1)
  {
    assert items[..j + 1][..j] == items[..j];
  }

  /** What a query sees of an instance: its class and its attribute values. */
  datatype Row = Row(kind: string, fields: Dict<Val>)

  /** The rows as a query sees them now. */
  function Snapshot(rows: seq<Instance>): (r: seq<Row>)
    reads rows
    ensures |r| == |rows| && forall i :: 0 <= i < |rows| ==> r[i] == Row(rows[i].kind, rows[i].fields)
  {
    if rows == [] then [] else [Row(rows[0].kind, rows[0].fields)] + Snapshot(rows[1..])
  }

  /** The entries of `d` whose key is (`keep`) or is not (`!keep`) in `names`, in order. */
  function Filter(d: Dict<Val>, names: seq<string>, keep: bool): (r: Dict<Val>)
    ensures forall i :: 0 <= i < |r| ==> r[i] in d && (r[i].0 in names) == keep
    ensures forall i :: 0 <= i < |d| && (d[i].0 in names) == keep ==> d[i] in r
  {
    if d == [] then []
    else
      var rest := Filter(d[1..], names, keep);
      if (d[0].0 in names) == keep then [d[0]] + rest else rest
  }

  /** `filter_by(**values)` holds for `row` of class `kind`. */
  predicate Matches(row: Row, kind: string, values: Dict<Val>)
  {
    row.kind == kind &&
    forall i :: 0 <= i < |values| ==> values[i].0 in Keys(row.fields) && Get(row.fields, values[i].0) == values[i].1
  }

  /** `filter_by(**values).first()`: the first row from `from` on that matches. */
  function FindRow(rows: seq<Row>, kind: string, values: Dict<Val>, from: nat): (r: Option<nat>)
    ensures r.Some? ==> from <= r.value < |rows| && Matches(rows[r.value], kind, values)
    ensures forall j :: from <= j < |rows| && (r.None? || j < r.value) ==> !Matches(rows[j], kind, values)
    decreases |rows| - from
  {
    if from >= |rows| then None
    else if Matches(rows[from], kind, values) then Some(from)
    else FindRow(rows, kind, values, from + 1)
  }

  /** What `get_or_create` does with converted attributes: update the first
      row holding the given primary-key values, or create a new instance. */
  datatype Decision = Update(index: nat) | Create

  /** The decision of `get_or_create`: an update only when every primary-key
      name is among the attributes and a row with those key values exists. */
  function Decide(reg: Registry, kind: string, attrs: Dict<Val>, rows: seq<Row>): (r: Decision)
    ensures r.Update? ==>
      (forall k :: k in PrimaryKeyNames(reg, kind) ==> k in Keys(attrs)) &&
      r.index < |rows| && Matches(rows[r.index], kind, Filter(attrs, PrimaryKeyNames(reg, kind), true)) &&
      forall j :: 0 <= j < r.index ==> !Matches(rows[j], kind, Filter(attrs, PrimaryKeyNames(reg, kind), true))
    ensures r.Create? <==>
      (exists k :: k in PrimaryKeyNames(reg, kind) && k !in Keys(attrs)) ||
      forall j :: 0 <= j < |rows| ==> !Matches(rows[j], kind, Filter(attrs, PrimaryKeyNames(reg, kind), true))
  {
    var pk := PrimaryKeyNames(reg, kind);
    if forall k :: k in pk ==> k in Keys(attrs) then
      match FindRow(rows, kind, Filter(attrs, pk, true), 0)
      case Some(i) => Update(i)
      case None => Create
    else Create
  }

  /** The request data of a dict, as attribute values. */
  function Lift(d: Dict<Json>): (r: Dict<Val>)
    ensures |r| == |d| && Keys(r) == Keys(d)
    ensures forall i :: 0 <= i < |d| ==> r[i] == (d[i].0, Data(d[i].1))
  {
    seq(|d|, i requires 0 <= i < |d| => (d[i].0, Data(d[i].1)))
  }

  /** `assign_attributes(instance, **kwargs)`: each keyword is set in
      turn, and the first one the class lacks raises TypeError with the
      earlier ones already set. */
  method AssignAttributes(reg: Registry, obj: Instance, kwargs: Dict<Val>) returns (r: Result<(), Error>)
    modifies obj
    ensures var n := FirstMissing(reg, obj.kind, kwargs);
      (r.Err? <==> n < |kwargs|) && (r.Err? ==> r.error == TypeError) &&
      obj.fields == Assigned(old(obj.fields), kwargs[..n])
  {
    ghost var n := FirstMissing(reg, obj.kind, kwargs);
    for j := 0 to |kwargs|
      invariant j <= n
      invariant obj.fields == Assigned(old(obj.fields), kwargs[..j])
    {
      var (field, value) := kwargs[j];
      if field !in ModelOf(reg, obj.kind).attrs {
        assert j == n;
        return Err(TypeError);
      }
      assert j != n;
      AssignedPrefix(old(obj.fields), kwargs, j);
      obj.fields := Put(obj.fields, field, value);
    }
    assert n == |kwargs|;
    r := Ok(());
  }

  /** The instances the request-handling code works on. */
  class Session {

    /** The instances a query finds, in the order it finds them. */
    const rows: seq<Instance>
    /** The instances `get_or_create` constructed, in order. */
    var built: seq<Instance>

    constructor (rows: seq<Instance>)
      ensures this.rows == rows && built == []
    {
      this.rows := rows;
      built := [];
    }

    /** `model(**attrs)`, the declarative constructor: TypeError for a
        keyword the class lacks, otherwise a new instance with those values. */
    method Construct(reg: Registry, kind: string, attrs: Dict<Val>) returns (r: Result<Instance, Error>)
      modifies this
      ensures FirstMissing(reg, kind, attrs) < |attrs| ==> r.Err? && r.error == TypeError && built == old(built)
      ensures FirstMissing(reg, kind, attrs) == |attrs| ==>
        r.Ok? && fresh(r.value) && r.value.kind == kind && r.value.fields == Assigned([], attrs) &&
        built == old(built) + [r.value]
    {
      if FirstMissing(reg, kind, attrs) < |attrs| {
        return Err(TypeError);
      }
      var obj := new Instance(kind, Assigned([], attrs));
      built := built + [obj];
      r := Ok(obj);
    }

    /** `get_or_create(session, model, attrs)`: anything but a dict comes back
        as it is; otherwise every relation named in `attrs` is replaced by
        the instance (or list of instances) `get_or_create` gives for it, the
        values go through `strings_to_dates`, and `Decide` chooses between
        updating a row with the non-key attributes and constructing a new
        instance from all of them. Instances are never added to the rows. */
    method GetOrCreate(reg: Registry, kind: string, attrs: Json) returns (r: Result<Val, Error>)
      modifies this, rows
      ensures !attrs.JObject? ==> r == Ok(Data(attrs)) && built == old(built)
      ensures old(built) <= built
      ensures r.Ok? && attrs.JObject? ==>
        r.value.Ref? && r.value.obj.kind == kind && (r.value.obj in rows || r.value.obj in built)
      decreases Depth(attrs), 1
    {
      if !attrs.JObject? {
        return Ok(Data(attrs));
      }
      var fields := LinkRelations(reg, kind, attrs);
      if fields.Err? {
        return Err(fields.error);
      }
      var converted := StringsToDates(reg, kind, fields.value);
      if converted.Err? {
        return Err(converted.error);
      }
      match Decide(reg, kind, converted.value, Snapshot(rows)) {
        case Update(i) =>
          var outcome := AssignAttributes(reg, rows[i], Filter(converted.value, PrimaryKeyNames(reg, kind), false));
          if outcome.Err? {
            return Err(outcome.error);
          }
          r := Ok(Ref(rows[i]));
        case Create =>
          var made := Construct(reg, kind, converted.value);
          if made.Err? {
            return Err(made.error);
          }
          r := Ok(Ref(made.value));
      }
    }

    /** The relation loop of `get_or_create`: the value of every relation
        the dict names becomes what `get_or_create` gives for it (a list
        element by element); every other entry keeps its key, place and value. */
    method LinkRelations(reg: Registry, kind: string, attrs: Json) returns (r: Result<Dict<Val>, Error>)
      requires attrs.JObject?
      modifies this, rows
      ensures r.Ok? ==> |r.value| == |attrs.entries|
      ensures r.Ok? ==> forall i :: 0 <= i < |attrs.entries| ==>
        r.value[i].0 == attrs.entries[i].0 &&
        (attrs.entries[i].0 !in GetRelations(reg, kind) ==> r.value[i].1 == Data(attrs.entries[i].1))
      ensures old(built) <= built
      decreases Depth(attrs), 0
    {
      var fields := Lift(attrs.entries);
      var relations := GetRelations(reg, kind);
      for k := 0 to |relations|
        invariant |fields| == |attrs.entries|
        invariant forall i :: 0 <= i < |attrs.entries| ==>
          fields[i].0 == attrs.entries[i].0 &&
          (attrs.entries[i].0 !in relations ==> fields[i].1 == Data(attrs.entries[i].1))
        invariant old(built) <= built
      {
        var rel := relations[k];
        assert rel in relations;
        if rel !in Keys(attrs.entries) {
          continue;
        }
        var related := GetRelatedModel(reg, kind, rel).value;
        var value := Get(attrs.entries, rel);
        assert Depth(value) < Depth(attrs) by {
          assert value == attrs.entries[IndexOf(attrs.entries, rel)].1;
        }
        var linked: Val;
        if value.JList? {
          var items := LinkList(reg, related, value);
          if items.Err? {
            return Err(items.error);
          }
          linked := Refs(items.value);
        } else {
          var x := GetOrCreate(reg, related, value);
          if x.Err? {
            return Err(x.error);
          }
          linked := x.value;
        }
        assert Keys(fields) == Keys(attrs.entries);
        PutEntries(fields, rel, linked);
        fields := Put(fields, rel, linked);
      }
      r := Ok(fields);
    }

    /** `[get_or_create(session, related, r) for r in value]`. */
    method LinkList(reg: Registry, related: string, value: Json) returns (r: Result<seq<Val>, Error>)
      requires value.JList?
      modifies this, rows
      ensures r.Ok? ==> |r.value| == |value.items|
      ensures old(built) <= built
      decreases Depth(value), 0
    {
      var results: seq<Val> := [];
      for j := 0 to |value.items|
        invariant |results| == j
        invariant old(built) <= built
      {
        assert Depth(value.items[j]) <= ItemsDepth(value, 0);
        var x := GetOrCreate(reg, related, value.items[j]);
        if x.Err? {
          return Err(x.error);
        }
        results := results + [x.value];
      }
      r := Ok(results);
    }
  }
}
