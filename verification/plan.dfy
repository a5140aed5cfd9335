/** Query plans (`QueryBuilder.create_query` and `build_query`): the query
    object the source reassigns step by step is modelled as the sequence of
    steps applied to it, in order. */
module Plan {

  import opened Wrappers
  import opened Dicts
  import opened Json
  import opened Text
  import opened Schema
  import opened Filters
  import opened Query

  datatype Direction = Ascending | Descending

  /** One call on the query: `filter(*preds)`, `join(model)`,
      `order_by(*terms)`, `group_by(field)`, `limit(n)`, `offset(n)`. */
  datatype Step =
    | Where(preds: seq<Predicate>)
    | Join(target: string)
    | OrderBy(terms: seq<(Field, Direction)>)
    | GroupBy(field: Field)
    | Limit(count: Json)
    | Offset(count: Json)

  /** The query on `model` with the steps applied to it. */
  datatype QueryPlan = QueryPlan(model: string, steps: seq<Step>)

  /** An order_by entry of the search parameters: `val.field`, `val.direction`. */
  datatype OrderSpec = OrderSpec(field: string, direction: string)

  /** A group_by entry of the search parameters: `groupby.field`. */
  datatype GroupSpec = GroupSpec(field: string)

  datatype SearchParams = SearchParams(
    filters: seq<Filter>,
    orderBy: seq<OrderSpec>,
    groupBy: seq<GroupSpec>,
    limit: Json,
    offset: Json)

  /** `getattr(field, direction)()`: only `asc` and `desc` are modelled;
      every other name raises AttributeError. */
  function DirectionNamed(name: string): (r: Result<Direction, Error>)
    ensures r == Ok(Ascending) <==> name == "asc"
    ensures r == Ok(Descending) <==> name == "desc"
    ensures r.Err? ==> r.error == AttributeError
  {
    if name == "asc" then Ok(Ascending)
    else if name == "desc" then Ok(Descending)
    else Err(AttributeError)
  }

  /** `[create_filt(model, filt) for filt in filters]`: every filter
      compiled, in order; the first failure aborts. */
  function CompileFilters(reg: Registry, model: string, fs: seq<Filter>): (r: Result<seq<Predicate>, Error>)
    ensures r.Ok? <==> forall i :: 0 <= i < |fs| ==> CreateFilter(reg, model, fs[i]).Ok?
    ensures r.Ok? ==> |r.value| == |fs| && forall i :: 0 <= i < |fs| ==> CreateFilter(reg, model, fs[i]) == Ok(r.value[i])
  {
    var rs := seq(|fs|, i requires 0 <= i < |fs| => CreateFilter(reg, model, fs[i]));
    assert forall i :: 0 <= i < |fs| ==> rs[i] == CreateFilter(reg, model, fs[i]);
    Collect(rs)
  }

  /** The steps for one order entry. A dotted name `rel__f` must split into
      exactly two pieces (ValueError), `rel` must be a relationship
      (AttributeError: nothing else has a mapper), and the plan joins the
      related class and orders by its field `f`; any other name orders by
      the attribute of the class itself. A missing direction (possible in
      `build_query`, which reads it from a dict) is a KeyError raised after
      the field has been resolved. Only a field that carries the column
      operators has `asc` and `desc`; on an association proxy, a method or a
      constant the direction lookup raises AttributeError. */
  function OrderTermSteps(reg: Registry, model: string, name: string, direction: Option<string>): (r: Result<seq<Step>, Error>)
    // a plain name: the attribute of the class, in the named direction
    ensures !Occurs(name, "__") ==>
      (r.Ok? <==> name in ModelOf(reg, model).attrs && HasColumnOperators(ModelOf(reg, model).attrs[name]) &&
                  direction.Some? && DirectionNamed(direction.value).Ok?)
    ensures !Occurs(name, "__") && r.Ok? ==>
      r.value == [OrderBy([(Field(model, name), DirectionNamed(direction.value).value)])]
    ensures !Occurs(name, "__") && name !in ModelOf(reg, model).attrs ==> r == Err(AttributeError)
    // a dotted name: two pieces, a relationship, a field of the related class
    ensures Occurs(name, "__") && |SplitAll(name, "__")| != 2 ==> r == Err(ValueError)
    ensures Occurs(name, "__") && |SplitAll(name, "__")| == 2 ==>
      var parts := SplitAll(name, "__");
      var attrs := ModelOf(reg, model).attrs;
      name == parts[0] + "__" + parts[1] &&
      (!(parts[0] in attrs && attrs[parts[0]].Relation?) ==> r == Err(AttributeError)) &&
      (parts[0] in attrs && attrs[parts[0]].Relation? ==>
        var target := attrs[parts[0]].target;
        (parts[1] !in ModelOf(reg, target).attrs ==> r == Err(AttributeError)) &&
        (r.Ok? <==> parts[1] in ModelOf(reg, target).attrs && HasColumnOperators(ModelOf(reg, target).attrs[parts[1]]) &&
                    direction.Some? && DirectionNamed(direction.value).Ok?) &&
        (r.Ok? ==> r.value == [Join(target), OrderBy([(Field(target, parts[1]), DirectionNamed(direction.value).value)])]))
    // a field without `asc`/`desc` fails the direction lookup
    ensures !Occurs(name, "__") && name in ModelOf(reg, model).attrs && direction.Some? ==>
      (!HasColumnOperators(ModelOf(reg, model).attrs[name]) ==> r == Err(AttributeError))
    // the direction is looked up last
    ensures direction.Some? && r.Err? ==> r.error == ValueError || r.error == AttributeError
    ensures direction.None? ==> r.Err? && (r.error == ValueError || r.error == AttributeError || r.error == KeyError(JStr("direction")))
  {
    if Occurs(name, "__") then
      var parts := SplitAll(name, "__");
      if |parts| != 2 then Err(ValueError)
      else
        SplitJoins(name);
        var relation :- GetAttr(reg, model, parts[0]);
        if !relation.Relation? then Err(AttributeError)
        else
          var field :- GetAttr(reg, relation.target, parts[1]);
          var dname :- if direction.Some? then Ok(direction.value) else Err(KeyError(JStr("direction")));
          if !HasColumnOperators(field) then Err(AttributeError)
          else
            var dir :- DirectionNamed(dname);
            Ok([Join(relation.target), OrderBy([(Field(relation.target, parts[1]), dir)])])
    else
      var field :- GetAttr(reg, model, name);
      var dname :- if direction.Some? then Ok(direction.value) else Err(KeyError(JStr("direction")));
      if !HasColumnOperators(field) then Err(AttributeError)
      else
        var dir :- DirectionNamed(dname);
        Ok([OrderBy([(Field(model, name), dir)])])
  }

  /** `order_by(*(getattr(model, pk).asc() for pk in pks))`: one step
      ordering by every primary key, ascending, in listed order. */
  function PrimaryKeyOrder(reg: Registry, model: string): (s: Step)
    ensures s.OrderBy? && |s.terms| == |PrimaryKeyNames(reg, model)|
    ensures forall i :: 0 <= i < |s.terms| ==>
      s.terms[i] == (Field(model, PrimaryKeyNames(reg, model)[i]), Ascending)
  {
    var pks := PrimaryKeyNames(reg, model);
    OrderBy(seq(|pks|, i requires 0 <= i < |pks| => (Field(model, pks[i]), Ascending)))
  }

  /** The steps of a group_by entry: `group_by(getattr(model, field))`. */
  function GroupTermSteps(reg: Registry, model: string, g: GroupSpec): (r: Result<seq<Step>, Error>)
    ensures r.Ok? <==> g.field in ModelOf(reg, model).attrs
    ensures r.Ok? ==> r.value == [GroupBy(Field(model, g.field))]
  {
    var a :- GetAttr(reg, model, g.field);
    Ok([GroupBy(Field(model, g.field))])
  }

  /** The limit and offset steps: each only when its value is truthy. */
  function Paging(limit: Json, offset: Json): (s: seq<Step>)
    ensures (exists i :: 0 <= i < |s| && s[i].Limit?) <==> Truthy(limit)
    ensures (exists i :: 0 <= i < |s| && s[i].Offset?) <==> Truthy(offset)
    ensures forall i, j :: 0 <= i < j < |s| ==> s[i].Limit? && s[j].Offset?
    ensures forall i :: 0 <= i < |s| ==> (s[i].Limit? && s[i].count == limit) || (s[i].Offset? && s[i].count == offset)
  {
    var l: seq<Step> := if Truthy(limit) then [Limit(limit)] else [];
    var o: seq<Step> := if Truthy(offset) then [Offset(offset)] else [];
    assert Truthy(limit) ==> (l + o)[0].Limit?;
    assert Truthy(offset) ==> (l + o)[|l|].Offset?;
    l + o
  }

  /** The steps of several entries one after the other; the first entry
      that fails aborts. Entries are processed from the first to the last. */
  function ConcatAll(rs: seq<Result<seq<Step>, Error>>): (r: Result<seq<Step>, Error>)
    ensures r.Ok? <==> forall i :: 0 <= i < |rs| ==> rs[i].Ok?
  {
    if rs == [] then Ok([])
    else
      var pre :- ConcatAll(rs[..|rs| - 1]);
      var last :- rs[|rs| - 1];
      Ok(pre + last)
  }

  /** Once an entry fails after the ones before it succeeded, the whole
      sequence fails with that entry's error. */
  lemma {:induction false} ConcatAllStopsAtFirstError(rs: seq<Result<seq<Step>, Error>>, i: nat)
    requires i < |rs| && ConcatAll(rs[..i]).Ok? && rs[i].Err?
    ensures ConcatAll(rs) == Err(rs[i].error)
    decreases |rs|
  {
    if i + 1 < |rs| {
      assert rs[..|rs| - 1][..i] == rs[..i];
      ConcatAllStopsAtFirstError(rs[..|rs| - 1], i);
    } else {
      assert rs[..|rs| - 1] == rs[..i];
    }
  }

  function OrderResults(reg: Registry, model: string, os: seq<OrderSpec>): seq<Result<seq<Step>, Error>>
  {
    seq(|os|, i requires 0 <= i < |os| => OrderTermSteps(reg, model, os[i].field, Some(os[i].direction)))
  }

  function GroupResults(reg: Registry, model: string, gs: seq<GroupSpec>): seq<Result<seq<Step>, Error>>
  {
    seq(|gs|, i requires 0 <= i < |gs| => GroupTermSteps(reg, model, gs[i]))
  }

  /** The plan `create_query` builds: filter, then order (unless ordering
      is ignored; by primary key when no order is given), then group, then
      limit and offset. */
  function CreateQuerySpec(reg: Registry, model: string, params: SearchParams, ignoreOrderBy: bool): Result<QueryPlan, Error>
  {
    var preds :- CompileFilters(reg, model, params.filters);
    var order :- OrderingSpec(reg, model, params, ignoreOrderBy);
    var group :- ConcatAll(GroupResults(reg, model, params.groupBy));
    Ok(QueryPlan(model, [Where(preds)] + order + group + Paging(params.limit, params.offset)))
  }

  /** The loop of `create_query` over the order entries: each entry's
      steps appended in turn; the first entry that fails aborts. */
  method OrderByEntries(reg: Registry, model: string, os: seq<OrderSpec>) returns (r: Result<seq<Step>, Error>)
    ensures r == ConcatAll(OrderResults(reg, model, os))
  {
    ghost var rs := OrderResults(reg, model, os);
    var steps: seq<Step> := [];
    var i := 0;
    while i < |os|
      invariant 0 <= i <= |os|
      invariant ConcatAll(rs[..i]) == Ok(steps)
    {
      var t := OrderTermSteps(reg, model, os[i].field, Some(os[i].direction));
      assert rs[..i + 1][..i] == rs[..i];
      if t.Err? {
        ConcatAllStopsAtFirstError(rs, i);
        return Err(t.error);
      }
      steps := steps + t.value;
      i := i + 1;
    }
    assert rs[..i] == rs;
    r := Ok(steps);
  }

  /** The loop of `create_query` over the group entries. */
  method GroupByEntries(reg: Registry, model: string, gs: seq<GroupSpec>) returns (r: Result<seq<Step>, Error>)
    ensures r == ConcatAll(GroupResults(reg, model, gs))
  {
    ghost var rs := GroupResults(reg, model, gs);
    var steps: seq<Step> := [];
    var i := 0;
    while i < |gs|
      invariant 0 <= i <= |gs|
      invariant ConcatAll(rs[..i]) == Ok(steps)
    {
      var field := GetAttr(reg, model, gs[i].field);
      assert rs[..i + 1][..i] == rs[..i];
      if field.Err? {
        ConcatAllStopsAtFirstError(rs, i);
        return Err(field.error);
      }
      steps := steps + [GroupBy(Field(model, gs[i].field))];
      i := i + 1;
    }
    assert rs[..i] == rs;
    r := Ok(steps);
  }

  /** The order steps `create_query` adds. */
  function OrderingSpec(reg: Registry, model: string, params: SearchParams, ignoreOrderBy: bool): Result<seq<Step>, Error>
  {
    if ignoreOrderBy then Ok([])
    else if |params.orderBy| > 0 then ConcatAll(OrderResults(reg, model, params.orderBy))
    else Ok([PrimaryKeyOrder(reg, model)])
  }

  /** The ordering part of `create_query`. */
  method Ordering(reg: Registry, model: string, params: SearchParams, ignoreOrderBy: bool)
    returns (r: Result<seq<Step>, Error>)
    ensures r == OrderingSpec(reg, model, params, ignoreOrderBy)
  {
    r := Ok([]);
    if !ignoreOrderBy {
      if |params.orderBy| > 0 {
        r := OrderByEntries(reg, model, params.orderBy);
      } else {
        r := Ok([PrimaryKeyOrder(reg, model)]);
      }
    }
  }

  /** `QueryBuilder.create_query`. */
  method CreateQuery(reg: Registry, model: string, params: SearchParams, ignoreOrderBy: bool)
    returns (r: Result<QueryPlan, Error>)
    ensures r == CreateQuerySpec(reg, model, params, ignoreOrderBy)
  {
    var preds :- CompileFilters(reg, model, params.filters);
    var steps := [Where(preds)];
    var order :- Ordering(reg, model, params, ignoreOrderBy);
    steps := steps + order;
    var group :- GroupByEntries(reg, model, params.groupBy);
    steps := steps + group;
    if Truthy(params.limit) {
      steps := steps + [Limit(params.limit)];
    }
    if Truthy(params.offset) {
      steps := steps + [Offset(params.offset)];
    }
    assert steps == [Where(preds)] + order + group + Paging(params.limit, params.offset);
    r := Ok(QueryPlan(model, steps));
  }

  /** `d[k]` on an order entry of `build_query`. */
  function Entry(d: Dict<string>, k: string): (r: Result<string, Error>)
    ensures r.Ok? <==> k in Keys(d)
    ensures r.Err? ==> r.error == KeyError(JStr(k))
  {
    if k in Keys(d) then Ok(Get(d, k)) else Err(KeyError(JStr(k)))
  }

  /** The steps for one `build_query` order entry: its "field" is read
      first, its "direction" only once the field has been resolved. */
  function BuildOrderTermSteps(reg: Registry, model: string, val: Dict<string>): (r: Result<seq<Step>, Error>)
    ensures "field" !in Keys(val) ==> r == Err(KeyError(JStr("field")))
    ensures "field" in Keys(val) ==>
      r == OrderTermSteps(reg, model, Get(val, "field"), if "direction" in Keys(val) then Some(Get(val, "direction")) else None)
  {
    var name :- Entry(val, "field");
    OrderTermSteps(reg, model, name, if "direction" in Keys(val) then Some(Get(val, "direction")) else None)
  }

  function BuildOrderResults(reg: Registry, model: string, os: seq<Dict<string>>): seq<Result<seq<Step>, Error>>
  {
    seq(|os|, i requires 0 <= i < |os| => BuildOrderTermSteps(reg, model, os[i]))
  }

  /** The plan `build_query` builds: a filter step only for a non-empty
      filter list, then the order entries or, when there are none, the
      primary keys ascending. */
  function BuildQuerySpec(reg: Registry, model: string, filters: seq<Filter>, orderBy: seq<Dict<string>>): Result<QueryPlan, Error>
  {
    var filtering :- if |filters| > 0 then
                       var preds :- CompileFilters(reg, model, filters);
                       Ok([Where(preds)])
                     else Ok([]);
    var order :- if |orderBy| > 0 then ConcatAll(BuildOrderResults(reg, model, orderBy))
                 else Ok([PrimaryKeyOrder(reg, model)]);
    Ok(QueryPlan(model, filtering + order))
  }

  /** The loop of `build_query` over its order entries. */
  method BuildOrderByEntries(reg: Registry, model: string, os: seq<Dict<string>>) returns (r: Result<seq<Step>, Error>)
    ensures r == ConcatAll(BuildOrderResults(reg, model, os))
  {
    ghost var rs := BuildOrderResults(reg, model, os);
    var steps: seq<Step> := [];
    var i := 0;
    while i < |os|
      invariant 0 <= i <= |os|
      invariant ConcatAll(rs[..i]) == Ok(steps)
    {
      var t := BuildOrderTermSteps(reg, model, os[i]);
      assert rs[..i + 1][..i] == rs[..i];
      if t.Err? {
        ConcatAllStopsAtFirstError(rs, i);
        return Err(t.error);
      }
      steps := steps + t.value;
      i := i + 1;
    }
    assert rs[..i] == rs;
    r := Ok(steps);
  }

  /** `build_query`; an absent `filters` or `order_by` is the empty list. */
  method BuildQuery(reg: Registry, model: string, filters: seq<Filter>, orderBy: seq<Dict<string>>)
    returns (r: Result<QueryPlan, Error>)
    ensures r == BuildQuerySpec(reg, model, filters, orderBy)
  {
    var steps: seq<Step> := [];
    if |filters| > 0 {
      var preds :- CompileFilters(reg, model, filters);
      steps := [Where(preds)];
    }
    if |orderBy| > 0 {
      var order :- BuildOrderByEntries(reg, model, orderBy);
      steps := steps + order;
    } else {
      steps := steps + [PrimaryKeyOrder(reg, model)];
    }
    r := Ok(QueryPlan(model, steps));
  }
}
