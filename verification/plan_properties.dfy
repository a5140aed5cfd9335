/** What the query plans promise: the fixed stage order, the primary-key
    default, the join before a related order, and paging only for truthy
    values. */
module PlanProperties {

  import opened Wrappers
  import opened Json
  import opened Schema
  import opened Query
  import opened Plan
  import opened Dicts
  import opened Filters

  /** The stage of a step: filter, order (with its joins), group, limit, offset. */
  function Stage(s: Step): nat
  {
    match s
    case Where(_) => 0
    case Join(_) => 1
    case OrderBy(_) => 1
    case GroupBy(_) => 2
    case Limit(_) => 3
    case Offset(_) => 4
  }

  predicate StagesOrdered(steps: seq<Step>)
  {
    forall i, j :: 0 <= i < j < |steps| ==> Stage(steps[i]) <= Stage(steps[j])
  }

  predicate AllInStage(steps: seq<Step>, k: nat)
  {
    forall i :: 0 <= i < |steps| ==> Stage(steps[i]) == k
  }

  /** Every join is followed at once by the order step on a field of the joined class. */
  predicate JoinsFollowed(steps: seq<Step>)
  {
    forall i :: 0 <= i < |steps| && steps[i].Join? ==>
      i + 1 < |steps| && steps[i + 1].OrderBy? && |steps[i + 1].terms| == 1 &&
      steps[i + 1].terms[0].0.model == steps[i].target
  }

  lemma {:induction false} ConcatAllInStage(rs: seq<Result<seq<Step>, Error>>, k: nat)
    requires forall i :: 0 <= i < |rs| && rs[i].Ok? ==> AllInStage(rs[i].value, k)
    ensures ConcatAll(rs).Ok? ==> AllInStage(ConcatAll(rs).value, k)
    decreases |rs|
  {
    if rs != [] && ConcatAll(rs).Ok? {
      ConcatAllInStage(rs[..|rs| - 1], k);
    }
  }

  lemma JoinsFollowedConcat(a: seq<Step>, b: seq<Step>)
    requires JoinsFollowed(a) && JoinsFollowed(b)
    ensures JoinsFollowed(a + b)
  {
    forall i | 0 <= i < |a + b| && (a + b)[i].Join?
      ensures i + 1 < |a + b| && (a + b)[i + 1].OrderBy? && |(a + b)[i + 1].terms| == 1 &&
              (a + b)[i + 1].terms[0].0.model == (a + b)[i].target
    {
      if i < |a| {
        assert (a + b)[i + 1] == a[i + 1];
      } else {
        assert (a + b)[i] == b[i - |a|];
        assert (a + b)[i + 1] == b[i - |a| + 1];
      }
    }
  }

  lemma {:induction false} ConcatAllJoinsFollowed(rs: seq<Result<seq<Step>, Error>>)
    requires forall i :: 0 <= i < |rs| && rs[i].Ok? ==> JoinsFollowed(rs[i].value)
    ensures ConcatAll(rs).Ok? ==> JoinsFollowed(ConcatAll(rs).value)
    decreases |rs|
  {
    if rs != [] && ConcatAll(rs).Ok? {
      ConcatAllJoinsFollowed(rs[..|rs| - 1]);
      JoinsFollowedConcat(ConcatAll(rs[..|rs| - 1]).value, rs[|rs| - 1].value);
    }
  }

  /** The steps of one order entry are a join followed by its order step,
      or a single order step. */
  lemma OrderTermShape(reg: Registry, model: string, name: string, direction: Option<string>)
    ensures OrderTermSteps(reg, model, name, direction).Ok? ==>
      AllInStage(OrderTermSteps(reg, model, name, direction).value, 1) &&
      JoinsFollowed(OrderTermSteps(reg, model, name, direction).value)
  {
  }

  /** The order steps of `create_query` are joins and order steps only,
      and every join is followed by the order step it was added for. */
  lemma OrderingShape(reg: Registry, model: string, params: SearchParams, ignoreOrderBy: bool)
    ensures OrderingSpec(reg, model, params, ignoreOrderBy).Ok? ==>
      AllInStage(OrderingSpec(reg, model, params, ignoreOrderBy).value, 1) &&
      JoinsFollowed(OrderingSpec(reg, model, params, ignoreOrderBy).value)
  {
    if !ignoreOrderBy && |params.orderBy| > 0 {
      var rs := OrderResults(reg, model, params.orderBy);
      forall i | 0 <= i < |rs| && rs[i].Ok? ensures AllInStage(rs[i].value, 1) && JoinsFollowed(rs[i].value) {
        OrderTermShape(reg, model, params.orderBy[i].field, Some(params.orderBy[i].direction));
      }
      ConcatAllInStage(rs, 1);
      ConcatAllJoinsFollowed(rs);
    }
  }

  predicate StagesBetween(steps: seq<Step>, lo: nat, hi: nat)
  {
    forall i :: 0 <= i < |steps| ==> lo <= Stage(steps[i]) <= hi
  }

  lemma OrderedConcat(a: seq<Step>, b: seq<Step>, lo: nat, k: nat, hi: nat)
    requires lo <= k <= hi
    requires StagesOrdered(a) && StagesOrdered(b)
    requires StagesBetween(a, lo, k) && StagesBetween(b, k, hi)
    ensures StagesOrdered(a + b) && StagesBetween(a + b, lo, hi)
  {
    assert forall i :: 0 <= i < |a + b| ==> (a + b)[i] == if i < |a| then a[i] else b[i - |a|];
  }

  lemma InStageOrdered(a: seq<Step>, k: nat)
    requires AllInStage(a, k)
    ensures StagesOrdered(a) && StagesBetween(a, k, k)
  {
  }

  /** The layout every `create_query` plan has: one filter step, then the
      order steps, the group steps and the paging steps. */
  lemma {:induction false} LayoutStages(preds: seq<Predicate>, order: seq<Step>, group: seq<Step>, paging: seq<Step>)
    requires AllInStage(order, 1) && JoinsFollowed(order)
    requires AllInStage(group, 2)
    requires StagesOrdered(paging) && StagesBetween(paging, 3, 4)
    ensures var steps := [Where(preds)] + order + group + paging;
      StagesOrdered(steps) && JoinsFollowed(steps) &&
      steps[0] == Where(preds) && forall i :: 1 <= i < |steps| ==> !steps[i].Where?
  {
    InStageOrdered(order, 1);
    InStageOrdered(group, 2);
    OrderedConcat([Where(preds)], order, 0, 1, 1);
    OrderedConcat([Where(preds)] + order, group, 0, 2, 2);
    OrderedConcat([Where(preds)] + order + group, paging, 0, 3, 4);
    assert JoinsFollowed(group) && JoinsFollowed(paging);
    JoinsFollowedConcat([Where(preds)], order);
    JoinsFollowedConcat([Where(preds)] + order, group);
    JoinsFollowedConcat([Where(preds)] + order + group, paging);
    AfterFirstNoWhere(preds, order, group, paging);
  }

  lemma {:induction false} AfterFirstNoWhere(preds: seq<Predicate>, order: seq<Step>, group: seq<Step>, paging: seq<Step>)
    requires AllInStage(order, 1) && AllInStage(group, 2) && StagesBetween(paging, 3, 4)
    ensures var steps := [Where(preds)] + order + group + paging;
      forall i :: 1 <= i < |steps| ==> !steps[i].Where?
  {
    var steps := [Where(preds)] + order + group + paging;
    forall i | 1 <= i < |steps| ensures !steps[i].Where? {
      if i < 1 + |order| { assert steps[i] == order[i - 1]; }
      else if i < 1 + |order| + |group| { assert steps[i] == group[i - 1 - |order|]; }
      else { assert steps[i] == paging[i - 1 - |order| - |group|]; }
    }
  }

  /** A successful `create_query` plan is the filter step, the order
      steps, the group steps and the paging steps, in that order. */
  lemma CreateQueryParts(reg: Registry, model: string, params: SearchParams, ignoreOrderBy: bool)
    requires CreateQuerySpec(reg, model, params, ignoreOrderBy).Ok?
    ensures CompileFilters(reg, model, params.filters).Ok?
    ensures OrderingSpec(reg, model, params, ignoreOrderBy).Ok?
    ensures ConcatAll(GroupResults(reg, model, params.groupBy)).Ok?
    ensures CreateQuerySpec(reg, model, params, ignoreOrderBy).value ==
      QueryPlan(model, [Where(CompileFilters(reg, model, params.filters).value)] +
                       OrderingSpec(reg, model, params, ignoreOrderBy).value +
                       ConcatAll(GroupResults(reg, model, params.groupBy)).value +
                       Paging(params.limit, params.offset))
  {
  }

  /** Group steps all belong to the grouping stage. */
  lemma GroupShape(reg: Registry, model: string, gs: seq<GroupSpec>)
    ensures ConcatAll(GroupResults(reg, model, gs)).Ok? ==> AllInStage(ConcatAll(GroupResults(reg, model, gs)).value, 2)
  {
    ConcatAllInStage(GroupResults(reg, model, gs), 2);
  }

  /** Paging steps limit before they offset. */
  lemma PagingShape(limit: Json, offset: Json)
    ensures StagesOrdered(Paging(limit, offset)) && StagesBetween(Paging(limit, offset), 3, 4)
  {
  }

  /** `create_query` filters first, then orders, then groups, then limits,
      then offsets; only its first step filters; every join comes just
      before the order step it serves. */
  lemma CreateQueryStages(reg: Registry, model: string, params: SearchParams, ignoreOrderBy: bool)
    requires CreateQuerySpec(reg, model, params, ignoreOrderBy).Ok?
    ensures var plan := CreateQuerySpec(reg, model, params, ignoreOrderBy).value;
      plan.model == model &&
      StagesOrdered(plan.steps) && JoinsFollowed(plan.steps) &&
      plan.steps[0].Where? && (forall i :: 1 <= i < |plan.steps| ==> !plan.steps[i].Where?)
  {
    CreateQueryParts(reg, model, params, ignoreOrderBy);
    OrderingShape(reg, model, params, ignoreOrderBy);
    GroupShape(reg, model, params.groupBy);
    PagingShape(params.limit, params.offset);
    var preds := CompileFilters(reg, model, params.filters).value;
    var order := OrderingSpec(reg, model, params, ignoreOrderBy).value;
    var group := ConcatAll(GroupResults(reg, model, params.groupBy)).value;
    var paging := Paging(params.limit, params.offset);
    LayoutStages(preds, order, group, paging);
  }

  /** The first step of `create_query` holds every top-level filter,
      compiled in order. */
  lemma CreateQueryFilterStep(reg: Registry, model: string, params: SearchParams, ignoreOrderBy: bool)
    requires CreateQuerySpec(reg, model, params, ignoreOrderBy).Ok?
    ensures var plan := CreateQuerySpec(reg, model, params, ignoreOrderBy).value;
      plan.steps[0].Where? && |plan.steps[0].preds| == |params.filters| &&
      forall i :: 0 <= i < |params.filters| ==> CreateFilter(reg, model, params.filters[i]) == Ok(plan.steps[0].preds[i])
  {
    CreateQueryParts(reg, model, params, ignoreOrderBy);
  }

  lemma {:induction false} DefaultLayout(preds: seq<Predicate>, pk: Step, group: seq<Step>, paging: seq<Step>)
    requires AllInStage(group, 2)
    requires StagesOrdered(paging) && StagesBetween(paging, 3, 4)
    ensures var steps := [Where(preds)] + [pk] + group + paging;
      |steps| >= 2 && steps[1] == pk && forall i :: 2 <= i < |steps| ==> Stage(steps[i]) >= 2
  {
    InStageOrdered(group, 2);
    OrderedConcat(group, paging, 2, 3, 4);
    var steps := [Where(preds)] + [pk] + group + paging;
    assert steps[2..] == group + paging;
    forall i | 2 <= i < |steps| ensures Stage(steps[i]) >= 2 {
      assert steps[i] == steps[2..][i - 2];
    }
  }

  /** Without order entries (and with ordering not ignored) the plan orders
      by every primary key, ascending, in listed order, in a single step,
      and every later step groups or pages. */
  lemma DefaultOrderIsPrimaryKeys(reg: Registry, model: string, params: SearchParams)
    requires |params.orderBy| == 0
    requires CreateQuerySpec(reg, model, params, false).Ok?
    ensures var steps := CreateQuerySpec(reg, model, params, false).value.steps;
      |steps| >= 2 && steps[1] == PrimaryKeyOrder(reg, model) &&
      forall i :: 2 <= i < |steps| ==> Stage(steps[i]) >= 2
  {
    var preds := CompileFilters(reg, model, params.filters);
    var group := ConcatAll(GroupResults(reg, model, params.groupBy));
    var paging := Paging(params.limit, params.offset);
    assert preds.Ok? && group.Ok? &&
      CreateQuerySpec(reg, model, params, false).value.steps == [Where(preds.value)] + [PrimaryKeyOrder(reg, model)] + group.value + paging by {
      CreateQueryParts(reg, model, params, false);
    }
    assert AllInStage(group.value, 2) by {
      ConcatAllInStage(GroupResults(reg, model, params.groupBy), 2);
    }
    PagingShape(params.limit, params.offset);
    DefaultLayout(preds.value, PrimaryKeyOrder(reg, model), group.value, paging);
  }

  lemma {:induction false} IgnoredLayout(preds: seq<Predicate>, group: seq<Step>, paging: seq<Step>)
    requires AllInStage(group, 2) && StagesBetween(paging, 3, 4)
    ensures forall s :: s in [Where(preds)] + group + paging ==> Stage(s) != 1
  {
    var steps := [Where(preds)] + group + paging;
    forall s | s in steps ensures Stage(s) != 1 {
      var i :| 0 <= i < |steps| && steps[i] == s;
      if 1 <= i < 1 + |group| { assert s == group[i - 1]; }
      else if i >= 1 + |group| { assert s == paging[i - 1 - |group|]; }
    }
  }

  /** With ordering ignored the plan holds no join and no order step. */
  lemma IgnoredOrderAddsNoOrdering(reg: Registry, model: string, params: SearchParams)
    requires CreateQuerySpec(reg, model, params, true).Ok?
    ensures forall s :: s in CreateQuerySpec(reg, model, params, true).value.steps ==> Stage(s) != 1
  {
    CreateQueryParts(reg, model, params, true);
    ConcatAllInStage(GroupResults(reg, model, params.groupBy), 2);
    IgnoredLayout(CompileFilters(reg, model, params.filters).value, ConcatAll(GroupResults(reg, model, params.groupBy)).value,
                  Paging(params.limit, params.offset));
  }

  /** A limit step is added exactly when the limit is truthy, an offset
      step exactly when the offset is truthy (so 0 and None add nothing),
      and each carries the value given. */
  lemma PagingOnlyWhenTruthy(reg: Registry, model: string, params: SearchParams, ignoreOrderBy: bool)
    requires CreateQuerySpec(reg, model, params, ignoreOrderBy).Ok?
    ensures var steps := CreateQuerySpec(reg, model, params, ignoreOrderBy).value.steps;
      ((exists i :: 0 <= i < |steps| && steps[i].Limit?) <==> Truthy(params.limit)) &&
      ((exists i :: 0 <= i < |steps| && steps[i].Offset?) <==> Truthy(params.offset)) &&
      (forall i :: 0 <= i < |steps| && steps[i].Limit? ==> steps[i].count == params.limit) &&
      (forall i :: 0 <= i < |steps| && steps[i].Offset? ==> steps[i].count == params.offset)
  {
    CreateQueryParts(reg, model, params, ignoreOrderBy);
    OrderingShape(reg, model, params, ignoreOrderBy);
    ConcatAllInStage(GroupResults(reg, model, params.groupBy), 2);
    var order := OrderingSpec(reg, model, params, ignoreOrderBy).value;
    var group := ConcatAll(GroupResults(reg, model, params.groupBy)).value;
    var front := [Where(CompileFilters(reg, model, params.filters).value)] + order + group;
    InStageOrdered(order, 1);
    InStageOrdered(group, 2);
    OrderedConcat([Where(CompileFilters(reg, model, params.filters).value)], order, 0, 1, 1);
    OrderedConcat([Where(CompileFilters(reg, model, params.filters).value)] + order, group, 0, 2, 2);
    PagingAfter(front, Paging(params.limit, params.offset), params.limit, params.offset);
  }

  lemma PagingAfter(front: seq<Step>, paging: seq<Step>, limit: Json, offset: Json)
    requires StagesBetween(front, 0, 2)
    requires paging == Paging(limit, offset)
    ensures var steps := front + paging;
      ((exists i :: 0 <= i < |steps| && steps[i].Limit?) <==> Truthy(limit)) &&
      ((exists i :: 0 <= i < |steps| && steps[i].Offset?) <==> Truthy(offset)) &&
      (forall i :: 0 <= i < |steps| && steps[i].Limit? ==> steps[i].count == limit) &&
      (forall i :: 0 <= i < |steps| && steps[i].Offset? ==> steps[i].count == offset)
  {
    var steps := front + paging;
    assert forall i :: 0 <= i < |steps| ==> steps[i] == if i < |front| then front[i] else paging[i - |front|];
    if Truthy(limit) {
      var k :| 0 <= k < |paging| && paging[k].Limit?;
      assert steps[|front| + k].Limit?;
    }
    if Truthy(offset) {
      var k :| 0 <= k < |paging| && paging[k].Offset?;
      assert steps[|front| + k].Offset?;
    }
  }

  /** A successful `build_query` plan is the optional filter step followed
      by the order steps. */
  lemma BuildQueryParts(reg: Registry, model: string, filters: seq<Filter>, orderBy: seq<Dict<string>>)
    requires BuildQuerySpec(reg, model, filters, orderBy).Ok?
    ensures |filters| > 0 ==> CompileFilters(reg, model, filters).Ok?
    ensures |orderBy| > 0 ==> ConcatAll(BuildOrderResults(reg, model, orderBy)).Ok?
    ensures BuildQuerySpec(reg, model, filters, orderBy).value ==
      QueryPlan(model, (if |filters| > 0 then [Where(CompileFilters(reg, model, filters).value)] else []) +
                       (if |orderBy| > 0 then ConcatAll(BuildOrderResults(reg, model, orderBy)).value
                        else [PrimaryKeyOrder(reg, model)]))
  {
  }

  lemma {:induction false} BuildLayout(front: seq<Step>, order: seq<Step>)
    requires |front| <= 1 && forall i :: 0 <= i < |front| ==> front[i].Where?
    requires AllInStage(order, 1) && JoinsFollowed(order)
    ensures var steps := front + order;
      (forall i :: |front| <= i < |steps| ==> !steps[i].Where?) && JoinsFollowed(steps)
  {
    JoinsFollowedConcat(front, order);
    var steps := front + order;
    forall i | |front| <= i < |steps| ensures !steps[i].Where? {
      assert steps[i] == order[i - |front|];
    }
  }

  /** `build_query` adds a filter step only for a non-empty filter list,
      and its order steps are joins each followed by its order step. */
  lemma BuildQueryShape(reg: Registry, model: string, filters: seq<Filter>, orderBy: seq<Dict<string>>)
    requires BuildQuerySpec(reg, model, filters, orderBy).Ok?
    ensures var steps := BuildQuerySpec(reg, model, filters, orderBy).value.steps;
      (|filters| == 0 ==> forall i :: 0 <= i < |steps| ==> !steps[i].Where?) &&
      (|filters| > 0 ==> steps[0].Where? && |steps[0].preds| == |filters| && forall i :: 1 <= i < |steps| ==> !steps[i].Where?) &&
      JoinsFollowed(steps)
  {
    BuildQueryParts(reg, model, filters, orderBy);
    BuildOrderingShape(reg, model, orderBy);
    var order := if |orderBy| > 0 then ConcatAll(BuildOrderResults(reg, model, orderBy)).value else [PrimaryKeyOrder(reg, model)];
    var front: seq<Step> := if |filters| > 0 then [Where(CompileFilters(reg, model, filters).value)] else [];
    BuildLayout(front, order);
  }

  /** The order steps of `build_query` are joins and order steps only, and
      every join is followed by the order step it was added for. */
  lemma BuildOrderingShape(reg: Registry, model: string, orderBy: seq<Dict<string>>)
    ensures var order := if |orderBy| > 0 then ConcatAll(BuildOrderResults(reg, model, orderBy))
                         else Ok([PrimaryKeyOrder(reg, model)]);
      order.Ok? ==> AllInStage(order.value, 1) && JoinsFollowed(order.value)
  {
    if |orderBy| > 0 {
      var rs := BuildOrderResults(reg, model, orderBy);
      forall i | 0 <= i < |rs| && rs[i].Ok? ensures AllInStage(rs[i].value, 1) && JoinsFollowed(rs[i].value) {
        if "field" in Keys(orderBy[i]) {
          OrderTermShape(reg, model, Get(orderBy[i], "field"),
                         if "direction" in Keys(orderBy[i]) then Some(Get(orderBy[i], "direction")) else None);
        }
      }
      ConcatAllInStage(rs, 1);
      ConcatAllJoinsFollowed(rs);
    }
  }
}
