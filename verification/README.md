# tornado-restless request shaping, in Dafny

This project models the request-shaping core of tornado-restless, a REST
layer over SQLAlchemy models. The core does four things:

- It reads a search request's filter dictionaries into a filter tree
  (`Filter.from_dictionary`).
- It compiles that tree into predicates, using the closed operator table
  `OPERATORS` (`QueryBuilder._create_operation`, `_create_filter`,
  `_sub_operator`).
- It lays the filters, orderings, groupings, limit and offset out as a
  query (`QueryBuilder.create_query`, `build_query`).
- It turns database values into plain data under include and exclude
  projections (`parse_columns`, `combine_columns`, `to_deep`, `to_dict`).

The helpers that prepare a request's attributes before they reach the
database are modelled too: `strings_to_dates`, `get_field_type`,
`is_date_field`, `is_interval_field`, `get_relations`,
`primary_key_names`, `assign_attributes` and `get_or_create`.

The project has one module per concern:

- `Wrappers` holds `Option` and `Result`.
- `Dicts` models Python dictionaries as entry lists, with new keys
  appended. The source runs on Python 2, whose dicts iterate in hash
  order, so the model fixes one iteration order: insertion order. The
  order-dependent behaviour of `to_dict` and `assign_attributes` is stated
  for that order.
- `Text` holds the string operations the code uses.
- `Json` holds request data, truthiness and the exceptions raised.
- `Schema` is an explicit per-class table that stands in for SQLAlchemy
  reflection: attributes, `dir()` members, column types, relations,
  proxies, hybrids and primary keys. It also records which attributes
  carry SQLAlchemy's column operators (`like`, `ilike`, `in_`, `asc`,
  `desc`): mapped columns and relationships, and hybrids that give a SQL
  expression. Association proxies have only `has` and `any`; methods and
  constants have neither.
- `Operators` and `Filters` model the operator table and filter trees.
- `Query` compiles filters into predicates; `Plan` builds query plans.
- `Columns` models projections; `Serialize` models `to_dict`; `Helpers`
  models the helpers.
- The modules ending in `Properties` hold the lemmas.

SQL expressions are an abstract `Predicate` tree. A query is the list of
`Step`s applied to it, in order. Exceptions are `Err` values of a `Result`.

Where the source reassigns state step by step, the model does the same in
imperative Dafny. This covers the loops of `create_query` and
`build_query`, both passes of `parse_columns`, the loop of
`combine_columns`, the branches and loops of `to_dict`, `strings_to_dates`
and `assign_attributes`. Each method is proved equal to a specification
function, and the lemmas are stated about that function. `get_or_create`
works on `Instance` objects whose `fields` it updates in place, inside a
`Session` class.

The model keeps the source's behaviour where it is surprising:

- `convert.py` never imports `and_` or `or_`, so `_create_filter` raises
  NameError on every junction, before any child is compiled
  (`QueryProperties.JunctionRaisesNameError`).
- `_create_filter` subscripts a leaf, so a leaf object built by
  `from_dictionary` raises TypeError. Only plain dicts compile, and no
  filter that `from_dictionary` builds ever does
  (`QueryProperties.RequestFiltersDoNotCompile`).
- `_create_filter` splits `a__b` as relation `a` and field `b`;
  `_sub_operator` splits it as field `a` and relation `b`.
- A name with two separators fails the two-way unpacking with ValueError.
- `from_dictionary` reads the other field from the key `field`.
- `convert.py` never imports `AssociationProxy`, so `_sub_operator` on a
  proxy raises NameError. On a column, `.property.mapper` raises
  AttributeError.
- The `to_dict` record branch reads `options.get('execute_queries', True)`
  for unloaded attributes but `options['execute_queries']` for queries.
  On the process-wide default `defaultdict(bool)`, the second read
  inserts False, which from then on switches off every unloaded
  attribute (`SerializeProperties.QueryLatch`, `LatchPersists`).
- The nested `to_dict` calls of the dict-include and record branches do
  not pass `options` on, so they read the shared default
  (`SerializeProperties.PickIgnoresOptions`).
- `to_deep` inserts False into the caller's include dict for every key it
  visits that the dict lacks. The model returns the updated include from every call and writes
  it back.

## Model

| member | source | states |
|---|---|---|
| Text.SplitAll | tornado_restless/convert.py:266-267 | `s.split('__')` gives one piece exactly when the separator does not occur |
| Text.SplitFirst | tornado_restless/convert.py:413 | `s.split('.', 1)`: no rest exactly when there is no dot; otherwise head, dot and rest rebuild the string and the head holds no dot |
| Text.SplitAtSingleSeparator | tornado_restless/convert.py:266-267 | a name holding one `__` splits into exactly the text on either side |
| Text.SplitWithTwoSeparators | tornado_restless/convert.py:266-267 | a second `__` after the first leaves at least three pieces |
| Text.Lower | tornado_restless/helpers.py:192 | `value.lower()` keeps the length, turns each capital A–Z into its small letter, keeps every other character, and leaves no capital |
| Schema.GetAttr | tornado_restless/convert.py:237-238 | `getattr(model, name)` succeeds exactly for the class's attributes and returns that attribute; otherwise AttributeError |
| Schema.GetAttrNamed | tornado_restless/convert.py:237-238 | a non-string name raises TypeError; a string name behaves as `getattr` |
| Schema.GetFieldType | tornado_restless/helpers.py:19-35 | fails exactly for a name the class lacks; a type comes from a column, from the remote column of a proxy, or from the SQL expression of a hybrid |
| Schema.IsDateField | tornado_restless/helpers.py:38-44 | true exactly when the field type is Date or DateTime; errors exactly when `get_field_type` does |
| Schema.IsIntervalField | tornado_restless/helpers.py:47-52 | true exactly when the field type is Interval; errors exactly when `get_field_type` does |
| Schema.GetRelatedModel | tornado_restless/helpers.py:62-73 | a related class exists exactly for a relationship or an association proxy |
| Schema.GetRelations | tornado_restless/helpers.py:55-59 | the names kept are exactly the `dir()` members that are not dunder, not in `RELATION_BLACKLIST` and have a related class |
| Schema.PrimaryKeyNames | tornado_restless/helpers.py:165-170 | the names kept are exactly the members that are primary-key columns |
| Json.Lookup | tornado_restless/convert.py:93-96 | `d.get(k)` is the value of `k`, or None when it is absent |
| Json.Subscript | tornado_restless/convert.py:262-263 | `d[k]` is the value of `k`, or KeyError(k) when it is absent |
| Filters.FromDictionary | tornado_restless/convert.py:92-107 | without `or`/`and` it builds a leaf from `name`, `op`, `val` and `field` (absent keys become None); `or` takes precedence over `and`; a junction succeeds exactly when the filters read from the list under its key do, its children are those filters in order, and otherwise it fails with their error |
| Filters.Subfilters | tornado_restless/convert.py:102-107 | the subfilters of a list are its elements read in order, one each; None, a boolean or an integer raises TypeError |
| Filters.FromDictionaryParsed | tornado_restless/convert.py:92-107 | `from_dictionary` builds only filter objects, never a plain dict |
| Operators.Arity | tornado_restless/convert.py:151-187 | the lambda takes one parameter exactly for `is_null`, `is_not_null`, `desc` and `asc`, and three exactly for `has` and `any` |
| Query.LookupOperator | tornado_restless/convert.py:232-233 | `OPERATORS[operator]` succeeds exactly for a listed name; otherwise KeyError, or TypeError for an unhashable key |
| Query.SplitDunder | tornado_restless/convert.py:266-267 | a name without `__` is not split; with it, the two-way unpacking succeeds exactly when there are two pieces, which rebuild the name; otherwise ValueError |
| Query.SplitJoins | tornado_restless/convert.py:266-267 | two pieces of a split joined by the separator give the name back |
| Query.CreateOperation | tornado_restless/convert.py:198-249 | KeyError for an unknown operator, then the attribute error, then TypeError for a missing argument to a two- or three-parameter operator, then AttributeError when the operator calls a method the attribute lacks (column operators on a proxy, method or constant; `has`/`any` on a hybrid, method or constant); a success applies the operator to the named field, which has the method |
| Query.SubOperator | tornado_restless/convert.py:127-148 | AttributeError on a column, NameError on a proxy; a non-dict argument on a relation is an equality on the related class's field |
| Query.CreateFilter | tornado_restless/convert.py:252-279 | a filter object leaf raises TypeError; every junction raises NameError; only a plain dict holding `name`, `value` and `op` can compile |
| Query.Collect | tornado_restless/convert.py:308 | the list comprehension over the filters succeeds exactly when each compiles, giving their predicates in order; otherwise the first failure is raised |
| Query.CreatePlain | tornado_restless/convert.py:261-273 | a dict leaf without `name` or `value` raises KeyError for that key |
| QueryProperties.JunctionRaisesNameError | tornado_restless/convert.py:274-279 | every junction raises NameError, whatever its kind, its children and the class |
| QueryProperties.OneParamOperatorIgnoresArgument | tornado_restless/convert.py:241-242 | a one-parameter operator gives the same result whatever the argument |
| QueryProperties.TwoParamOperatorCompares | tornado_restless/convert.py:243-248 | a two-parameter operator with a non-None argument, on an attribute that has the method it calls, compares the field looked up (relation or fieldname) with it |
| QueryProperties.MissingMethodRaisesAttributeError | tornado_restless/convert.py:150-186 | `like`, `ilike`, `in`, `not_in`, `asc`, `desc`, `has` and `any` raise AttributeError on a method or a constant of the class, and all but `has` and `any` do on an association proxy |
| QueryProperties.QuantifierImplicitEquality | tornado_restless/convert.py:147-148 | `has`/`any` with a non-dict argument quantifies the equality `submodel.fieldname == argument` over the relation |
| QueryProperties.QuantifierNestedFilter | tornado_restless/convert.py:138-146 | `has`/`any` with a dict argument quantifies the nested operation compiled on the related class, or fails with its error |
| QueryProperties.NestedNameSplitsFieldFirst | tornado_restless/convert.py:143-146 | inside `has`/`any`, `a__b` is looked up as field `a` with relation `b` |
| QueryProperties.LeafNameSplitsRelationFirst | tornado_restless/convert.py:266-273 | in a dict leaf, `a__b` is looked up as relation `a` with field `b` |
| QueryProperties.LeafNameWithTwoSeparatorsFails | tornado_restless/convert.py:266-267 | a leaf name with two separators raises ValueError |
| QueryProperties.OtherfieldReplacesValue | tornado_restless/convert.py:269-273 | a truthy `otherfield` naming an attribute replaces the value with that field |
| QueryProperties.ParsedFiltersNeverCompile | tornado_restless/convert.py:261-279 | a filter built by `from_dictionary` never compiles: TypeError for a leaf, NameError for a junction |
| QueryProperties.RequestFiltersDoNotCompile | tornado_restless/convert.py:92-107 | reading a request dict and compiling it always fails: NameError when the dict has an `or` or `and` key, TypeError otherwise |
| Plan.DirectionNamed | tornado_restless/convert.py:325-327 | `getattr(field, direction)()` is ascending exactly for `asc`, descending exactly for `desc`, otherwise AttributeError |
| Plan.CompileFilters | tornado_restless/convert.py:306-308 | the list comprehension of filters succeeds exactly when each filter compiles, keeping their order |
| Plan.OrderTermSteps | tornado_restless/convert.py:318-331 | a plain name orders by the class's field in the named direction, and fails with AttributeError for an unknown field or direction, or for a field without `asc`/`desc` (a proxy, method or constant); a dotted name with other than two pieces raises ValueError, a head that is not a relationship or an unknown field of the related class raises AttributeError, and otherwise the plan joins the related class and orders by its field in the named direction; the entry succeeds exactly when field, relation and direction all resolve and the field has the column operators |
| Plan.PrimaryKeyOrder | tornado_restless/convert.py:332-335 | the default order is every primary key, ascending, in listed order |
| Plan.GroupTermSteps | tornado_restless/convert.py:339-341 | a group entry gives one group step, or AttributeError for an unknown field |
| Plan.Paging | tornado_restless/convert.py:344-347 | a limit step exactly when the limit is truthy, an offset step exactly when the offset is, the limit first |
| Plan.ConcatAll | tornado_restless/convert.py:317-331 | the loop over entries succeeds exactly when every entry does |
| Plan.ConcatAllStopsAtFirstError | tornado_restless/convert.py:317-331 | the first failing entry's error is the loop's error |
| Plan.OrderByEntries | tornado_restless/convert.py:316-331 | the order loop yields the concatenation of the entries' steps |
| Plan.GroupByEntries | tornado_restless/convert.py:338-341 | the group loop yields the concatenation of the entries' steps |
| Plan.Ordering | tornado_restless/convert.py:315-335 | the ordering part of `create_query` is the specified ordering |
| Plan.CreateQuery | tornado_restless/convert.py:282-349 | the query built step by step is the specified plan, whose properties are proved in PlanProperties |
| Plan.Entry | tornado_restless/convert.py:377 | `val['field']` raises KeyError for a missing key |
| Plan.BuildOrderTermSteps | tornado_restless/convert.py:376-390 | a `build_query` order entry without `field` raises KeyError; otherwise it follows the `create_query` order rules, AttributeError for a field without `asc`/`desc` included |
| Plan.BuildOrderByEntries | tornado_restless/convert.py:375-390 | the order loop of `build_query` yields the concatenation of the entries' steps |
| Plan.BuildQuery | tornado_restless/convert.py:352-396 | the query built step by step is the specified plan |
| PlanProperties.OrderTermShape | tornado_restless/convert.py:318-331 | an order entry's steps are order-stage steps, each join followed by its order step |
| PlanProperties.OrderingShape | tornado_restless/convert.py:315-335 | all ordering steps are joins and order steps, joins followed by their order step |
| PlanProperties.CreateQueryParts | tornado_restless/convert.py:304-347 | a plan is the filter step, then the order, group and paging steps |
| PlanProperties.GroupShape | tornado_restless/convert.py:338-341 | group steps all belong to the grouping stage |
| PlanProperties.PagingShape | tornado_restless/convert.py:344-347 | the limit comes before the offset |
| PlanProperties.CreateQueryStages | tornado_restless/convert.py:304-349 | filter, order, group, limit and offset appear in that order; there is one filter step and it comes first; every join precedes its order step |
| PlanProperties.CreateQueryFilterStep | tornado_restless/convert.py:306-311 | the single filter step conjoins every top-level filter, compiled in order |
| PlanProperties.DefaultOrderIsPrimaryKeys | tornado_restless/convert.py:332-335 | without order entries the second step orders by the primary keys ascending and nothing after it orders |
| PlanProperties.IgnoredOrderAddsNoOrdering | tornado_restless/convert.py:315 | with `_ignore_order_by` the plan holds no join and no order step |
| PlanProperties.PagingOnlyWhenTruthy | tornado_restless/convert.py:344-347 | a limit (offset) step appears exactly when the limit (offset) is truthy, carrying that value |
| PlanProperties.BuildQueryParts | tornado_restless/convert.py:365-394 | a `build_query` plan is the optional filter step followed by the order entries' steps or the primary-key order |
| PlanProperties.BuildQueryShape | tornado_restless/convert.py:365-394 | a filter step only for a non-empty filter list, first and alone; every join precedes its order step |
| PlanProperties.BuildOrderingShape | tornado_restless/convert.py:375-394 | `build_query` ordering steps are joins and order steps only |
| Columns.SplitPath | tornado_restless/convert.py:413 | `column.split('.', 1)`: a bare name, or head, dot and a shorter rest |
| Columns.GatherOne | tornado_restless/convert.py:414-417 | fails with AttributeError exactly for a dotted path whose head already holds True; otherwise sets True or appends the rest |
| Columns.Gather | tornado_restless/convert.py:413-417 | the first loop leaves every head once; its only error is AttributeError |
| Columns.GatherStops | tornado_restless/convert.py:413-417 | a failure in the first loop is the result, whatever follows |
| Columns.ParseColumnsSpec | tornado_restless/convert.py:406-425 | the parsed keys are the first loop's keys |
| Columns.Nest | tornado_restless/convert.py:420-422 | the second loop parses every gathered list in place, keeping keys and order; it fails at the first failing entry |
| Columns.NestEntry | tornado_restless/convert.py:421-422 | True stays True; a list of remainders becomes the tree `parse_columns` makes of them, and fails exactly when that parse fails, with its error |
| Columns.ParseColumns | tornado_restless/convert.py:399-425 | `parse_columns` as written is the specified parse; None gives None |
| Columns.ParseList | tornado_restless/convert.py:406-425 | a list of strings is parsed by both loops |
| Columns.GatherList | tornado_restless/convert.py:413-417 | the first loop computes `Gather` |
| Columns.NestList | tornado_restless/convert.py:420-422 | the second loop computes `Nest` |
| Columns.NestValue | tornado_restless/convert.py:421-422 | one entry of the second loop computes `NestEntry` |
| Columns.GetIncluded | tornado_restless/convert.py:434 | `include.get(k)` is None for a missing key and AttributeError on a non-dict |
| Columns.Combine | tornado_restless/convert.py:428-443 | a non-dict `requested`, or a non-empty one with a non-dict include, raises AttributeError; an empty one gives an empty dict |
| Columns.CombineStops | tornado_restless/convert.py:433-442 | a failing entry ends the loop |
| Columns.Merge | tornado_restless/convert.py:434-442 | nothing is stored exactly when the include value is falsy; include True keeps the requested value; requested True keeps the include value |
| Columns.CombineColumns | tornado_restless/convert.py:428-443 | the loop as written computes `Combine` |
| Columns.CombineEntry | tornado_restless/convert.py:433-442 | one iteration computes `CombineAt` |
| Columns.MergeValues | tornado_restless/convert.py:434-442 | the branches compute `Merge` |
| Columns.ToDeep | tornado_restless/convert.py:446-469 | a dict include gains `key: False` when the key is absent and is otherwise unchanged; the child include is `include[key]`, or False for a non-dict; a dict exclude holding the key gives that child exclude and a None include; otherwise the child exclude is None |
| ColumnsProperties.GatherKeys | tornado_restless/convert.py:413-417 | the keys of the first loop are exactly the heads of the strings |
| ColumnsProperties.GatherBare | tornado_restless/convert.py:414-415 | a bare name holds True after the first loop |
| ColumnsProperties.GatherOneBare | tornado_restless/convert.py:414-415 | a bare name sets its head to True |
| ColumnsProperties.GatherOneNew | tornado_restless/convert.py:417 | a dotted path under a new head starts a list with its rest |
| ColumnsProperties.GatherOneAppend | tornado_restless/convert.py:417 | a dotted path under a head holding a list appends its rest in place |
| ColumnsProperties.GatherSharedHead | tornado_restless/convert.py:413-417 | two paths under one head share one list, and a following bare name is kept whole |
| ColumnsProperties.GatherExample | tornado_restless/convert.py:413-417 | the first loop on `author.name, author.email, title` |
| ColumnsProperties.InnerExample | tornado_restless/convert.py:406-425 | `name, email` parse to two True leaves |
| ColumnsProperties.ParseExample | tornado_restless/convert.py:399-425 | `["author.name","author.email","title"]` parses to `{author: {name: True, email: True}, title: True}` |
| ColumnsProperties.GatherFailureStays | tornado_restless/convert.py:413-417 | once the first loop fails, the whole parse fails with AttributeError |
| ColumnsProperties.ParseKeys | tornado_restless/convert.py:406-425 | the keys of the parse are exactly the heads of the strings, each once |
| ColumnsProperties.BareNameIsTrue | tornado_restless/convert.py:414-415 | a bare name maps to True in a successful parse |
| ColumnsProperties.BareThenDottedFails | tornado_restless/convert.py:414-417 | a dotted path after a bare name with the same head fails, because `True` has no `append` |
| ColumnsProperties.GatherWhole | tornado_restless/convert.py:414-415 | a head the first loop holds True for was listed as a bare name |
| ColumnsProperties.GatherFailsExactly | tornado_restless/convert.py:413-417 | the first loop fails exactly when a bare name comes before a dotted path under the same head |
| ColumnsProperties.GatherRests | tornado_restless/convert.py:413-417 | without a bare name `h`, the first loop gathers under `h` exactly the remainders of its dotted paths, in order, and has no entry for `h` when there are none |
| ColumnsProperties.DottedHeadParsesRests | tornado_restless/convert.py:406-425 | a head listed only with dotted paths maps to the parse of its remainders, in order |
| ColumnsProperties.ParseFailsExactly | tornado_restless/convert.py:406-425 | the parse fails exactly when a bare name comes before a dotted path under the same head, or when the remainders of a head never listed bare fail to parse |
| ColumnsProperties.ParsedIsProjectionTree | tornado_restless/convert.py:406-425 | a parse has no repeated keys and every value is True or a non-empty parsed tree |
| ColumnsProperties.CombineFirstKeys | tornado_restless/convert.py:433-442 | the loop keeps exactly the requested keys whose include value is truthy |
| ColumnsProperties.CombineFirstValues | tornado_restless/convert.py:434-442 | each kept key holds what `Merge` makes of one of its requested values and its include value |
| ColumnsProperties.CombineKeys | tornado_restless/convert.py:428-443 | the result keys are exactly the requested keys with a truthy include value, so they are keys of both; each holds the merged value |
| ColumnsProperties.CombineSelf | tornado_restless/convert.py:428-443 | combining a parsed tree with itself gives it back |
| ColumnsProperties.CombineSelfFirst | tornado_restless/convert.py:433-442 | the first `n` entries of a self-combination are the first `n` entries of the tree |
| ColumnsProperties.MergeSelf | tornado_restless/convert.py:434-442 | merging True or a parsed tree with itself keeps it |
| ColumnsProperties.ToDeepSettles | tornado_restless/convert.py:456-469 | a second `to_deep` for the same key changes nothing more |
| Serialize.OptionIndex | tornado_restless/convert.py:562 | `options['execute_queries']` raises KeyError on a caller's dict without it; on the shared defaultdict it inserts and returns False when absent |
| Serialize.WriteBack | tornado_restless/convert.py:459 | the caller's include keeps its keys once the nested call's projection is written back |
| Serialize.ToDict | tornado_restless/convert.py:472-567 | `to_dict` as written, branch by branch and loop by loop, is the specified conversion |
| Serialize.Store | tornado_restless/convert.py:566 | storing one converted attribute computes `Emit` |
| Serialize.ConvertMap | tornado_restless/convert.py:512-513 | the dict comprehension computes the dict branch |
| Serialize.ConvertList | tornado_restless/convert.py:516-517 | the list comprehension computes the list branch |
| Serialize.ConvertPicked | tornado_restless/convert.py:520-524 | the loop over a dict include computes the include branch |
| Serialize.Pick | tornado_restless/convert.py:523 | one include key computes `PickAt` |
| Serialize.ConvertRecord | tornado_restless/convert.py:537-567 | the loop over candidate names computes the record branch |
| Serialize.Admit | tornado_restless/convert.py:540-556 | the skip tests for one name compute `RecordAt` |
| Serialize.Fetch | tornado_restless/convert.py:558-566 | the query rules and conversion of one attribute compute `Fetched` |
| Serialize.MapStops | tornado_restless/convert.py:512-513 | a failing item ends the dict branch |
| Serialize.ListStops | tornado_restless/convert.py:516-517 | a failing element ends the list branch |
| Serialize.PickStops | tornado_restless/convert.py:522-523 | a failing include key ends the include branch |
| Serialize.RecordStops | tornado_restless/convert.py:540-566 | a failing name ends the record branch |
| SerializeProperties.FrameToDict | tornado_restless/convert.py:459 | a non-dict include is left alone; a dict include only gains keys at its end, each holding False, and every value it had grows the same way; the shared default options keep every entry and gain only `execute_queries: False` |
| SerializeProperties.ConflictFirst | tornado_restless/convert.py:488-489 | both an include and an exclude raise ValueError before anything else |
| SerializeProperties.LeavesConverted | tornado_restless/convert.py:492-509 | None, base types, temporal values, geometries and UUIDs come out converted, with nothing changed |
| SerializeProperties.UnmappedFails | tornado_restless/convert.py:527-535 | an unmapped object without a dict include raises DictConvertionError |
| SerializeProperties.MapKeysKept | tornado_restless/convert.py:512-513 | a converted mapping has exactly the original keys, in order, and each holds the original value converted with the caller's options and the scope `to_deep` gives its key |
| SerializeProperties.EmitAppends | tornado_restless/convert.py:566 | storing under a new key succeeds exactly when the nested conversion does, and appends that converted value under the key, keeping the other entries |
| SerializeProperties.MapFirstItems | tornado_restless/convert.py:512-513 | after the first `n` items, a successful dict comprehension holds `n` entries, each the conversion of its item under the scope `to_deep` gives its key |
| SerializeProperties.ListShape | tornado_restless/convert.py:516-517 | a converted list keeps its length; with a non-dict include every element is converted with the same scope |
| SerializeProperties.ListFirstScope | tornado_restless/convert.py:516-517 | a non-dict include stays the same across the elements |
| SerializeProperties.RecordAdmits | tornado_restless/convert.py:537-567 | a record yields each name once, only candidates not excluded as True, and with include False only columns and hybrids; conversely every candidate not passed over is an attribute of the object and holds its converted value |
| SerializeProperties.RecordAtAdmits | tornado_restless/convert.py:540-566 | a non-dict exclude raises TypeError; a candidate passed over leaves everything unchanged; any other is new and admitted, and succeeds exactly when the object has it and its value converts, appending that value under its name |
| SerializeProperties.FetchedAppends | tornado_restless/convert.py:558-566 | a lazy query under include False is left out; any other attribute succeeds exactly when its converted value does, which is appended under its name |
| SerializeProperties.RecordFirstKeeps | tornado_restless/convert.py:537-567 | after the first `n` candidates, a successful walk keeps every candidate not passed over, with its converted value, in the dict built so far |
| SerializeProperties.PickKeys | tornado_restless/convert.py:520-524 | with a dict include the result has exactly the include's keys, in order; each must be an attribute of the object and holds its value converted with the shared options and the scope `to_deep` gives the key |
| SerializeProperties.PickMissingFails | tornado_restless/convert.py:523 | an include key the object lacks fails the loop |
| SerializeProperties.PickAtFound | tornado_restless/convert.py:523 | `getattr` succeeds only for an attribute the object has |
| SerializeProperties.PickAtAppends | tornado_restless/convert.py:523 | one include key succeeds exactly when the object has the attribute and its value converts, and appends that converted value under the key |
| SerializeProperties.PickFirstItems | tornado_restless/convert.py:520-524 | after the first `n` include keys, a successful loop holds `n` entries, each an attribute of the object converted with the scope `to_deep` gives its key |
| SerializeProperties.PickIgnoresOptions | tornado_restless/convert.py:520-524 | with a dict include the caller's options play no part |
| SerializeProperties.QueryLatch | tornado_restless/convert.py:551-562 | the first lazy query met with the shared options inserts `execute_queries: False` into them |
| SerializeProperties.LatchPersists | tornado_restless/convert.py:551-562 | once `execute_queries` is False in the shared options, it stays False |
| SerializeProperties.UnloadedSkipped | tornado_restless/convert.py:551-553 | with `execute_queries` false, an unloaded attribute that is not a hybrid is skipped |
| Helpers.ConvertField | tornado_restless/helpers.py:187-206 | the only error of one field's conversion is AttributeError |
| Helpers.ConvertItems | tornado_restless/helpers.py:187-206 | the converted items are one per input item; the only error is AttributeError |
| Helpers.StringsToDates | tornado_restless/helpers.py:173-207 | the loop builds the specified new dict |
| Helpers.ConvertNext | tornado_restless/helpers.py:187-206 | a converted item extends the result by one assignment |
| Helpers.ConvertFails | tornado_restless/helpers.py:187-206 | an item that fails to convert is the error of the whole dict |
| Helpers.ConvertStops | tornado_restless/helpers.py:187-206 | once an item fails, every longer prefix fails with the same error |
| Helpers.FirstMissing | tornado_restless/helpers.py:158-161 | every keyword before the position is a class attribute and the one at it is not |
| Helpers.Snapshot | tornado_restless/helpers.py:123 | a query sees each instance's class and current values |
| Helpers.Filter | tornado_restless/helpers.py:119-127 | exactly the entries whose key is (or is not) a primary key, in order |
| Helpers.FindRow | tornado_restless/helpers.py:123 | `filter_by(...).first()` finds the first matching row, or none when no row matches |
| Helpers.Decide | tornado_restless/helpers.py:116-131 | an update exactly when every primary key is given and a row matches them, using the first such row; otherwise a create |
| Helpers.Lift | tornado_restless/helpers.py:102-110 | request values enter unchanged under their keys |
| Helpers.AssignAttributes | tornado_restless/helpers.py:152-162 | TypeError exactly when some keyword is not a class attribute; the keywords before the first such one are set, in order |
| Helpers.Session.Construct | tornado_restless/helpers.py:131 | `model(**attrs)` raises TypeError for a keyword the class lacks; otherwise it makes a new instance of that class holding the attributes |
| Helpers.Session.GetOrCreate | tornado_restless/helpers.py:88-131 | a non-dict is returned unchanged; a dict yields an instance of the class, either an existing row or a newly built one |
| Helpers.Session.LinkRelations | tornado_restless/helpers.py:102-110 | every entry keeps its key and place; entries that are not relations keep their value |
| Helpers.Session.LinkList | tornado_restless/helpers.py:105-107 | one result per list element |
| HelpersProperties.FieldTypeOfAttribute | tornado_restless/helpers.py:19-52 | a column, a proxy to a remote column and a typed hybrid yield their type; relationships, methods, constants, untyped hybrids and proxies to a relationship yield None; a Date or DateTime column is a date field and an Interval column an interval field |
| HelpersProperties.ConvertFieldFails | tornado_restless/helpers.py:188-189 | a field fails exactly when the class lacks it, or when a date field holds a value that is neither None nor a string |
| HelpersProperties.BlankDateBecomesNone | tornado_restless/helpers.py:189-190 | a blank or whitespace-only string in a date field becomes None |
| HelpersProperties.MarkerBecomesNow | tornado_restless/helpers.py:191-192 | a current-time marker becomes the database function of its lower-case name |
| HelpersProperties.DateStringParsed | tornado_restless/helpers.py:193-201 | other strings are parsed, and a Date column keeps only the date |
| HelpersProperties.IntervalSeconds | tornado_restless/helpers.py:202-206 | an integer in an interval field becomes that many seconds (True counts as 1); a non-integer is copied |
| HelpersProperties.OthersCopied | tornado_restless/helpers.py:205-206 | None, and every value of a field that is neither date nor interval, is copied unchanged |
| HelpersProperties.StringsToDatesShape | tornado_restless/helpers.py:186-207 | the new dict has exactly the input's keys, in order, each holding its converted value |
| HelpersProperties.StringsToDatesFails | tornado_restless/helpers.py:186-207 | the conversion fails exactly when some item does, with AttributeError |
| HelpersProperties.AssignStopsAtMissing | tornado_restless/helpers.py:158-162 | when TypeError is raised, the keywords before the missing one are set and the later ones are untouched |
| HelpersProperties.MissingKeyCreates | tornado_restless/helpers.py:116-131 | a missing primary-key value always means a new instance |
| HelpersProperties.UpdateKeepsPrimaryKeys | tornado_restless/helpers.py:119-127 | an update never reassigns a primary key, which keeps the value that was looked up |
| HelpersProperties.NoKeyUpdatesFirstRow | tornado_restless/helpers.py:116-128 | with no primary-key column, every request updates the first row of the class |

## Left out

- Execution of SQL. Predicates and query steps are abstract datatypes; `session_query`, `query.filter`, `join`, `order_by`, `group_by`, `limit`, `offset` and `Query.all()` only record a step or yield a lazy query's items.
- Reflection (`getattr` on classes, `dir`, `inspect.getmembers`, `inspect.getargspec`, `object_mapper` and `ModelWrapper`) is replaced by the `Schema` table. `dir()` lists each name once and in a fixed order.
- The foreign conversions are opaque values, known by their rendering: `isoformat`, `unicode(uuid)`, `to_mapping(to_shape(...))`, `dateutil` parsing and `func.*`. A date string that `parse_datetime` rejects is therefore not modelled as an error.
- Python 2 `long` is folded into integers. Request data holds no floats: a float `limit` or `offset`, a float filter value and a float handed to `strings_to_dates` are not modelled. Unicode whitespace and case mapping are not modelled; `strip` and `lower` act on ASCII only.
- Plan.DirectionNamed: only `asc` and `desc` are order directions. Any other attribute of a column that `getattr(field, direction)()` might find is modelled as AttributeError.
- The source runs on Python 2, whose dicts iterate in hash order; the model fixes insertion order instead. This decides which include key (`for column in include`) first meets a lazy query and latches `execute_queries`, which keyword `assign_attributes` rejects first and so which keywords were already set, and the order that every "in order" statement above refers to.
- Plan.BuildOrderTermSteps: it takes order entries whose values are strings only. A non-string `field` or `direction` in a `build_query` order entry, which raises TypeError in the source, is not modelled.
- Columns.ParseColumns: it takes a list of strings only. A non-string entry, on which `column.split` raises AttributeError in the source, is not modelled.
- An include given as a list or any other non-dict iterable is not modelled. Projections are None, True, False or a dict.
- `to_deep` updates the caller's include dict in place, and the nested call sees the same object. The model returns the updated include from each call and writes the nested one back under its key, rather than sharing an object.
- Helpers.Session.GetOrCreate: its contract states only the result's class and where the instance comes from. The update-or-create choice is stated on `Helpers.Decide` and its lemmas.
- Helpers.Session.LinkRelations: it does not state what a relation's value becomes, only that keys, places and non-relation values are kept.
- Helpers.Session.LinkList: it states only the number of results.
- The `get_or_create` relation loop writes into the caller's `attrs` dict, but the model builds a new dict, so that change to the caller's dict is not visible.
- Instances that `get_or_create` builds are not added to the rows that later lookups see, just as the source never adds them to the session.
- `tornado_restless/api.py` (HTTP routing and handlers) and `setup.py` (packaging) are not part of this model. Neither is the `errors` module, whose exceptions are the `Error` datatype here.
