/** `to_dict`: the translation of a value read from the database into plain
    data (None, scalars, strings, dicts and lists), narrowed by an include
    or an exclude projection.

    Python values are given as a finite `Value` tree. The foreign
    conversions (`isoformat`, `unicode(uuid)`, `to_mapping(to_shape(...))`)
    are kept opaque: a temporal value and a UUID are known here by the text
    they render to, and a geometry by an element the output names.

    `to_dict` changes two things besides building its result, and both are
    threaded through the model explicitly as a `Run`:
    - the include projection: `to_deep` calls `include.setdefault(key,
      False)`, and the projection a nested call receives is the very dict
      stored under `key`, so what the nested call adds is visible to the
      caller; the model returns the projection after the call and writes a
      nested one back under its key;
    - the options dict shared by every call that is not given one (the
      mutable default argument `collections.defaultdict(bool)`): reading
      `options['execute_queries']` from it inserts `False`. */
module Serialize {

  import opened Wrappers
  import opened Dicts
  import opened Json
  import opened Schema
  import opened Columns

  /** `int`, `long`, `bool`, `float` and `basestring` values, returned as they are. */
  datatype Scalar = Str(s: string) | Int(i: int) | Bool(b: bool) | Float(f: real)

  /** What `to_dict` may be handed. */
  datatype Value =
    | Null                                  // None
    | Prim(p: Scalar)                       // one of the base types
    | Temporal(iso: string)                 // a datetime, date or time, by its ISO rendering
    | Geo(element: string)                  // a WKT or WKB element
    | Uuid(text: string)                    // a UUID, by its canonical text
    | Map(entries: Dict<Value>)             // a dict, or anything with `items`
    | List(items: seq<Value>)               // a list, or anything else iterable
    | LazyQuery(items: seq<Value>)          // a query; iterating it or `.all()` yields `items`
    | Instance(kind: string, loaded: set<string>, entries: Dict<Value>)
      // an object of class `kind`: `loaded` is its `__dict__`, `entries` what `getattr` finds

  /** What `to_dict` returns. */
  datatype Plain =
    | PNull
    | PScalar(p: Scalar)
    | PText(s: string)                      // `isoformat()` and `unicode(uuid)`
    | PGeoMapping(element: string)          // `to_mapping(to_shape(element))`
    | PDict(entries: Dict<Plain>)
    | PList(items: seq<Plain>)

  /** The options a call reads: a dict the caller passed, or the process-wide
      default `defaultdict(bool)`, whose contents are part of the state. */
  datatype Options = Given(flags: Dict<bool>) | Shared

  /** A result together with the include projection and the contents of the
      shared default options after the call. */
  datatype Run<T> = Run(out: Result<T, Error>, incl: Columns, defaults: Dict<bool>)

  /** Nesting depth: a value read out of a dict, a list, a query or an
      instance is shallower than its container, and a query's rows as a
      list are as deep as the query. */
  function Nesting(v: Value): nat
  {
    match v
    case Map(_) => 1 + EntriesNesting(v, 0)
    case Instance(_, _, _) => 1 + EntriesNesting(v, 0)
    case List(_) => 1 + ItemsNesting(v, 0)
    case LazyQuery(_) => 1 + ItemsNesting(v, 0)
    case _ => 0
  }

  function EntriesNesting(v: Value, i: nat): (r: nat)
    requires (v.Map? || v.Instance?) && i <= |v.entries|
    ensures forall k :: i <= k < |v.entries| ==> Nesting(v.entries[k].1) <= r
    decreases v, 0, |v.entries| - i
  {
    if i == |v.entries| then 0
    else
      var here := Nesting(v.entries[i].1);
      var rest := EntriesNesting(v, i + 1);
      if here < rest then rest else here
  }

  function ItemsNesting(v: Value, i: nat): (r: nat)
    requires (v.List? || v.LazyQuery?) && i <= |v.items|
    ensures forall k :: i <= k < |v.items| ==> Nesting(v.items[k]) <= r
    decreases v, 0, |v.items| - i
  {
    if i == |v.items| then 0
    else
      var here := Nesting(v.items[i]);
      var rest := ItemsNesting(v, i + 1);
      if here < rest then rest else here
  }

  /** `options.get(key, True)`. */
  function OptionGet(opts: Options, defaults: Dict<bool>, key: string): bool
  {
    var d := if opts.Given? then opts.flags else defaults;
    if key in Keys(d) then Get(d, key) else true
  }

  /** `options[key]`: KeyError on a caller's dict without the key; the
      shared default dict inserts and returns False. */
  function OptionIndex(opts: Options, defaults: Dict<bool>, key: string): (r: Result<(bool, Dict<bool>), Error>)
    ensures opts.Given? ==> (r.Ok? <==> key in Keys(opts.flags))
    ensures r.Ok? && opts.Given? ==> r.value == (Get(opts.flags, key), defaults)
    ensures r.Err? ==> r.error == KeyError(JStr(key))
    ensures opts.Shared? ==> r.Ok? && key in Keys(r.value.1) && Get(r.value.1, key) == r.value.0
    ensures opts.Shared? && key !in Keys(defaults) ==> r.value == (false, defaults + [(key, false)])
    ensures opts.Shared? && key in Keys(defaults) ==> r.value == (Get(defaults, key), defaults)
  {
    match opts
    case Given(flags) => if key in Keys(flags) then Ok((Get(flags, key), defaults)) else Err(KeyError(JStr(key)))
    case Shared =>
      if key in Keys(defaults) then Ok((Get(defaults, key), defaults))
      else
        PutNew(defaults, key, false);
        Ok((false, Put(defaults, key, false)))
  }

  /** The names `to_dict` walks on a mapped instance: columns, relations,
      association proxies, hybrids and further attributes, in that order. */
  function Candidates(m: Model): seq<string>
  {
    m.columns + m.relations + m.proxies + m.hybrids + m.attributes
  }

  /** `exclude is not None and column in exclude and exclude[column] is True`
      for a dict `exclude`. */
  predicate Excluded(excl: Columns, column: string)
  {
    excl.Tree? && column in Keys(excl.entries) && Get(excl.entries, column) == Flag(true)
  }

  /** The include projection of the caller after a nested call: the nested
      call received the dict stored under `key` itself, unless an exclude
      entry replaced it by None. */
  function WriteBack(after: Columns, excl: Columns, key: string, nested: Columns): (r: Columns)
    ensures !after.Tree? ==> r == after
    ensures after.Tree? && key in Keys(after.entries) ==> r.Tree? && Keys(r.entries) == Keys(after.entries)
  {
    if after.Tree? && !(excl.Tree? && key in Keys(excl.entries)) then Tree(Put(after.entries, key, nested))
    else after
  }

  function AsDict(a: Run<Dict<Plain>>): Run<Plain>
  {
    Run(if a.out.Ok? then Ok(PDict(a.out.value)) else Err(a.out.error), a.incl, a.defaults)
  }

  function AsList(a: Run<seq<Plain>>): Run<Plain>
  {
    Run(if a.out.Ok? then Ok(PList(a.out.value)) else Err(a.out.error), a.incl, a.defaults)
  }

  /** `to_dict(instance, options, include, exclude)`. */
  function ToDictSpec(reg: Registry, v: Value, opts: Options, incl: Columns, excl: Columns, defaults: Dict<bool>): (r: Run<Plain>)
    decreases Nesting(v), 3, 0
  {
    if incl != Unset && excl != Unset then Run(Err(ValueError), incl, defaults)
    else match v
      case Null => Run(Ok(PNull), incl, defaults)
      case Prim(p) => Run(Ok(PScalar(p)), incl, defaults)
      case Temporal(iso) => Run(Ok(PText(iso)), incl, defaults)
      case Geo(e) => Run(Ok(PGeoMapping(e)), incl, defaults)
      case Uuid(t) => Run(Ok(PText(t)), incl, defaults)
      case Map(entries) => AsDict(MapFirst(reg, v, |entries|, opts, incl, excl, defaults))
      case List(items) => AsList(ListFirst(reg, v, |items|, opts, incl, excl, defaults))
      case LazyQuery(items) => AsList(ListFirst(reg, v, |items|, opts, incl, excl, defaults))
      case Instance(kind, _, _) =>
        if incl.Tree? then AsDict(PickFirst(reg, v, Keys(incl.entries), |incl.entries|, incl, excl, defaults))
        else if kind !in reg then Run(Err(DictConvertionError), incl, defaults)
        else AsDict(RecordFirst(reg, v, reg[kind], |Candidates(reg[kind])|, opts, incl, excl, defaults))
  }

  /** One converted value stored under `key`, with the scope `to_deep` gives it. */
  function Emit(reg: Registry, v: Value, key: string, node: Value, opts: Options, excl: Columns, prev: Run<Dict<Plain>>): (r: Run<Dict<Plain>>)
    requires prev.out.Ok? && Nesting(node) < Nesting(v)
    decreases Nesting(v), 0, 0
  {
    var deep := ToDeep(prev.incl, excl, key);
    Stored(prev, excl, key, deep.0, ToDictSpec(reg, node, opts, deep.1.incl, deep.1.excl, prev.defaults))
  }

  /** The converted value `nested` stored under `key`, and the caller's
      include after the nested call. */
  function Stored(prev: Run<Dict<Plain>>, excl: Columns, key: string, after: Columns, nested: Run<Plain>): Run<Dict<Plain>>
    requires prev.out.Ok?
  {
    Run(if nested.out.Ok? then Ok(Put(prev.out.value, key, nested.out.value)) else Err(nested.out.error),
        WriteBack(after, excl, key, nested.incl), nested.defaults)
  }

  /** The dict branch over the first `n` items. */
  function MapFirst(reg: Registry, v: Value, n: nat, opts: Options, incl: Columns, excl: Columns, defaults: Dict<bool>): (r: Run<Dict<Plain>>)
    requires v.Map? && n <= |v.entries|
    decreases Nesting(v), 2, n
  {
    if n == 0 then Run(Ok([]), incl, defaults)
    else
      var prev := MapFirst(reg, v, n - 1, opts, incl, excl, defaults);
      if prev.out.Err? then prev
      else
        assert Nesting(v.entries[n - 1].1) < Nesting(v);
        Emit(reg, v, v.entries[n - 1].0, v.entries[n - 1].1, opts, excl, prev)
  }

  /** The list branch over the first `n` elements: every element gets the
      same options, include and exclude. */
  function ListFirst(reg: Registry, v: Value, n: nat, opts: Options, incl: Columns, excl: Columns, defaults: Dict<bool>): (r: Run<seq<Plain>>)
    requires (v.List? || v.LazyQuery?) && n <= |v.items|
    decreases Nesting(v), 2, n
  {
    if n == 0 then Run(Ok([]), incl, defaults)
    else
      var prev := ListFirst(reg, v, n - 1, opts, incl, excl, defaults);
      if prev.out.Err? then prev
      else ListAt(reg, v, n - 1, opts, excl, prev)
  }

  function ListAt(reg: Registry, v: Value, i: nat, opts: Options, excl: Columns, prev: Run<seq<Plain>>): (r: Run<seq<Plain>>)
    requires (v.List? || v.LazyQuery?) && i < |v.items| && prev.out.Ok?
    decreases Nesting(v), 1, 0
  {
    assert Nesting(v.items[i]) < Nesting(v);
    var nested := ToDictSpec(reg, v.items[i], opts, prev.incl, excl, prev.defaults);
    Run(if nested.out.Ok? then Ok(prev.out.value + [nested.out.value]) else Err(nested.out.error),
        nested.incl, nested.defaults)
  }

  /** The branch for a dict include over its first `n` keys `cols`: each
      attribute is read with `getattr` and converted with the shared options. */
  function PickFirst(reg: Registry, v: Value, cols: seq<string>, n: nat, incl: Columns, excl: Columns, defaults: Dict<bool>): (r: Run<Dict<Plain>>)
    requires v.Instance? && n <= |cols|
    decreases Nesting(v), 2, n
  {
    if n == 0 then Run(Ok([]), incl, defaults)
    else
      var prev := PickFirst(reg, v, cols, n - 1, incl, excl, defaults);
      if prev.out.Err? then prev
      else PickAt(reg, v, cols[n - 1], excl, prev)
  }

  function PickAt(reg: Registry, v: Value, column: string, excl: Columns, prev: Run<Dict<Plain>>): (r: Run<Dict<Plain>>)
    requires v.Instance? && prev.out.Ok?
    decreases Nesting(v), 1, 0
  {
    if column !in Keys(v.entries) then Run(Err(AttributeError), prev.incl, prev.defaults)
    else
      assert Nesting(v.entries[IndexOf(v.entries, column)].1) < Nesting(v);
      Emit(reg, v, column, Get(v.entries, column), Shared, excl, prev)
  }

  /** The branch for a mapped instance over its first `n` candidate names. */
  function RecordFirst(reg: Registry, v: Value, m: Model, n: nat, opts: Options, incl: Columns, excl: Columns, defaults: Dict<bool>): (r: Run<Dict<Plain>>)
    requires v.Instance? && n <= |Candidates(m)|
    decreases Nesting(v), 2, n
  {
    if n == 0 then Run(Ok([]), incl, defaults)
    else
      var prev := RecordFirst(reg, v, m, n - 1, opts, incl, excl, defaults);
      if prev.out.Err? then prev
      else RecordAt(reg, v, m, Candidates(m)[n - 1], opts, excl, prev)
  }

  /** Whether the record branch passes over `column` without reading it. */
  predicate Skipped(v: Value, m: Model, column: string, opts: Options, excl: Columns, prev: Run<Dict<Plain>>)
    requires v.Instance? && prev.out.Ok?
  {
    Excluded(excl, column) ||
    column in Keys(prev.out.value) ||
    (prev.incl == Flag(false) && column !in m.hybrids && column !in m.columns) ||
    (column !in v.loaded && !OptionGet(opts, prev.defaults, "execute_queries") &&
     (column !in m.hybrids || !OptionGet(opts, prev.defaults, "execute_hybrids")))
  }

  function RecordAt(reg: Registry, v: Value, m: Model, column: string, opts: Options, excl: Columns, prev: Run<Dict<Plain>>): (r: Run<Dict<Plain>>)
    requires v.Instance? && prev.out.Ok?
    decreases Nesting(v), 1, 0
  {
    if excl != Unset && !excl.Tree? then Run(Err(TypeError), prev.incl, prev.defaults)
    else if Skipped(v, m, column, opts, excl, prev) then prev
    else if column !in Keys(v.entries) then Run(Err(AttributeError), prev.incl, prev.defaults)
    else
      assert Nesting(v.entries[IndexOf(v.entries, column)].1) < Nesting(v);
      Fetched(reg, v, column, Get(v.entries, column), opts, excl, prev)
  }

  /** The record branch after `node = getattr(instance, column)`: a query is
      passed over when include is False, executed when `execute_queries`
      says so, and the node is converted with the shared options. */
  function Fetched(reg: Registry, v: Value, column: string, node: Value, opts: Options, excl: Columns, prev: Run<Dict<Plain>>): (r: Run<Dict<Plain>>)
    requires prev.out.Ok? && Nesting(node) < Nesting(v)
    decreases Nesting(v), 0, 1
  {
    if prev.incl == Flag(false) && node.LazyQuery? then prev
    else if node.LazyQuery? then
      match OptionIndex(opts, prev.defaults, "execute_queries")
      case Err(e) => Run(Err(e), prev.incl, prev.defaults)
      case Ok((execute, defaults)) =>
        assert Nesting(List(node.items)) == Nesting(node) by {
          ItemsNestingSame(node.items, 0);
        }
        Emit(reg, v, column, if execute then List(node.items) else node, Shared, excl, Run(prev.out, prev.incl, defaults))
    else Emit(reg, v, column, node, Shared, excl, prev)
  }

  /** A query and the list its `.all()` returns are equally deep. */
  lemma {:induction false} ItemsNestingSame(items: seq<Value>, i: nat)
    requires i <= |items|
    ensures ItemsNesting(List(items), i) == ItemsNesting(LazyQuery(items), i)
    decreases |items| - i
  {
    if i < |items| {
      ItemsNestingSame(items, i + 1);
    }
  }

  /** `to_dict`, branch by branch and loop by loop. */
  method ToDict(reg: Registry, v: Value, opts: Options, incl: Columns, excl: Columns, defaults: Dict<bool>) returns (r: Run<Plain>)
    ensures r == ToDictSpec(reg, v, opts, incl, excl, defaults)
    decreases Nesting(v), 3, 0
  {
    if incl != Unset && excl != Unset {
      return Run(Err(ValueError), incl, defaults);
    }
    match v {
      case Null => r := Run(Ok(PNull), incl, defaults);
      case Prim(p) => r := Run(Ok(PScalar(p)), incl, defaults);
      case Temporal(iso) => r := Run(Ok(PText(iso)), incl, defaults);
      case Geo(e) => r := Run(Ok(PGeoMapping(e)), incl, defaults);
      case Uuid(t) => r := Run(Ok(PText(t)), incl, defaults);
      case Map(_) =>
        var rtn := ConvertMap(reg, v, opts, incl, excl, defaults);
        r := AsDict(rtn);
      case List(_) =>
        var rtn := ConvertList(reg, v, opts, incl, excl, defaults);
        r := AsList(rtn);
      case LazyQuery(_) =>
        var rtn := ConvertList(reg, v, opts, incl, excl, defaults);
        r := AsList(rtn);
      case Instance(kind, _, _) =>
        if incl.Tree? {
          var rtn := ConvertPicked(reg, v, Keys(incl.entries), incl, excl, defaults);
          r := AsDict(rtn);
        } else if kind !in reg {
          r := Run(Err(DictConvertionError), incl, defaults);
        } else {
          var rtn := ConvertRecord(reg, v, reg[kind], opts, incl, excl, defaults);
          r := AsDict(rtn);
        }
    }
  }

  /** `rtn[key] = to_dict(node, **to_deep(include, exclude, key))`. */
  method Store(reg: Registry, v: Value, key: string, node: Value, opts: Options, excl: Columns, prev: Run<Dict<Plain>>)
    returns (r: Run<Dict<Plain>>)
    requires prev.out.Ok? && Nesting(node) < Nesting(v)
    ensures r == Emit(reg, v, key, node, opts, excl, prev)
    decreases Nesting(v), 0, 0
  {
    var deep := ToDeep(prev.incl, excl, key);
    var nested := ToDict(reg, node, opts, deep.1.incl, deep.1.excl, prev.defaults);
    r := Stored(prev, excl, key, deep.0, nested);
  }

  /** The dict comprehension over `instance.items()`. */
  method ConvertMap(reg: Registry, v: Value, opts: Options, incl: Columns, excl: Columns, defaults: Dict<bool>)
    returns (r: Run<Dict<Plain>>)
    requires v.Map?
    ensures r == MapFirst(reg, v, |v.entries|, opts, incl, excl, defaults)
    decreases Nesting(v), 2, 0
  {
    r := Run(Ok([]), incl, defaults);
    for i := 0 to |v.entries|
      invariant r == MapFirst(reg, v, i, opts, incl, excl, defaults) && r.out.Ok?
    {
      assert Nesting(v.entries[i].1) < Nesting(v);
      r := Store(reg, v, v.entries[i].0, v.entries[i].1, opts, excl, r);
      if r.out.Err? {
        MapStops(reg, v, i + 1, |v.entries|, opts, incl, excl, defaults);
        return;
      }
    }
  }

  /** The list comprehension over the elements of an iterable. */
  method ConvertList(reg: Registry, v: Value, opts: Options, incl: Columns, excl: Columns, defaults: Dict<bool>)
    returns (r: Run<seq<Plain>>)
    requires v.List? || v.LazyQuery?
    ensures r == ListFirst(reg, v, |v.items|, opts, incl, excl, defaults)
    decreases Nesting(v), 2, 0
  {
    r := Run(Ok([]), incl, defaults);
    for i := 0 to |v.items|
      invariant r == ListFirst(reg, v, i, opts, incl, excl, defaults) && r.out.Ok?
    {
      assert Nesting(v.items[i]) < Nesting(v);
      var nested := ToDict(reg, v.items[i], opts, r.incl, excl, r.defaults);
      if nested.out.Err? {
        r := Run(Err(nested.out.error), nested.incl, nested.defaults);
        ListStops(reg, v, i + 1, |v.items|, opts, incl, excl, defaults);
        return;
      }
      r := Run(Ok(r.out.value + [nested.out.value]), nested.incl, nested.defaults);
    }
  }

  /** The loop over the columns of a dict include. */
  method ConvertPicked(reg: Registry, v: Value, cols: seq<string>, incl: Columns, excl: Columns, defaults: Dict<bool>)
    returns (r: Run<Dict<Plain>>)
    requires v.Instance?
    ensures r == PickFirst(reg, v, cols, |cols|, incl, excl, defaults)
    decreases Nesting(v), 2, 0
  {
    r := Run(Ok([]), incl, defaults);
    for i := 0 to |cols|
      invariant r == PickFirst(reg, v, cols, i, incl, excl, defaults) && r.out.Ok?
    {
      r := Pick(reg, v, cols[i], excl, r);
      if r.out.Err? {
        PickStops(reg, v, cols, i + 1, |cols|, incl, excl, defaults);
        return;
      }
    }
  }

  /** `rtn[column] = to_dict(getattr(instance, column), **to_deep(include, exclude, column))`. */
  method Pick(reg: Registry, v: Value, column: string, excl: Columns, prev: Run<Dict<Plain>>) returns (r: Run<Dict<Plain>>)
    requires v.Instance? && prev.out.Ok?
    ensures r == PickAt(reg, v, column, excl, prev)
    decreases Nesting(v), 1, 0
  {
    if column !in Keys(v.entries) {
      return Run(Err(AttributeError), prev.incl, prev.defaults);
    }
    assert Nesting(v.entries[IndexOf(v.entries, column)].1) < Nesting(v);
    r := Store(reg, v, column, Get(v.entries, column), Shared, excl, prev);
  }

  /** The loop over the candidate names of a mapped instance. */
  method ConvertRecord(reg: Registry, v: Value, m: Model, opts: Options, incl: Columns, excl: Columns, defaults: Dict<bool>)
    returns (r: Run<Dict<Plain>>)
    requires v.Instance?
    ensures r == RecordFirst(reg, v, m, |Candidates(m)|, opts, incl, excl, defaults)
    decreases Nesting(v), 2, 0
  {
    var attributes := Candidates(m);
    r := Run(Ok([]), incl, defaults);
    for i := 0 to |attributes|
      invariant r == RecordFirst(reg, v, m, i, opts, incl, excl, defaults) && r.out.Ok?
    {
      r := Admit(reg, v, m, attributes[i], opts, excl, r);
      if r.out.Err? {
        RecordStops(reg, v, m, i + 1, |attributes|, opts, incl, excl, defaults);
        return;
      }
    }
  }

  /** One pass of the candidate loop: the tests that skip the name, then
      `getattr`, then the query rules, then the conversion. */
  method Admit(reg: Registry, v: Value, m: Model, column: string, opts: Options, excl: Columns, prev: Run<Dict<Plain>>)
    returns (r: Run<Dict<Plain>>)
    requires v.Instance? && prev.out.Ok?
    ensures r == RecordAt(reg, v, m, column, opts, excl, prev)
    decreases Nesting(v), 1, 0
  {
    if excl != Unset && !excl.Tree? {
      return Run(Err(TypeError), prev.incl, prev.defaults);
    }
    if Excluded(excl, column) || column in Keys(prev.out.value) {
      return prev;
    }
    if prev.incl == Flag(false) && column !in m.hybrids && column !in m.columns {
      return prev;
    }
    if column !in v.loaded && !OptionGet(opts, prev.defaults, "execute_queries") {
      if column !in m.hybrids || !OptionGet(opts, prev.defaults, "execute_hybrids") {
        return prev;
      }
    }
    if column !in Keys(v.entries) {
      return Run(Err(AttributeError), prev.incl, prev.defaults);
    }
    assert Nesting(v.entries[IndexOf(v.entries, column)].1) < Nesting(v);
    r := Fetch(reg, v, column, Get(v.entries, column), opts, excl, prev);
  }

  /** The query rules for the attribute value `node`, then its conversion. */
  method Fetch(reg: Registry, v: Value, column: string, node: Value, opts: Options, excl: Columns, prev: Run<Dict<Plain>>)
    returns (r: Run<Dict<Plain>>)
    requires prev.out.Ok? && Nesting(node) < Nesting(v)
    ensures r == Fetched(reg, v, column, node, opts, excl, prev)
    decreases Nesting(v), 0, 1
  {
    if prev.incl == Flag(false) && node.LazyQuery? {
      return prev;
    }
    var state := prev;
    var value := node;
    if node.LazyQuery? {
      var index := OptionIndex(opts, prev.defaults, "execute_queries");
      if index.Err? {
        return Run(Err(index.error), prev.incl, prev.defaults);
      }
      state := Run(prev.out, prev.incl, index.value.1);
      if index.value.0 {
        ItemsNestingSame(node.items, 0);
        value := List(node.items);
      }
    }
    r := Store(reg, v, column, value, Shared, excl, state);
  }

  /** A failure ends each loop: the remaining steps leave it as it is. */
  lemma {:induction false} MapStops(reg: Registry, v: Value, i: nat, n: nat, opts: Options, incl: Columns, excl: Columns, defaults: Dict<bool>)
    requires v.Map? && i <= n <= |v.entries| && MapFirst(reg, v, i, opts, incl, excl, defaults).out.Err?
    ensures MapFirst(reg, v, n, opts, incl, excl, defaults) == MapFirst(reg, v, i, opts, incl, excl, defaults)
    decreases n - i
  {
    if i < n {
      MapStops(reg, v, i, n - 1, opts, incl, excl, defaults);
    }
  }

  lemma {:induction false} ListStops(reg: Registry, v: Value, i: nat, n: nat, opts: Options, incl: Columns, excl: Columns, defaults: Dict<bool>)
    requires (v.List? || v.LazyQuery?) && i <= n <= |v.items| && ListFirst(reg, v, i, opts, incl, excl, defaults).out.Err?
    ensures ListFirst(reg, v, n, opts, incl, excl, defaults) == ListFirst(reg, v, i, opts, incl, excl, defaults)
    decreases n - i
  {
    if i < n {
      ListStops(reg, v, i, n - 1, opts, incl, excl, defaults);
    }
  }

  lemma {:induction false} PickStops(reg: Registry, v: Value, cols: seq<string>, i: nat, n: nat, incl: Columns, excl: Columns, defaults: Dict<bool>)
    requires v.Instance? && i <= n <= |cols| && PickFirst(reg, v, cols, i, incl, excl, defaults).out.Err?
    ensures PickFirst(reg, v, cols, n, incl, excl, defaults) == PickFirst(reg, v, cols, i, incl, excl, defaults)
    decreases n - i
  {
    if i < n {
      PickStops(reg, v, cols, i, n - 1, incl, excl, defaults);
    }
  }

  lemma {:induction false} RecordStops(reg: Registry, v: Value, m: Model, i: nat, n: nat, opts: Options, incl: Columns, excl: Columns, defaults: Dict<bool>)
    requires v.Instance? && i <= n <= |Candidates(m)| && RecordFirst(reg, v, m, i, opts, incl, excl, defaults).out.Err?
    ensures RecordFirst(reg, v, m, n, opts, incl, excl, defaults) == RecordFirst(reg, v, m, i, opts, incl, excl, defaults)
    decreases n - i
  {
    if i < n {
      RecordStops(reg, v, m, i, n - 1, opts, incl, excl, defaults);
    }
  }
}
