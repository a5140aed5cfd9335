/** What `to_dict` guarantees: the include/exclude conflict check comes
    first, mappings keep their keys, lists keep their length and hand every
    element the same scope, instances emit only admitted names, and the
    only state it leaves behind is keys added to a dict include and
    `execute_queries: False` in the shared default options. */
module SerializeProperties {

  import opened Wrappers
  import opened Dicts
  import opened Json
  import opened Schema
  import opened Columns
  import opened Serialize

  /** What a call may do to the include projection: a non-dict include is
      left as it is; a dict include only gains keys at its end, each holding
      False, and each value it had grows in the same way. */
  predicate Grows(a: Columns, b: Columns)
    decreases a
  {
    if a.Tree? then
      b.Tree? && Keys(a.entries) <= Keys(b.entries) &&
      (forall i :: 0 <= i < |a.entries| ==> Grows(a.entries[i].1, b.entries[i].1)) &&
      (forall i :: |a.entries| <= i < |b.entries| ==> b.entries[i].1 == Flag(false))
    else b == a
  }

  lemma {:induction false} GrowsRefl(a: Columns)
    ensures Grows(a, a)
    decreases a
  {
    if a.Tree? {
      forall i | 0 <= i < |a.entries| ensures Grows(a.entries[i].1, a.entries[i].1) {
        GrowsRefl(a.entries[i].1);
      }
    }
  }

  lemma {:induction false} GrowsTrans(a: Columns, b: Columns, c: Columns)
    requires Grows(a, b) && Grows(b, c)
    ensures Grows(a, c)
    decreases a
  {
    if a.Tree? {
      forall i | 0 <= i < |a.entries| ensures Grows(a.entries[i].1, c.entries[i].1) {
        GrowsTrans(a.entries[i].1, b.entries[i].1, c.entries[i].1);
      }
      forall i | |a.entries| <= i < |c.entries| ensures c.entries[i].1 == Flag(false) {
        if i < |b.entries| {
          assert b.entries[i].1 == Flag(false);
          assert Grows(b.entries[i].1, c.entries[i].1);
        }
      }
    }
  }

  /** `to_deep` grows the include: `setdefault` appends False for a new key. */
  lemma ToDeepGrows(incl: Columns, excl: Columns, key: string)
    ensures Grows(incl, ToDeep(incl, excl, key).0)
  {
    GrowsRefl(incl);
    if incl.Tree? && key !in Keys(incl.entries) {
      PutNew(incl.entries, key, Flag(false));
      var after := ToDeep(incl, excl, key).0;
      assert after.entries == incl.entries + [(key, Flag(false))];
      assert Keys(incl.entries) <= Keys(after.entries);
      forall i | 0 <= i < |incl.entries| ensures Grows(incl.entries[i].1, after.entries[i].1) {
        assert after.entries[i] == incl.entries[i];
        GrowsRefl(incl.entries[i].1);
      }
    }
  }

  /** Writing a grown value back under an existing key keeps the growth. */
  lemma GrowsPut(a: Columns, after: Columns, key: string, x: Columns)
    requires Grows(a, after) && after.Tree? && key in Keys(after.entries)
    requires Grows(Get(after.entries, key), x)
    ensures Grows(a, Tree(Put(after.entries, key, x)))
  {
    var d := after.entries;
    var j := IndexOf(d, key);
    PutExisting(d, key, x, j);
    var e := Put(d, key, x);
    assert Keys(e) == Keys(d);
    forall i | 0 <= i < |a.entries| ensures Grows(a.entries[i].1, e[i].1) {
      if i == j {
        GrowsTrans(a.entries[i].1, d[i].1, x);
      } else {
        assert e[i] == d[i];
      }
    }
    forall i | |a.entries| <= i < |e| ensures e[i].1 == Flag(false) {
      if i == j {
        assert d[j].1 == Flag(false);
      } else {
        assert e[i] == d[i];
      }
    }
  }

  /** What a call may do to the shared default options: keep every entry,
      and add nothing but `execute_queries` set to False. */
  predicate Latches(d: Dict<bool>, e: Dict<bool>)
  {
    (forall k :: k in Keys(d) ==> k in Keys(e) && Get(e, k) == Get(d, k)) &&
    (forall k :: k in Keys(e) && k !in Keys(d) ==> k == "execute_queries" && !Get(e, k))
  }

  /** `to_dict` changes the include projection and the shared default
      options only as `Grows` and `Latches` allow. */
  lemma {:induction false} FrameToDict(reg: Registry, v: Value, opts: Options, incl: Columns, excl: Columns, defaults: Dict<bool>)
    ensures Grows(incl, ToDictSpec(reg, v, opts, incl, excl, defaults).incl)
    ensures Latches(defaults, ToDictSpec(reg, v, opts, incl, excl, defaults).defaults)
    decreases Nesting(v), 3, 0
  {
    GrowsRefl(incl);
    if incl != Unset && excl != Unset {
    } else {
      match v
      case Map(entries) => FrameMap(reg, v, |entries|, opts, incl, excl, defaults);
      case List(items) => FrameList(reg, v, |items|, opts, incl, excl, defaults);
      case LazyQuery(items) => FrameList(reg, v, |items|, opts, incl, excl, defaults);
      case Instance(kind, _, _) =>
        if incl.Tree? {
          FramePick(reg, v, Keys(incl.entries), |incl.entries|, incl, excl, defaults);
        } else if kind in reg {
          FrameRecord(reg, v, reg[kind], |Candidates(reg[kind])|, opts, incl, excl, defaults);
        }
      case _ =>
    }
  }

  lemma {:induction false} FrameEmit(reg: Registry, v: Value, key: string, node: Value, opts: Options, excl: Columns, prev: Run<Dict<Plain>>)
    requires prev.out.Ok? && Nesting(node) < Nesting(v)
    ensures Grows(prev.incl, Emit(reg, v, key, node, opts, excl, prev).incl)
    ensures Latches(prev.defaults, Emit(reg, v, key, node, opts, excl, prev).defaults)
    decreases Nesting(v), 0, 0
  {
    var (after, scope) := ToDeep(prev.incl, excl, key);
    var nested := ToDictSpec(reg, node, opts, scope.incl, scope.excl, prev.defaults);
    FrameToDict(reg, node, opts, scope.incl, scope.excl, prev.defaults);
    ToDeepGrows(prev.incl, excl, key);
    assert Emit(reg, v, key, node, opts, excl, prev).incl == WriteBack(after, excl, key, nested.incl);
    if after.Tree? && !(excl.Tree? && key in Keys(excl.entries)) {
      assert scope.incl == Get(after.entries, key);
      GrowsPut(prev.incl, after, key, nested.incl);
    }
  }

  lemma {:induction false} FrameMap(reg: Registry, v: Value, n: nat, opts: Options, incl: Columns, excl: Columns, defaults: Dict<bool>)
    requires v.Map? && n <= |v.entries|
    ensures Grows(incl, MapFirst(reg, v, n, opts, incl, excl, defaults).incl)
    ensures Latches(defaults, MapFirst(reg, v, n, opts, incl, excl, defaults).defaults)
    decreases Nesting(v), 2, n
  {
    if n == 0 {
      GrowsRefl(incl);
    } else {
      var j := n - 1;
      FrameMap(reg, v, j, opts, incl, excl, defaults);
      var prev := MapFirst(reg, v, j, opts, incl, excl, defaults);
      assert n == j + 1;
      MapFirstStep(reg, v, j, opts, incl, excl, defaults);
      if prev.out.Ok? {
        FrameEmit(reg, v, v.entries[j].0, v.entries[j].1, opts, excl, prev);
        GrowsTrans(incl, prev.incl, MapFirst(reg, v, n, opts, incl, excl, defaults).incl);
      }
    }
  }

  lemma {:induction false} FrameList(reg: Registry, v: Value, n: nat, opts: Options, incl: Columns, excl: Columns, defaults: Dict<bool>)
    requires (v.List? || v.LazyQuery?) && n <= |v.items|
    ensures Grows(incl, ListFirst(reg, v, n, opts, incl, excl, defaults).incl)
    ensures Latches(defaults, ListFirst(reg, v, n, opts, incl, excl, defaults).defaults)
    decreases Nesting(v), 2, n
  {
    if n == 0 {
      GrowsRefl(incl);
    } else {
      var j := n - 1;
      FrameList(reg, v, j, opts, incl, excl, defaults);
      var prev := ListFirst(reg, v, j, opts, incl, excl, defaults);
      ListFirstStep(reg, v, j, opts, incl, excl, defaults);
      if prev.out.Ok? {
        var nested := ToDictSpec(reg, v.items[j], opts, prev.incl, excl, prev.defaults);
        FrameToDict(reg, v.items[j], opts, prev.incl, excl, prev.defaults);
        assert ListFirst(reg, v, n, opts, incl, excl, defaults).incl == nested.incl;
        GrowsTrans(incl, prev.incl, nested.incl);
      }
    }
  }

  lemma {:induction false} FramePick(reg: Registry, v: Value, cols: seq<string>, n: nat, incl: Columns, excl: Columns, defaults: Dict<bool>)
    requires v.Instance? && n <= |cols|
    ensures Grows(incl, PickFirst(reg, v, cols, n, incl, excl, defaults).incl)
    ensures Latches(defaults, PickFirst(reg, v, cols, n, incl, excl, defaults).defaults)
    decreases Nesting(v), 2, n
  {
    if n == 0 {
      GrowsRefl(incl);
    } else {
      var j := n - 1;
      FramePick(reg, v, cols, j, incl, excl, defaults);
      var prev := PickFirst(reg, v, cols, j, incl, excl, defaults);
      PickFirstStep(reg, v, cols, j, incl, excl, defaults);
      if prev.out.Ok? {
        FramePickAt(reg, v, cols[j], excl, prev);
        GrowsTrans(incl, prev.incl, PickAt(reg, v, cols[j], excl, prev).incl);
      }
    }
  }

  lemma {:induction false} FramePickAt(reg: Registry, v: Value, column: string, excl: Columns, prev: Run<Dict<Plain>>)
    requires v.Instance? && prev.out.Ok?
    ensures Grows(prev.incl, PickAt(reg, v, column, excl, prev).incl)
    ensures Latches(prev.defaults, PickAt(reg, v, column, excl, prev).defaults)
    decreases Nesting(v), 1, 0
  {
    if column in Keys(v.entries) {
      assert Nesting(v.entries[IndexOf(v.entries, column)].1) < Nesting(v);
      FrameEmit(reg, v, column, Get(v.entries, column), Shared, excl, prev);
    } else {
      GrowsRefl(prev.incl);
    }
  }

  lemma {:induction false} FrameRecord(reg: Registry, v: Value, m: Model, n: nat, opts: Options, incl: Columns, excl: Columns, defaults: Dict<bool>)
    requires v.Instance? && n <= |Candidates(m)|
    ensures Grows(incl, RecordFirst(reg, v, m, n, opts, incl, excl, defaults).incl)
    ensures Latches(defaults, RecordFirst(reg, v, m, n, opts, incl, excl, defaults).defaults)
    decreases Nesting(v), 2, n
  {
    if n == 0 {
      GrowsRefl(incl);
    } else {
      var j := n - 1;
      FrameRecord(reg, v, m, j, opts, incl, excl, defaults);
      var prev := RecordFirst(reg, v, m, j, opts, incl, excl, defaults);
      RecordFirstStep(reg, v, m, j, opts, incl, excl, defaults);
      if prev.out.Ok? {
        FrameRecordAt(reg, v, m, Candidates(m)[j], opts, excl, prev);
        GrowsTrans(incl, prev.incl, RecordFirst(reg, v, m, n, opts, incl, excl, defaults).incl);
      }
    }
  }

  lemma {:induction false} FrameRecordAt(reg: Registry, v: Value, m: Model, column: string, opts: Options, excl: Columns, prev: Run<Dict<Plain>>)
    requires v.Instance? && prev.out.Ok?
    ensures Grows(prev.incl, RecordAt(reg, v, m, column, opts, excl, prev).incl)
    ensures Latches(prev.defaults, RecordAt(reg, v, m, column, opts, excl, prev).defaults)
    decreases Nesting(v), 1, 0
  {
    GrowsRefl(prev.incl);
    if excl != Unset && !excl.Tree? {
    } else if Skipped(v, m, column, opts, excl, prev) {
    } else if column in Keys(v.entries) {
      assert Nesting(v.entries[IndexOf(v.entries, column)].1) < Nesting(v);
      FrameFetched(reg, v, column, Get(v.entries, column), opts, excl, prev);
    }
  }

  lemma {:induction false} FrameFetched(reg: Registry, v: Value, column: string, node: Value, opts: Options, excl: Columns, prev: Run<Dict<Plain>>)
    requires prev.out.Ok? && Nesting(node) < Nesting(v)
    ensures Grows(prev.incl, Fetched(reg, v, column, node, opts, excl, prev).incl)
    ensures Latches(prev.defaults, Fetched(reg, v, column, node, opts, excl, prev).defaults)
    decreases Nesting(v), 0, 1
  {
    GrowsRefl(prev.incl);
    if prev.incl == Flag(false) && node.LazyQuery? {
    } else if node.LazyQuery? {
      var index := OptionIndex(opts, prev.defaults, "execute_queries");
      if index.Ok? {
        var (execute, defaults) := index.value;
        assert Latches(prev.defaults, defaults);
        ItemsNestingSame(node.items, 0);
        FrameEmit(reg, v, column, if execute then List(node.items) else node, Shared, excl, Run(prev.out, prev.incl, defaults));
      }
    } else {
      FrameEmit(reg, v, column, node, Shared, excl, prev);
    }
  }

  /** Both an include and an exclude raise ValueError before the value is
      looked at, and change nothing. */
  lemma ConflictFirst(reg: Registry, v: Value, opts: Options, incl: Columns, excl: Columns, defaults: Dict<bool>)
    requires incl != Unset && excl != Unset
    ensures ToDictSpec(reg, v, opts, incl, excl, defaults) == Run(Err(ValueError), incl, defaults)
  {
  }

  /** None, base-type values, temporal values, geometries and UUIDs come out
      as themselves or as their rendering, whatever the scope. */
  lemma LeavesConverted(reg: Registry, v: Value, opts: Options, incl: Columns, excl: Columns, defaults: Dict<bool>)
    requires incl == Unset || excl == Unset
    ensures var r := ToDictSpec(reg, v, opts, incl, excl, defaults);
      (v.Null? ==> r.out == Ok(PNull)) &&
      (v.Prim? ==> r.out == Ok(PScalar(v.p))) &&
      (v.Temporal? ==> r.out == Ok(PText(v.iso))) &&
      (v.Geo? ==> r.out == Ok(PGeoMapping(v.element))) &&
      (v.Uuid? ==> r.out == Ok(PText(v.text))) &&
      (v.Null? || v.Prim? || v.Temporal? || v.Geo? || v.Uuid? ==> r.incl == incl && r.defaults == defaults)
  {
  }

  /** An object of a class the registry does not map, without a dict
      include, raises DictConvertionError. */
  lemma UnmappedFails(reg: Registry, v: Value, opts: Options, incl: Columns, excl: Columns, defaults: Dict<bool>)
    requires incl == Unset || excl == Unset
    requires v.Instance? && v.kind !in reg && !incl.Tree?
    ensures ToDictSpec(reg, v, opts, incl, excl, defaults).out == Err(DictConvertionError)
  {
  }

  /** The `i`-th item of a dict, converted with the scope `to_deep` gives
      its key once the items before it have been converted. */
  predicate MapItemConverted(reg: Registry, v: Value, i: nat, opts: Options, incl: Columns, excl: Columns,
                             defaults: Dict<bool>, out: Plain)
    requires v.Map? && i < |v.entries|
  {
    var before := MapFirst(reg, v, i, opts, incl, excl, defaults);
    var scope := ToDeep(before.incl, excl, v.entries[i].0).1;
    ToDictSpec(reg, v.entries[i].1, opts, scope.incl, scope.excl, before.defaults).out == Ok(out)
  }

  /** A converted dict has exactly the keys of the original, in order, and
      under each key the value converted with the caller's options and the
      scope `to_deep` gives that key. */
  lemma MapKeysKept(reg: Registry, v: Value, opts: Options, incl: Columns, excl: Columns, defaults: Dict<bool>)
    requires incl == Unset || excl == Unset
    requires v.Map? && Distinct(Keys(v.entries))
    ensures var r := ToDictSpec(reg, v, opts, incl, excl, defaults);
      r.out.Ok? ==>
        r.out.value.PDict? && Keys(r.out.value.entries) == Keys(v.entries) &&
        forall i :: 0 <= i < |v.entries| ==> MapItemConverted(reg, v, i, opts, incl, excl, defaults, r.out.value.entries[i].1)
  {
    MapFirstShape(reg, v, |v.entries|, opts, incl, excl, defaults);
    assert v.entries[..|v.entries|] == v.entries;
  }

  lemma MapFirstShape(reg: Registry, v: Value, n: nat, opts: Options, incl: Columns, excl: Columns, defaults: Dict<bool>)
    requires v.Map? && n <= |v.entries| && Distinct(Keys(v.entries))
    ensures var r := MapFirst(reg, v, n, opts, incl, excl, defaults);
      r.out.Ok? ==>
        Keys(r.out.value) == Keys(v.entries[..n]) &&
        forall i :: 0 <= i < n ==> MapItemConverted(reg, v, i, opts, incl, excl, defaults, r.out.value[i].1)
  {
    MapFirstKeys(reg, v, n, opts, incl, excl, defaults);
    MapFirstItems(reg, v, n, opts, incl, excl, defaults);
  }

  lemma {:induction false} MapFirstKeys(reg: Registry, v: Value, n: nat, opts: Options, incl: Columns, excl: Columns, defaults: Dict<bool>)
    requires v.Map? && n <= |v.entries| && Distinct(Keys(v.entries))
    ensures var r := MapFirst(reg, v, n, opts, incl, excl, defaults);
      r.out.Ok? ==> Keys(r.out.value) == Keys(v.entries[..n])
  {
    if n > 0 {
      var j := n - 1;
      MapFirstKeys(reg, v, j, opts, incl, excl, defaults);
      var prev := MapFirst(reg, v, j, opts, incl, excl, defaults);
      assert n == j + 1;
      MapFirstStep(reg, v, j, opts, incl, excl, defaults);
      if prev.out.Ok? {
        var (key, node) := v.entries[j];
        assert key !in Keys(prev.out.value) by {
          DistinctFresh(v.entries, j);
        }
        EmitAppends(reg, v, key, node, opts, excl, prev);
        KeysSnoc(v.entries, n);
      }
    }
  }

  /** Every item of the dict branch after `n` items, when it converts, holds
      the conversion of the matching original value. */
  predicate MapItemsConverted(reg: Registry, v: Value, n: nat, opts: Options, incl: Columns, excl: Columns, defaults: Dict<bool>)
    requires v.Map? && n <= |v.entries|
  {
    var r := MapFirst(reg, v, n, opts, incl, excl, defaults);
    r.out.Ok? ==>
      |r.out.value| == n &&
      forall i :: 0 <= i < n ==> MapItemConverted(reg, v, i, opts, incl, excl, defaults, r.out.value[i].1)
  }

  lemma {:induction false} MapFirstItems(reg: Registry, v: Value, n: nat, opts: Options, incl: Columns, excl: Columns, defaults: Dict<bool>)
    requires v.Map? && n <= |v.entries| && Distinct(Keys(v.entries))
    ensures MapItemsConverted(reg, v, n, opts, incl, excl, defaults)
  {
    if n > 0 {
      var j := n - 1;
      MapFirstItems(reg, v, j, opts, incl, excl, defaults);
      MapItemsGrow(reg, v, j, opts, incl, excl, defaults);
    }
  }

  /** The items converted so far stay converted after one more item, which
      holds its own conversion. */
  lemma MapItemsGrow(reg: Registry, v: Value, j: nat, opts: Options, incl: Columns, excl: Columns, defaults: Dict<bool>)
    requires v.Map? && j < |v.entries| && Distinct(Keys(v.entries))
    requires MapItemsConverted(reg, v, j, opts, incl, excl, defaults)
    ensures MapItemsConverted(reg, v, j + 1, opts, incl, excl, defaults)
  {
    MapFirstAppends(reg, v, j, opts, incl, excl, defaults);
    var prev := MapFirst(reg, v, j, opts, incl, excl, defaults);
    var r := MapFirst(reg, v, j + 1, opts, incl, excl, defaults);
    if r.out.Ok? {
      forall i | 0 <= i < j
        ensures MapItemConverted(reg, v, i, opts, incl, excl, defaults, r.out.value[i].1)
      {
        MapItemKept(reg, v, i, opts, incl, excl, defaults, prev.out.value, r.out.value);
      }
    }
  }

  /** One more item of a dict without repeats, when it converts, extends
      what was built before it by one entry holding its own conversion. */
  lemma MapFirstAppends(reg: Registry, v: Value, i: nat, opts: Options, incl: Columns, excl: Columns, defaults: Dict<bool>)
    requires v.Map? && i < |v.entries| && Distinct(Keys(v.entries))
    ensures var prev := MapFirst(reg, v, i, opts, incl, excl, defaults);
      var r := MapFirst(reg, v, i + 1, opts, incl, excl, defaults);
      r.out.Ok? ==>
        prev.out.Ok? && prev.out.value <= r.out.value && |r.out.value| == i + 1 &&
        MapItemConverted(reg, v, i, opts, incl, excl, defaults, r.out.value[i].1)
  {
    MapFirstStep(reg, v, i, opts, incl, excl, defaults);
    MapFirstFresh(reg, v, i, opts, incl, excl, defaults);
    var prev := MapFirst(reg, v, i, opts, incl, excl, defaults);
    if prev.out.Ok? {
      EmitAppends(reg, v, v.entries[i].0, v.entries[i].1, opts, excl, prev);
    }
  }

  /** The next key of a dict without repeats is not among those converted so far. */
  lemma MapFirstFresh(reg: Registry, v: Value, i: nat, opts: Options, incl: Columns, excl: Columns, defaults: Dict<bool>)
    requires v.Map? && i < |v.entries| && Distinct(Keys(v.entries))
    ensures var prev := MapFirst(reg, v, i, opts, incl, excl, defaults);
      prev.out.Ok? ==> |prev.out.value| == i && v.entries[i].0 !in Keys(prev.out.value)
  {
    MapFirstKeys(reg, v, i, opts, incl, excl, defaults);
    DistinctFresh(v.entries, i);
  }

  /** An item converted at the head of a dict stays so in every dict that extends it. */
  lemma MapItemKept(reg: Registry, v: Value, i: nat, opts: Options, incl: Columns, excl: Columns, defaults: Dict<bool>,
                    out: Dict<Plain>, out': Dict<Plain>)
    requires v.Map? && i < |v.entries| && i < |out| && out <= out'
    requires MapItemConverted(reg, v, i, opts, incl, excl, defaults, out[i].1)
    ensures MapItemConverted(reg, v, i, opts, incl, excl, defaults, out'[i].1)
  {
    assert out'[i] == out[i];
  }

  /** The dict branch after one more item: an error so far stays, otherwise the item is emitted. */
  lemma MapFirstStep(reg: Registry, v: Value, i: nat, opts: Options, incl: Columns, excl: Columns, defaults: Dict<bool>)
    requires v.Map? && i < |v.entries|
    ensures Nesting(v.entries[i].1) < Nesting(v)
    ensures var prev := MapFirst(reg, v, i, opts, incl, excl, defaults);
      MapFirst(reg, v, i + 1, opts, incl, excl, defaults) ==
      if prev.out.Err? then prev else Emit(reg, v, v.entries[i].0, v.entries[i].1, opts, excl, prev)
  {
    assert Nesting(v.entries[i].1) < Nesting(v);
  }

  /** Storing a value under a new key appends that key with the value
      converted under the scope `to_deep` gives it, and keeps the others. */
  lemma EmitAppends(reg: Registry, v: Value, key: string, node: Value, opts: Options, excl: Columns, prev: Run<Dict<Plain>>)
    requires prev.out.Ok? && Nesting(node) < Nesting(v) && key !in Keys(prev.out.value)
    ensures var r := Emit(reg, v, key, node, opts, excl, prev);
      var scope := ToDeep(prev.incl, excl, key).1;
      var nested := ToDictSpec(reg, node, opts, scope.incl, scope.excl, prev.defaults);
      (r.out.Ok? <==> nested.out.Ok?) &&
      (r.out.Ok? ==>
        r.out.value == prev.out.value + [(key, nested.out.value)] &&
        Keys(r.out.value) == Keys(prev.out.value) + [key] && prev.out.value <= r.out.value)
  {
    var deep := ToDeep(prev.incl, excl, key);
    var nested := ToDictSpec(reg, node, opts, deep.1.incl, deep.1.excl, prev.defaults);
    assert Emit(reg, v, key, node, opts, excl, prev) == Stored(prev, excl, key, deep.0, nested);
    StoredAppends(prev, excl, key, deep.0, nested);
  }

  /** A converted value stored under a new key is appended after the others. */
  lemma StoredAppends(prev: Run<Dict<Plain>>, excl: Columns, key: string, after: Columns, nested: Run<Plain>)
    requires prev.out.Ok? && key !in Keys(prev.out.value)
    ensures var r := Stored(prev, excl, key, after, nested);
      (r.out.Ok? <==> nested.out.Ok?) &&
      (r.out.Ok? ==>
        r.out.value == prev.out.value + [(key, nested.out.value)] &&
        Keys(r.out.value) == Keys(prev.out.value) + [key] && prev.out.value <= r.out.value)
  {
    if nested.out.Ok? {
      PutNew(prev.out.value, key, nested.out.value);
    }
  }


  /** A converted list is as long as the original, and with an include that
      is not a dict every element is converted with the caller's include
      and exclude: only the shared default options may differ between them. */
  lemma ListShape(reg: Registry, v: Value, opts: Options, incl: Columns, excl: Columns, defaults: Dict<bool>)
    requires incl == Unset || excl == Unset
    requires v.List? || v.LazyQuery?
    ensures var r := ToDictSpec(reg, v, opts, incl, excl, defaults);
      r.out.Ok? ==>
        r.out.value.PList? && |r.out.value.items| == |v.items| &&
        (!incl.Tree? ==> forall i :: 0 <= i < |v.items| ==>
           ToDictSpec(reg, v.items[i], opts, incl, excl, ListFirst(reg, v, i, opts, incl, excl, defaults).defaults).out == Ok(r.out.value.items[i]))
  {
    ListFirstShape(reg, v, |v.items|, opts, incl, excl, defaults);
    if !incl.Tree? {
      ListFirstScope(reg, v, |v.items|, opts, incl, excl, defaults);
    }
  }

  lemma {:induction false} ListFirstShape(reg: Registry, v: Value, n: nat, opts: Options, incl: Columns, excl: Columns, defaults: Dict<bool>)
    requires (v.List? || v.LazyQuery?) && n <= |v.items|
    ensures var r := ListFirst(reg, v, n, opts, incl, excl, defaults);
      r.out.Ok? ==>
        |r.out.value| == n &&
        forall i :: 0 <= i < n ==>
          var before := ListFirst(reg, v, i, opts, incl, excl, defaults);
          ToDictSpec(reg, v.items[i], opts, before.incl, excl, before.defaults).out == Ok(r.out.value[i])
  {
    if n > 0 {
      var j := n - 1;
      ListFirstShape(reg, v, j, opts, incl, excl, defaults);
      ListFirstStep(reg, v, j, opts, incl, excl, defaults);
    }
  }

  /** A non-dict include is the same for every element of a list. */
  lemma {:induction false} ListFirstScope(reg: Registry, v: Value, n: nat, opts: Options, incl: Columns, excl: Columns, defaults: Dict<bool>)
    requires (v.List? || v.LazyQuery?) && n <= |v.items| && !incl.Tree?
    ensures forall i :: 0 <= i <= n ==> ListFirst(reg, v, i, opts, incl, excl, defaults).incl == incl
  {
    if n > 0 {
      var j := n - 1;
      ListFirstScope(reg, v, j, opts, incl, excl, defaults);
      var prev := ListFirst(reg, v, j, opts, incl, excl, defaults);
      ListFirstStep(reg, v, j, opts, incl, excl, defaults);
      if prev.out.Ok? {
        FrameToDict(reg, v.items[j], opts, prev.incl, excl, prev.defaults);
      }
    }
  }

  /** The list branch after one more element: an error so far stays,
      otherwise the element is converted with the include and defaults
      left by those before it. */
  lemma ListFirstStep(reg: Registry, v: Value, i: nat, opts: Options, incl: Columns, excl: Columns, defaults: Dict<bool>)
    requires (v.List? || v.LazyQuery?) && i < |v.items|
    ensures var prev := ListFirst(reg, v, i, opts, incl, excl, defaults);
      ListFirst(reg, v, i + 1, opts, incl, excl, defaults) == if prev.out.Err? then prev else ListAt(reg, v, i, opts, excl, prev)
  {
  }

  /** A candidate `to_dict` passes over on a mapped instance: one the
      `continue` guards name, or a lazy query under an include of False,
      which is neither fetched nor stored. */
  predicate Passed(v: Value, m: Model, column: string, opts: Options, excl: Columns, prev: Run<Dict<Plain>>)
    requires v.Instance? && prev.out.Ok?
  {
    Skipped(v, m, column, opts, excl, prev) ||
    (column in Keys(v.entries) && prev.incl == Flag(false) && Get(v.entries, column).LazyQuery?)
  }

  /** The value stored for an attribute: a lazy query reads
      `execute_queries` from the options (KeyError from a caller's dict
      without it) and is replaced by its rows when that is True; the result
      is converted with the shared default options and the scope `to_deep`
      gives the attribute. */
  function AttributeConverted(reg: Registry, node: Value, column: string, opts: Options, excl: Columns, prev: Run<Dict<Plain>>): Result<Plain, Error>
  {
    var scope := ToDeep(prev.incl, excl, column).1;
    if node.LazyQuery? then
      match OptionIndex(opts, prev.defaults, "execute_queries")
      case Err(e) => Err(e)
      case Ok((execute, defaults)) =>
        ToDictSpec(reg, if execute then List(node.items) else node, Shared, scope.incl, scope.excl, defaults).out
    else ToDictSpec(reg, node, Shared, scope.incl, scope.excl, prev.defaults).out
  }

  /** What the walk over candidates left for the `i`-th candidate in the
      final dict `out`: the walk had not failed before it, everything
      stored before it is still at the head of `out`, and unless it was
      passed over, the object has the attribute and `out` holds its
      converted value under its name. */
  predicate CandidateKept(reg: Registry, v: Value, m: Model, i: nat, opts: Options, incl: Columns, excl: Columns,
                          defaults: Dict<bool>, out: Dict<Plain>)
    requires v.Instance? && i < |Candidates(m)|
  {
    var before := RecordFirst(reg, v, m, i, opts, incl, excl, defaults);
    var column := Candidates(m)[i];
    before.out.Ok? && before.out.value <= out &&
    (!Passed(v, m, column, opts, excl, before) ==>
      column in Keys(v.entries) && column in Keys(out) &&
      AttributeConverted(reg, Get(v.entries, column), column, opts, excl, before) == Ok(Get(out, column)))
  }

  /** A mapped instance without a dict include yields a dict whose names
      are candidates of its class, each once, none that the exclude maps
      to True, and with an include of False only columns and hybrids; and
      conversely every candidate not passed over is in it with its
      converted value. The include is left as it is. */
  lemma RecordAdmits(reg: Registry, v: Value, opts: Options, incl: Columns, excl: Columns, defaults: Dict<bool>)
    requires incl == Unset || excl == Unset
    requires v.Instance? && v.kind in reg && !incl.Tree?
    ensures var r := ToDictSpec(reg, v, opts, incl, excl, defaults);
      var m := reg[v.kind];
      r.incl == incl &&
      (r.out.Ok? ==>
        r.out.value.PDict? && Distinct(Keys(r.out.value.entries)) &&
        forall k :: k in Keys(r.out.value.entries) ==>
          k in Candidates(m) && !Excluded(excl, k) && (incl == Flag(false) ==> k in m.columns || k in m.hybrids))
    ensures var r := ToDictSpec(reg, v, opts, incl, excl, defaults);
      var m := reg[v.kind];
      r.out.Ok? ==> forall i :: 0 <= i < |Candidates(m)| ==>
        CandidateKept(reg, v, m, i, opts, incl, excl, defaults, r.out.value.entries)
  {
    var m := reg[v.kind];
    RecordFirstAdmits(reg, v, m, |Candidates(m)|, opts, incl, excl, defaults);
    RecordFirstKeeps(reg, v, m, |Candidates(m)|, opts, incl, excl, defaults);
    assert Candidates(m)[..|Candidates(m)|] == Candidates(m);
  }

  lemma {:induction false} RecordFirstAdmits(reg: Registry, v: Value, m: Model, n: nat, opts: Options, incl: Columns, excl: Columns, defaults: Dict<bool>)
    requires v.Instance? && n <= |Candidates(m)| && !incl.Tree?
    ensures var r := RecordFirst(reg, v, m, n, opts, incl, excl, defaults);
      r.incl == incl &&
      (r.out.Ok? ==>
        Distinct(Keys(r.out.value)) &&
        forall k :: k in Keys(r.out.value) ==>
          k in Candidates(m)[..n] && !Excluded(excl, k) && (incl == Flag(false) ==> k in m.columns || k in m.hybrids))
  {
    if n > 0 {
      var j := n - 1;
      RecordFirstAdmits(reg, v, m, j, opts, incl, excl, defaults);
      var prev := RecordFirst(reg, v, m, j, opts, incl, excl, defaults);
      RecordFirstStep(reg, v, m, j, opts, incl, excl, defaults);
      if prev.out.Ok? {
        var column := Candidates(m)[j];
        assert Candidates(m)[..n] == Candidates(m)[..j] + [column];
        RecordAtAdmits(reg, v, m, column, opts, excl, prev);
      }
    }
  }

  /** Every candidate among the first `n` keeps its part in the dict built
      after walking them, when that walk succeeds. */
  predicate CandidatesKept(reg: Registry, v: Value, m: Model, n: nat, opts: Options, incl: Columns, excl: Columns, defaults: Dict<bool>)
    requires v.Instance? && n <= |Candidates(m)|
  {
    var r := RecordFirst(reg, v, m, n, opts, incl, excl, defaults);
    r.out.Ok? ==> forall i :: 0 <= i < n ==> CandidateKept(reg, v, m, i, opts, incl, excl, defaults, r.out.value)
  }

  lemma {:induction false} RecordFirstKeeps(reg: Registry, v: Value, m: Model, n: nat, opts: Options, incl: Columns, excl: Columns, defaults: Dict<bool>)
    requires v.Instance? && n <= |Candidates(m)| && !incl.Tree?
    ensures CandidatesKept(reg, v, m, n, opts, incl, excl, defaults)
  {
    if n > 0 {
      var j := n - 1;
      RecordFirstKeeps(reg, v, m, j, opts, incl, excl, defaults);
      CandidatesKeptGrow(reg, v, m, j, opts, incl, excl, defaults);
    }
  }

  /** What the first `j` candidates left stays in the dict after one more
      candidate, which keeps its own part there. */
  lemma CandidatesKeptGrow(reg: Registry, v: Value, m: Model, j: nat, opts: Options, incl: Columns, excl: Columns, defaults: Dict<bool>)
    requires v.Instance? && j < |Candidates(m)| && !incl.Tree?
    requires CandidatesKept(reg, v, m, j, opts, incl, excl, defaults)
    ensures CandidatesKept(reg, v, m, j + 1, opts, incl, excl, defaults)
  {
    var prev := RecordFirst(reg, v, m, j, opts, incl, excl, defaults);
    var r := RecordFirst(reg, v, m, j + 1, opts, incl, excl, defaults);
    RecordFirstStep(reg, v, m, j, opts, incl, excl, defaults);
    if r.out.Ok? {
      RecordFirstAdmits(reg, v, m, j, opts, incl, excl, defaults);
      RecordAtAdmits(reg, v, m, Candidates(m)[j], opts, excl, prev);
      forall i | 0 <= i < j
        ensures CandidateKept(reg, v, m, i, opts, incl, excl, defaults, r.out.value)
      {
        CandidateKeptGrows(reg, v, m, i, opts, incl, excl, defaults, prev.out.value, r.out.value);
      }
    }
  }

  /** The walk over candidates after one more: an error so far stays,
      otherwise the candidate is handled. */
  lemma RecordFirstStep(reg: Registry, v: Value, m: Model, i: nat, opts: Options, incl: Columns, excl: Columns, defaults: Dict<bool>)
    requires v.Instance? && i < |Candidates(m)|
    ensures var prev := RecordFirst(reg, v, m, i, opts, incl, excl, defaults);
      RecordFirst(reg, v, m, i + 1, opts, incl, excl, defaults) ==
      if prev.out.Err? then prev else RecordAt(reg, v, m, Candidates(m)[i], opts, excl, prev)
  {
  }

  /** What a candidate left in a dict stays in every dict that extends it. */
  lemma CandidateKeptGrows(reg: Registry, v: Value, m: Model, i: nat, opts: Options, incl: Columns, excl: Columns,
                           defaults: Dict<bool>, out: Dict<Plain>, out': Dict<Plain>)
    requires v.Instance? && i < |Candidates(m)| && out <= out'
    requires CandidateKept(reg, v, m, i, opts, incl, excl, defaults, out)
    ensures CandidateKept(reg, v, m, i, opts, incl, excl, defaults, out')
  {
    var before := RecordFirst(reg, v, m, i, opts, incl, excl, defaults);
    var column := Candidates(m)[i];
    if !Passed(v, m, column, opts, excl, before) {
      GetPrefix(out, out', column);
    }
  }

  /** One candidate name: with an exclude that is neither None nor a dict
      the walk raises TypeError; a candidate passed over leaves everything
      as it was; any other is read with `getattr` (AttributeError when the
      object lacks it) and its converted value is appended under its name,
      which is new, not excluded, and with an include of False a column or
      a hybrid. */
  lemma RecordAtAdmits(reg: Registry, v: Value, m: Model, column: string, opts: Options, excl: Columns, prev: Run<Dict<Plain>>)
    requires v.Instance? && prev.out.Ok? && !prev.incl.Tree?
    ensures var r := RecordAt(reg, v, m, column, opts, excl, prev);
      r.incl == prev.incl &&
      (r.out.Ok? ==>
        r.out.value == prev.out.value ||
        (column !in Keys(prev.out.value) && !Excluded(excl, column) &&
         (prev.incl == Flag(false) ==> column in m.columns || column in m.hybrids) &&
         Keys(r.out.value) == Keys(prev.out.value) + [column] && prev.out.value <= r.out.value))
    ensures excl != Unset && !excl.Tree? ==> RecordAt(reg, v, m, column, opts, excl, prev).out == Err(TypeError)
    ensures (excl == Unset || excl.Tree?) && Passed(v, m, column, opts, excl, prev) ==>
      RecordAt(reg, v, m, column, opts, excl, prev) == prev
    ensures var r := RecordAt(reg, v, m, column, opts, excl, prev);
      (excl == Unset || excl.Tree?) && !Passed(v, m, column, opts, excl, prev) ==>
        column !in Keys(prev.out.value) && !Excluded(excl, column) &&
        (prev.incl == Flag(false) ==> column in m.columns || column in m.hybrids) &&
        (r.out.Ok? <==>
          column in Keys(v.entries) && AttributeConverted(reg, Get(v.entries, column), column, opts, excl, prev).Ok?) &&
        (r.out.Ok? ==>
          r.out.value == prev.out.value + [(column, AttributeConverted(reg, Get(v.entries, column), column, opts, excl, prev).value)] &&
          Keys(r.out.value) == Keys(prev.out.value) + [column] && prev.out.value <= r.out.value)
  {
    if excl != Unset && !excl.Tree? {
    } else if Skipped(v, m, column, opts, excl, prev) {
    } else if column in Keys(v.entries) {
      assert Nesting(v.entries[IndexOf(v.entries, column)].1) < Nesting(v);
      FetchedAppends(reg, v, column, Get(v.entries, column), opts, excl, prev);
    }
  }

  /** A fetched attribute: a lazy query under an include of False is left
      out; otherwise the attribute's converted value is appended under its
      name. */
  lemma FetchedAppends(reg: Registry, v: Value, column: string, node: Value, opts: Options, excl: Columns, prev: Run<Dict<Plain>>)
    requires prev.out.Ok? && Nesting(node) < Nesting(v) && !prev.incl.Tree? && column !in Keys(prev.out.value)
    ensures var r := Fetched(reg, v, column, node, opts, excl, prev);
      r.incl == prev.incl &&
      (r.out.Ok? ==>
        (r.out.value == prev.out.value ||
         (Keys(r.out.value) == Keys(prev.out.value) + [column] && prev.out.value <= r.out.value)))
    ensures prev.incl == Flag(false) && node.LazyQuery? ==> Fetched(reg, v, column, node, opts, excl, prev) == prev
    ensures var r := Fetched(reg, v, column, node, opts, excl, prev);
      var x := AttributeConverted(reg, node, column, opts, excl, prev);
      !(prev.incl == Flag(false) && node.LazyQuery?) ==>
        (r.out.Ok? <==> x.Ok?) &&
        (r.out.Ok? ==>
          r.out.value == prev.out.value + [(column, x.value)] &&
          Keys(r.out.value) == Keys(prev.out.value) + [column] && prev.out.value <= r.out.value)
  {
    if prev.incl == Flag(false) && node.LazyQuery? {
    } else if node.LazyQuery? {
      var index := OptionIndex(opts, prev.defaults, "execute_queries");
      if index.Ok? {
        var (execute, defaults) := index.value;
        ItemsNestingSame(node.items, 0);
        EmitAppends(reg, v, column, if execute then List(node.items) else node, Shared, excl, Run(prev.out, prev.incl, defaults));
      }
    } else {
      EmitAppends(reg, v, column, node, Shared, excl, prev);
    }
  }

  /** The `i`-th include key of an instance read and converted: the object
      has the attribute, and its value converts, with the shared default
      options and the scope `to_deep` gives that key, to `out`. */
  predicate PickItemConverted(reg: Registry, v: Value, cols: seq<string>, i: nat, incl: Columns, excl: Columns,
                              defaults: Dict<bool>, out: Plain)
    requires v.Instance? && i < |cols|
  {
    var before := PickFirst(reg, v, cols, i, incl, excl, defaults);
    var scope := ToDeep(before.incl, excl, cols[i]).1;
    cols[i] in Keys(v.entries) &&
    ToDictSpec(reg, Get(v.entries, cols[i]), Shared, scope.incl, scope.excl, before.defaults).out == Ok(out)
  }

  /** With a dict include, an instance yields exactly the include's keys, in
      order, each read with `getattr` and converted with the scope `to_deep`
      gives it: a key the object lacks raises AttributeError. */
  lemma PickKeys(reg: Registry, v: Value, opts: Options, incl: Columns, excl: Columns, defaults: Dict<bool>)
    requires incl == Unset || excl == Unset
    requires v.Instance? && incl.Tree? && Distinct(Keys(incl.entries))
    ensures var r := ToDictSpec(reg, v, opts, incl, excl, defaults);
      r.out.Ok? ==> forall k :: k in Keys(incl.entries) ==> k in Keys(v.entries)
    ensures var r := ToDictSpec(reg, v, opts, incl, excl, defaults);
      r.out.Ok? ==> (r.out.value.PDict? && Keys(r.out.value.entries) == Keys(incl.entries) &&
        forall i :: 0 <= i < |incl.entries| ==>
          PickItemConverted(reg, v, Keys(incl.entries), i, incl, excl, defaults, r.out.value.entries[i].1))
  {
    var cols := Keys(incl.entries);
    PickFirstKeys(reg, v, cols, |cols|, incl, excl, defaults);
    assert cols[..|cols|] == cols;
    PickFirstItems(reg, v, cols, |cols|, incl, excl, defaults);
    forall k | k in Keys(incl.entries)
      ensures ToDictSpec(reg, v, opts, incl, excl, defaults).out.Ok? ==> k in Keys(v.entries)
    {
      var j :| 0 <= j < |cols| && cols[j] == k;
      if k !in Keys(v.entries) {
        PickMissingFails(reg, v, cols, |cols|, incl, excl, defaults, j);
      }
    }
  }

  /** Every item of the include branch after `n` keys, when it converts,
      holds the conversion of the matching attribute. */
  predicate PickItemsConverted(reg: Registry, v: Value, cols: seq<string>, n: nat, incl: Columns, excl: Columns, defaults: Dict<bool>)
    requires v.Instance? && n <= |cols|
  {
    var r := PickFirst(reg, v, cols, n, incl, excl, defaults);
    r.out.Ok? ==>
      |r.out.value| == n &&
      forall i :: 0 <= i < n ==> PickItemConverted(reg, v, cols, i, incl, excl, defaults, r.out.value[i].1)
  }

  lemma {:induction false} PickFirstItems(reg: Registry, v: Value, cols: seq<string>, n: nat, incl: Columns, excl: Columns, defaults: Dict<bool>)
    requires v.Instance? && n <= |cols| && Distinct(cols)
    ensures PickItemsConverted(reg, v, cols, n, incl, excl, defaults)
  {
    if n > 0 {
      var j := n - 1;
      PickFirstItems(reg, v, cols, j, incl, excl, defaults);
      PickItemsGrow(reg, v, cols, j, incl, excl, defaults);
    }
  }

  /** The include keys read so far stay converted after one more key,
      which holds its own conversion. */
  lemma PickItemsGrow(reg: Registry, v: Value, cols: seq<string>, j: nat, incl: Columns, excl: Columns, defaults: Dict<bool>)
    requires v.Instance? && j < |cols| && Distinct(cols)
    requires PickItemsConverted(reg, v, cols, j, incl, excl, defaults)
    ensures PickItemsConverted(reg, v, cols, j + 1, incl, excl, defaults)
  {
    PickFirstAppends(reg, v, cols, j, incl, excl, defaults);
    var prev := PickFirst(reg, v, cols, j, incl, excl, defaults);
    var r := PickFirst(reg, v, cols, j + 1, incl, excl, defaults);
    if r.out.Ok? {
      forall i | 0 <= i < j
        ensures PickItemConverted(reg, v, cols, i, incl, excl, defaults, r.out.value[i].1)
      {
        assert r.out.value[i] == prev.out.value[i];
      }
    }
  }

  /** One more include key, when it is read, extends what was built
      before it by one entry holding its own conversion. */
  lemma PickFirstAppends(reg: Registry, v: Value, cols: seq<string>, i: nat, incl: Columns, excl: Columns, defaults: Dict<bool>)
    requires v.Instance? && i < |cols| && Distinct(cols)
    ensures var prev := PickFirst(reg, v, cols, i, incl, excl, defaults);
      var r := PickFirst(reg, v, cols, i + 1, incl, excl, defaults);
      r.out.Ok? ==>
        prev.out.Ok? && prev.out.value <= r.out.value && |r.out.value| == i + 1 &&
        PickItemConverted(reg, v, cols, i, incl, excl, defaults, r.out.value[i].1)
  {
    PickFirstStep(reg, v, cols, i, incl, excl, defaults);
    PickFirstFresh(reg, v, cols, i, incl, excl, defaults);
    var prev := PickFirst(reg, v, cols, i, incl, excl, defaults);
    if prev.out.Ok? {
      PickAtAppends(reg, v, cols[i], excl, prev);
    }
  }

  /** The next include key is not among those read so far. */
  lemma PickFirstFresh(reg: Registry, v: Value, cols: seq<string>, i: nat, incl: Columns, excl: Columns, defaults: Dict<bool>)
    requires v.Instance? && i < |cols| && Distinct(cols)
    ensures var prev := PickFirst(reg, v, cols, i, incl, excl, defaults);
      prev.out.Ok? ==> |prev.out.value| == i && cols[i] !in Keys(prev.out.value)
  {
    PickFirstKeys(reg, v, cols, i, incl, excl, defaults);
    NotBefore(cols, i);
  }

  /** A key read at the head of a dict stays so in every dict that extends it. */
  lemma {:induction false} PickFirstKeys(reg: Registry, v: Value, cols: seq<string>, n: nat, incl: Columns, excl: Columns, defaults: Dict<bool>)
    requires v.Instance? && n <= |cols| && Distinct(cols)
    ensures var r := PickFirst(reg, v, cols, n, incl, excl, defaults);
      r.out.Ok? ==> Keys(r.out.value) == cols[..n]
  {
    if n > 0 {
      var j := n - 1;
      PickFirstKeys(reg, v, cols, j, incl, excl, defaults);
      PickFirstStep(reg, v, cols, j, incl, excl, defaults);
      var prev := PickFirst(reg, v, cols, j, incl, excl, defaults);
      var column := cols[j];
      if prev.out.Ok? {
        assert column !in Keys(prev.out.value) by {
          NotBefore(cols, j);
        }
        PickAtAppends(reg, v, column, excl, prev);
        PrefixSnoc(cols, n);
      }
    }
  }

  /** An include key the object lacks makes the loop fail. */
  lemma {:induction false} PickMissingFails(reg: Registry, v: Value, cols: seq<string>, n: nat, incl: Columns, excl: Columns, defaults: Dict<bool>, j: nat)
    requires v.Instance? && j < n <= |cols| && cols[j] !in Keys(v.entries)
    ensures PickFirst(reg, v, cols, n, incl, excl, defaults).out.Err?
  {
    var m := n - 1;
    if j < m {
      PickMissingFails(reg, v, cols, m, incl, excl, defaults, j);
      PickFirstStep(reg, v, cols, m, incl, excl, defaults);
    } else {
      PickMissingLast(reg, v, cols, j, n, incl, excl, defaults);
    }
  }

  /** The last include key read so far missing from the object makes the loop fail. */
  lemma PickMissingLast(reg: Registry, v: Value, cols: seq<string>, j: nat, n: nat, incl: Columns, excl: Columns, defaults: Dict<bool>)
    requires v.Instance? && n == j + 1 && n <= |cols| && cols[j] !in Keys(v.entries)
    ensures PickFirst(reg, v, cols, n, incl, excl, defaults).out.Err?
  {
    PickFirstStep(reg, v, cols, j, incl, excl, defaults);
    var prev := PickFirst(reg, v, cols, j, incl, excl, defaults);
    if prev.out.Ok? {
      PickAtFound(reg, v, cols[j], excl, prev);
    }
  }

  /** The loop over include keys after one more key: an error so far stays, otherwise the key is read. */
  lemma PickFirstStep(reg: Registry, v: Value, cols: seq<string>, i: nat, incl: Columns, excl: Columns, defaults: Dict<bool>)
    requires v.Instance? && i < |cols|
    ensures var prev := PickFirst(reg, v, cols, i, incl, excl, defaults);
      PickFirst(reg, v, cols, i + 1, incl, excl, defaults) == if prev.out.Err? then prev else PickAt(reg, v, cols[i], excl, prev)
  {
  }

  /** An include key the object lacks raises AttributeError. */
  lemma PickAtFound(reg: Registry, v: Value, column: string, excl: Columns, prev: Run<Dict<Plain>>)
    requires v.Instance? && prev.out.Ok?
    ensures PickAt(reg, v, column, excl, prev).out.Ok? ==> column in Keys(v.entries)
  {
  }

  /** One include key: the attribute must exist, and its value, converted
      with the shared default options and the scope `to_deep` gives the
      key, is appended. */
  lemma PickAtAppends(reg: Registry, v: Value, column: string, excl: Columns, prev: Run<Dict<Plain>>)
    requires v.Instance? && prev.out.Ok? && column !in Keys(prev.out.value)
    ensures var r := PickAt(reg, v, column, excl, prev);
      var scope := ToDeep(prev.incl, excl, column).1;
      (r.out.Ok? <==>
        column in Keys(v.entries) &&
        ToDictSpec(reg, Get(v.entries, column), Shared, scope.incl, scope.excl, prev.defaults).out.Ok?) &&
      (r.out.Ok? ==>
        r.out.value == prev.out.value + [(column, ToDictSpec(reg, Get(v.entries, column), Shared, scope.incl, scope.excl, prev.defaults).out.value)] &&
        Keys(r.out.value) == Keys(prev.out.value) + [column] && prev.out.value <= r.out.value)
  {
    if column in Keys(v.entries) {
      assert Nesting(v.entries[IndexOf(v.entries, column)].1) < Nesting(v);
      EmitAppends(reg, v, column, Get(v.entries, column), Shared, excl, prev);
    }
  }

  /** With a dict include, the options the caller passed play no part: the
      attributes are converted with the shared default options. */
  lemma PickIgnoresOptions(reg: Registry, v: Value, opts: Options, incl: Columns, excl: Columns, defaults: Dict<bool>)
    requires v.Instance? && incl.Tree?
    ensures ToDictSpec(reg, v, opts, incl, excl, defaults) == ToDictSpec(reg, v, Shared, incl, excl, defaults)
  {
  }

  /** The first lazy query met on an unloaded-attribute walk with the shared
      default options is not executed, and it leaves `execute_queries`
      False in those options for every later call. */
  lemma QueryLatch(reg: Registry, v: Value, m: Model, column: string, excl: Columns, prev: Run<Dict<Plain>>)
    requires v.Instance? && prev.out.Ok? && (excl == Unset || excl.Tree?)
    requires "execute_queries" !in Keys(prev.defaults)
    requires !Skipped(v, m, column, Shared, excl, prev) && prev.incl != Flag(false)
    requires column in Keys(v.entries) && Get(v.entries, column).LazyQuery?
    ensures var r := RecordAt(reg, v, m, column, Shared, excl, prev);
      "execute_queries" in Keys(r.defaults) && !OptionGet(Shared, r.defaults, "execute_queries")
  {
    var node := Get(v.entries, column);
    assert Nesting(v.entries[IndexOf(v.entries, column)].1) < Nesting(v);
    assert RecordAt(reg, v, m, column, Shared, excl, prev) == Fetched(reg, v, column, node, Shared, excl, prev);
    FetchedLatch(reg, v, column, node, excl, prev);
  }

  /** The first query met with `execute_queries` missing from the shared
      default options sets it to False there. */
  lemma FetchedLatch(reg: Registry, v: Value, column: string, node: Value, excl: Columns, prev: Run<Dict<Plain>>)
    requires prev.out.Ok? && Nesting(node) < Nesting(v)
    requires "execute_queries" !in Keys(prev.defaults)
    requires node.LazyQuery? && prev.incl != Flag(false)
    ensures var r := Fetched(reg, v, column, node, Shared, excl, prev);
      "execute_queries" in Keys(r.defaults) && !OptionGet(Shared, r.defaults, "execute_queries")
  {
    var defaults := prev.defaults + [("execute_queries", false)];
    PutNew(prev.defaults, "execute_queries", false);
    assert OptionIndex(Shared, prev.defaults, "execute_queries") == Ok((false, defaults));
    FrameEmit(reg, v, column, node, Shared, excl, Run(prev.out, prev.incl, defaults));
  }

  /** Once `execute_queries` is False in the shared default options, every
      later conversion keeps it so. */
  lemma LatchPersists(reg: Registry, v: Value, opts: Options, incl: Columns, excl: Columns, defaults: Dict<bool>)
    requires "execute_queries" in Keys(defaults) && !Get(defaults, "execute_queries")
    ensures !OptionGet(Shared, ToDictSpec(reg, v, opts, incl, excl, defaults).defaults, "execute_queries")
  {
    FrameToDict(reg, v, opts, incl, excl, defaults);
  }

  /** With `execute_queries` False in the options read, an attribute that
      is not loaded and is not a hybrid is passed over. */
  lemma UnloadedSkipped(reg: Registry, v: Value, m: Model, column: string, opts: Options, excl: Columns, prev: Run<Dict<Plain>>)
    requires v.Instance? && prev.out.Ok? && (excl == Unset || excl.Tree?)
    requires !OptionGet(opts, prev.defaults, "execute_queries")
    requires column !in v.loaded && column !in m.hybrids
    ensures RecordAt(reg, v, m, column, opts, excl, prev) == prev
  {
  }

  /** In a list without repeats, no element occurs before its own position. */
  lemma NotBefore(cols: seq<string>, i: nat)
    requires Distinct(cols) && i < |cols|
    ensures cols[i] !in cols[..i]
  {
    forall j | 0 <= j < i
      ensures cols[j] != cols[i]
    {
    }
  }
}
