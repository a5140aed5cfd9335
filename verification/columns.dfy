/** Projection trees (`parse_columns`, `combine_columns`, `to_deep`): which
    columns and relations of a record to serialize, as nested dicts whose
    leaves are True. The include tree of a request is also where `to_deep`
    records the keys it has visited, as False entries. */
module Columns {

  import opened Wrappers
  import opened Dicts
  import opened Json
  import opened Text

  /** A projection value: None, True or False, or a dict of projections. */
  datatype Columns = Unset | Flag(on: bool) | Tree(entries: Dict<Columns>)

  /** Python truthiness of a projection value: whether it selects anything. */
  predicate Selects(c: Columns)
  {
    match c
    case Unset => false
    case Flag(b) => b
    case Tree(d) => |d| > 0
  }

  // ---------------------------------------------------------------------
  // parse_columns

  /** A value of the first pass of `parse_columns`: True for a bare name,
      the list of the path remainders gathered for a dotted head. */
  datatype Pending = Whole | Paths(rests: seq<string>)

  /** `column.split(".", 1)`: the head and, for a dotted path, the rest. */
  function SplitPath(s: string): (r: (string, Option<string>))
    ensures r.1.None? ==> r.0 == s && !Occurs(s, ".")
    ensures r.1.Some? ==> s == r.0 + "." + r.1.value && !Occurs(r.0, ".") && |r.1.value| < |s|
  {
    SplitFirst(s, ".")
  }

  /** The longest string's length: the measure under which parsing the
      remainders of a dotted head is a smaller problem. */
  function Longest(strings: seq<string>): (n: nat)
    ensures forall i :: 0 <= i < |strings| ==> |strings[i]| <= n
    ensures |strings| > 0 ==> exists i :: 0 <= i < |strings| && |strings[i]| == n
  {
    if strings == [] then 0
    else
      var m := Longest(strings[..|strings| - 1]);
      var last := |strings[|strings| - 1]|;
      assert forall i :: 0 <= i < |strings| - 1 ==> strings[i] == strings[..|strings| - 1][i];
      if last > m then last else m
  }

  /** All gathered remainders are non-empty lists of strings shorter than `bound`. */
  predicate RestsBelow(cols: Dict<Pending>, bound: nat)
  {
    forall i :: 0 <= i < |cols| ==> ShortRests(cols[i].1, bound)
  }

  predicate ShortRests(p: Pending, bound: nat)
  {
    p.Paths? ==> |p.rests| > 0 && forall j :: 0 <= j < |p.rests| ==> |p.rests[j]| < bound
  }

  /** One iteration of the first pass: a bare name sets True (replacing a
      list gathered before); a dotted path appends its remainder to the list
      of its head, which fails when the head was already set to True
      (AttributeError: True has no `append`). */
  function GatherOne(cols: Dict<Pending>, s: string): (r: Result<Dict<Pending>, Error>)
    ensures r.Err? <==> SplitPath(s).1.Some? && SplitPath(s).0 in Keys(cols) && Get(cols, SplitPath(s).0) == Whole
    ensures r.Err? ==> r.error == AttributeError
    ensures r.Ok? ==> r.value == Put(cols, SplitPath(s).0, Appended(cols, SplitPath(s)))
  {
    var (head, rest) := SplitPath(s);
    if rest.None? then Ok(Put(cols, head, Whole))
    else if head in Keys(cols) && Get(cols, head) == Whole then Err(AttributeError)
    else Ok(Put(cols, head, Appended(cols, (head, rest))))
  }

  /** The value a path leaves under its head: True for a bare name, the
      head's list with the remainder appended otherwise. */
  function Appended(cols: Dict<Pending>, parts: (string, Option<string>)): Pending
  {
    if parts.1.None? then Whole
    else if parts.0 in Keys(cols) && Get(cols, parts.0).Paths? then Paths(Get(cols, parts.0).rests + [parts.1.value])
    else Paths([parts.1.value])
  }

  /** The first pass of `parse_columns` over `strings`, in order. */
  function Gather(strings: seq<string>): (r: Result<Dict<Pending>, Error>)
    ensures r.Ok? ==> Distinct(Keys(r.value))
    ensures r.Err? ==> r.error == AttributeError
  {
    if strings == [] then Ok([])
    else
      var cols :- Gather(strings[..|strings| - 1]);
      GatherOne(cols, strings[|strings| - 1])
  }

  /** `Gather` on a non-empty list is its last step applied to the rest. */
  lemma GatherLast(strings: seq<string>)
    requires |strings| > 0
    ensures Gather(strings) ==
      if Gather(strings[..|strings| - 1]).Ok? then GatherOne(Gather(strings[..|strings| - 1]).value, strings[|strings| - 1])
      else Err(AttributeError)
  {
  }

  /** Every gathered remainder is shorter than the longest string, so the
      recursive parse of the remainders terminates. */
  lemma {:induction false} GatherBounded(strings: seq<string>)
    requires Gather(strings).Ok?
    ensures RestsBelow(Gather(strings).value, Longest(strings))
    decreases |strings|
  {
    if strings != [] {
      var init := strings[..|strings| - 1];
      var s := strings[|strings| - 1];
      GatherLast(strings);
      GatherBounded(init);
      GatherKeepsBound(Gather(init).value, s, init, strings);
    }
  }

  lemma GatherKeepsBound(cols: Dict<Pending>, s: string, init: seq<string>, strings: seq<string>)
    requires strings == init + [s]
    requires RestsBelow(cols, Longest(init))
    ensures RestsBelow(Put(cols, SplitPath(s).0, Appended(cols, SplitPath(s))), Longest(strings))
  {
    assert Longest(init) <= Longest(strings) by {
      if |init| > 0 {
        var i :| 0 <= i < |init| && |init[i]| == Longest(init);
        assert init[i] == strings[i];
      }
    }
    assert |s| <= Longest(strings) by { assert strings[|strings| - 1] == s; }
    RaiseBound(cols, Longest(init), Longest(strings));
    PutKeepsBound(cols, s, Longest(strings));
  }

  lemma RaiseBound(cols: Dict<Pending>, lo: nat, hi: nat)
    requires lo <= hi && RestsBelow(cols, lo)
    ensures RestsBelow(cols, hi)
  {
  }

  lemma PutKeepsBound(cols: Dict<Pending>, s: string, bound: nat)
    requires RestsBelow(cols, bound) && |s| <= bound
    ensures RestsBelow(Put(cols, SplitPath(s).0, Appended(cols, SplitPath(s))), bound)
  {
    var head := SplitPath(s).0;
    var rest := SplitPath(s).1;
    var a := Appended(cols, SplitPath(s));
    var r := Put(cols, head, a);
    PutEntries(cols, head, a);
    if rest.Some? {
      assert |rest.value| < |s|;
      if head in Keys(cols) && Get(cols, head).Paths? {
        var before := cols[IndexOf(cols, head)].1.rests;
        assert a.rests == before + [rest.value];
      } else {
        assert a.rests == [rest.value];
      }
    }
    forall i | 0 <= i < |r|
      ensures ShortRests(r[i].1, bound)
    {
      if i < |cols| && i != IndexOf(cols, head) {
        assert r[i] == cols[i];
      } else {
        assert r[i] == (head, a);
      }
    }
  }

  /** `parse_columns` on a list: True for each bare name, a recursively
      parsed tree for the remainders gathered under each dotted head. */
  function ParseColumnsSpec(strings: seq<string>): (r: Result<Dict<Columns>, Error>)
    ensures r.Ok? ==> Gather(strings).Ok? && Keys(r.value) == Keys(Gather(strings).value)
    decreases Longest(strings), 1
  {
    var cols :- Gather(strings);
    GatherBounded(strings);
    Nest(cols, Longest(strings))
  }

  /** The values of `rs` when all of them are Ok; otherwise the first error, in order. */
  function AllOk<T>(rs: seq<Result<T, Error>>): (r: Result<seq<T>, Error>)
    ensures r.Ok? <==> forall j :: 0 <= j < |rs| ==> rs[j].Ok?
    ensures r.Ok? ==> |r.value| == |rs| && forall j :: 0 <= j < |rs| ==> rs[j] == Ok(r.value[j])
    ensures r.Err? ==>
      exists j :: 0 <= j < |rs| && rs[j] == Err(r.error) && forall k :: 0 <= k < j ==> rs[k].Ok?
  {
    if rs == [] then Ok([])
    else if rs[0].Err? then Err(rs[0].error)
    else
      var rest := AllOk(rs[1..]);
      if rest.Err? then
        var j :| 0 <= j < |rs[1..]| && rs[1..][j] == Err(rest.error) && forall k :: 0 <= k < j ==> rs[1..][k].Ok?;
        assert rs[j + 1] == Err(rest.error) && forall k :: 0 <= k < j + 1 ==> rs[k].Ok?;
        Err(rest.error)
      else
        Ok([rs[0].value] + rest.value)
  }

  /** The second pass of `parse_columns`: every gathered value parsed, keys
      and order kept; the first value that fails to parse is the error. */
  function Nest(cols: Dict<Pending>, bound: nat): (r: Result<Dict<Columns>, Error>)
    requires RestsBelow(cols, bound)
    ensures r.Ok? <==> forall j :: 0 <= j < |cols| ==> NestEntry(cols[j].1, bound).Ok?
    ensures r.Ok? ==> |r.value| == |cols| && forall j :: 0 <= j < |cols| ==>
      r.value[j].0 == cols[j].0 && NestEntry(cols[j].1, bound) == Ok(r.value[j].1)
    ensures r.Err? ==>
      exists j :: 0 <= j < |cols| && NestEntry(cols[j].1, bound) == Err(r.error) &&
        forall k :: 0 <= k < j ==> NestEntry(cols[k].1, bound).Ok?
    decreases bound, 0, 1
  {
    var parsed := seq(|cols|, j requires 0 <= j < |cols| => NestEntry(cols[j].1, bound));
    assert forall k :: 0 <= k < |cols| ==> parsed[k] == NestEntry(cols[k].1, bound);
    var all := AllOk(parsed);
    if all.Err? then
      var j :| 0 <= j < |parsed| && parsed[j] == Err(all.error) && forall k :: 0 <= k < j ==> parsed[k].Ok?;
      Err(all.error)
    else
      Ok(seq(|cols|, j requires 0 <= j < |cols| => (cols[j].0, all.value[j])))
  }

  /** What the second pass stores for one gathered value: True stays True,
      a list of remainders becomes the tree `parse_columns` makes of them,
      and fails exactly when that parse fails. */
  function NestEntry(p: Pending, bound: nat): (r: Result<Columns, Error>)
    requires ShortRests(p, bound)
    ensures p.Whole? ==> r == Ok(Flag(true))
    ensures p.Paths? ==> (r.Ok? <==> ParseColumnsSpec(p.rests).Ok?)
    ensures p.Paths? && r.Ok? ==> r.value == Tree(ParseColumnsSpec(p.rests).value)
    ensures p.Paths? && r.Err? ==> r.error == ParseColumnsSpec(p.rests).error
    decreases bound, 0, 0
  {
    match p
    case Whole => Ok(Flag(true))
    case Paths(ps) =>
      assert Longest(ps) < bound by { ShortLongest(p, bound); }
      var t :- ParseColumnsSpec(ps);
      Ok(Tree(t))
  }

  lemma ShortLongest(p: Pending, bound: nat)
    requires ShortRests(p, bound) && p.Paths?
    ensures Longest(p.rests) < bound
  {
    var k :| 0 <= k < |p.rests| && |p.rests[k]| == Longest(p.rests);
  }

  /** `parse_columns`: None for None, the parsed tree otherwise. */
  function ParseColumnsOf(strings: Option<seq<string>>): Result<Columns, Error>
  {
    if strings.None? then Ok(Unset)
    else
      var d :- ParseColumnsSpec(strings.value);
      Ok(Tree(d))
  }

  /** `parse_columns`, as the source runs it: the first loop fills
      `columns`, the second replaces each gathered list by its parse. */
  method ParseColumns(strings: Option<seq<string>>) returns (r: Result<Columns, Error>)
    ensures r == ParseColumnsOf(strings)
  {
    if strings.None? {
      return Ok(Unset);
    }
    var d :- ParseList(strings.value);
    r := Ok(Tree(d));
  }

  method ParseList(strings: seq<string>) returns (r: Result<Dict<Columns>, Error>)
    ensures r == ParseColumnsSpec(strings)
    decreases Longest(strings), 1
  {
    var columns :- GatherList(strings);
    GatherBounded(strings);
    r := NestList(columns, Longest(strings));
  }

  /** The first loop of `parse_columns`. */
  method GatherList(strings: seq<string>) returns (r: Result<Dict<Pending>, Error>)
    ensures r == Gather(strings)
  {
    var columns: Dict<Pending> := [];
    var i := 0;
    while i < |strings|
      invariant 0 <= i <= |strings|
      invariant Gather(strings[..i]) == Ok(columns)
    {
      assert strings[..i + 1][..i] == strings[..i];
      GatherLast(strings[..i + 1]);
      var parts := SplitPath(strings[i]);
      if parts.1.None? {
        columns := Put(columns, parts.0, Whole);
      } else if parts.0 in Keys(columns) && Get(columns, parts.0).Whole? {
        GatherStops(strings, i);
        return Err(AttributeError);
      } else if parts.0 in Keys(columns) {
        columns := Put(columns, parts.0, Paths(Get(columns, parts.0).rests + [parts.1.value]));
      } else {
        columns := Put(columns, parts.0, Paths([parts.1.value]));
      }
      i := i + 1;
    }
    assert strings[..i] == strings;
    r := Ok(columns);
  }

  /** The second loop of `parse_columns`: each gathered list is replaced by
      its own parse, in the order of the entries. */
  method NestList(columns: Dict<Pending>, bound: nat) returns (r: Result<Dict<Columns>, Error>)
    requires RestsBelow(columns, bound)
    ensures r == Nest(columns, bound)
    decreases bound, 0, 2
  {
    var result: Dict<Columns> := [];
    for j := 0 to |columns|
      invariant |result| == j
      invariant forall k :: 0 <= k < j ==> result[k].0 == columns[k].0 && NestEntry(columns[k].1, bound) == Ok(result[k].1)
    {
      var v := NestValue(columns[j].1, bound);
      if v.Err? {
        assert Nest(columns, bound).Err?;
        var i :| 0 <= i < |columns| && NestEntry(columns[i].1, bound) == Err(Nest(columns, bound).error) &&
          forall k :: 0 <= k < i ==> NestEntry(columns[k].1, bound).Ok?;
        assert i == j;
        return Err(v.error);
      }
      result := result + [(columns[j].0, v.value)];
    }
    assert Nest(columns, bound).Ok?;
    assert Nest(columns, bound).value == result;
    r := Ok(result);
  }

  /** The body of the second loop for one entry. */
  method NestValue(p: Pending, bound: nat) returns (r: Result<Columns, Error>)
    requires ShortRests(p, bound)
    ensures r == NestEntry(p, bound)
    decreases bound, 0, 0
  {
    match p {
      case Whole =>
        r := Ok(Flag(true));
      case Paths(ps) =>
        ShortLongest(p, bound);
        var t := ParseList(ps);
        if t.Err? {
          return Err(t.error);
        }
        r := Ok(Tree(t.value));
    }
  }

  /** A failure in the first pass is final: the later strings are never read. */
  lemma {:induction false} GatherStops(strings: seq<string>, i: nat)
    requires i < |strings| && Gather(strings[..i]).Ok?
    requires GatherOne(Gather(strings[..i]).value, strings[i]).Err?
    ensures Gather(strings) == Err(AttributeError)
    decreases |strings|
  {
    if i + 1 < |strings| {
      var init := strings[..|strings| - 1];
      assert init[..i] == strings[..i];
      assert init[i] == strings[i];
      GatherStops(init, i);
    } else {
      assert strings[..|strings| - 1] == strings[..i];
    }
  }

  // ---------------------------------------------------------------------
  // combine_columns

  /** `include.get(k)`: the value under `k` in a dict, None when absent;
      AttributeError when `include` is not a dict. */
  function GetIncluded(incl: Columns, k: string): (r: Result<Columns, Error>)
    ensures r.Err? <==> !incl.Tree?
    ensures r.Err? ==> r.error == AttributeError
    ensures r.Ok? && k !in Keys(incl.entries) ==> r.value == Unset
  {
    if !incl.Tree? then Err(AttributeError)
    else if k in Keys(incl.entries) then Ok(Get(incl.entries, k))
    else Ok(Unset)
  }

  /** `combine_columns(requested, include)`: iterating a `requested` that is
      not a dict raises AttributeError. */
  function Combine(requested: Columns, incl: Columns): (r: Result<Dict<Columns>, Error>)
    ensures !requested.Tree? ==> r == Err(AttributeError)
    ensures requested.Tree? && |requested.entries| > 0 && !incl.Tree? ==> r == Err(AttributeError)
    ensures requested == Tree([]) ==> r == Ok([])
    decreases requested, 2
  {
    if !requested.Tree? then Err(AttributeError)
    else CombineFirst(requested, incl, |requested.entries|)
  }

  /** The loop of `combine_columns` over the first `n` entries of `requested`. */
  function CombineFirst(requested: Columns, incl: Columns, n: nat): (r: Result<Dict<Columns>, Error>)
    requires requested.Tree? && n <= |requested.entries|
    ensures n > 0 && !incl.Tree? ==> r == Err(AttributeError)
    decreases requested, 1, n
  {
    if n == 0 then Ok([])
    else
      var combined :- CombineFirst(requested, incl, n - 1);
      CombineAt(requested, incl, n - 1, combined)
  }

  /** One iteration of the loop: the entry at `i` merged into `combined`. */
  function CombineAt(requested: Columns, incl: Columns, i: nat, combined: Dict<Columns>): (r: Result<Dict<Columns>, Error>)
    requires requested.Tree? && i < |requested.entries|
    ensures !incl.Tree? ==> r == Err(AttributeError)
    decreases requested, 0
  {
    var (k, v) := requested.entries[i];
    assert requested.entries[i] in requested.entries;
    var iv :- GetIncluded(incl, k);
    var merged :- Merge(v, iv);
    if merged.None? then Ok(combined) else Ok(Put(combined, k, merged.value))
  }

  /** What `combine_columns` stores for a requested value `v` whose include
      value is `iv`: nothing when `iv` is falsy, `v` when `iv` is True, `iv`
      when `v` is True, and the combination of the two otherwise. */
  function Merge(v: Columns, iv: Columns): (r: Result<Option<Columns>, Error>)
    ensures r == Ok(None) <==> !Selects(iv)
    ensures iv == Flag(true) ==> r == Ok(Some(v))
    ensures Selects(iv) && iv != Flag(true) && v == Flag(true) ==> r == Ok(Some(iv))
    decreases v, 3
  {
    if !Selects(iv) then Ok(None)
    else if iv == Flag(true) then Ok(Some(v))
    else if v == Flag(true) then Ok(Some(iv))
    else
      var sub :- Combine(v, iv);
      Ok(Some(Tree(sub)))
  }

  /** `combine_columns`, as the source runs it: one pass over `requested`,
      filling `combined`. */
  method CombineColumns(requested: Columns, incl: Columns) returns (r: Result<Dict<Columns>, Error>)
    ensures r == Combine(requested, incl)
    decreases requested, 2
  {
    if !requested.Tree? {
      return Err(AttributeError);
    }
    var combined: Dict<Columns> := [];
    for i := 0 to |requested.entries|
      invariant CombineFirst(requested, incl, i) == Ok(combined)
    {
      var next := CombineEntry(requested, incl, i, combined);
      if next.Err? {
        CombineStops(requested, incl, i + 1, |requested.entries|);
        return next;
      }
      combined := next.value;
    }
    r := Ok(combined);
  }

  /** One iteration of the loop of `combine_columns`: the entry at `i`. */
  method CombineEntry(requested: Columns, incl: Columns, i: nat, combined: Dict<Columns>) returns (r: Result<Dict<Columns>, Error>)
    requires requested.Tree? && i < |requested.entries|
    ensures r == CombineAt(requested, incl, i, combined)
    decreases requested, 0
  {
    var (k, v) := requested.entries[i];
    assert requested.entries[i] in requested.entries;
    if !incl.Tree? {
      return Err(AttributeError);
    }
    var iv := if k in Keys(incl.entries) then Get(incl.entries, k) else Unset;
    var merged := MergeValues(v, iv);
    if merged.Err? {
      return Err(merged.error);
    }
    r := if merged.value.Some? then Ok(Put(combined, k, merged.value.value)) else Ok(combined);
  }

  /** The branches of the loop body of `combine_columns`. */
  method MergeValues(v: Columns, iv: Columns) returns (r: Result<Option<Columns>, Error>)
    ensures r == Merge(v, iv)
    decreases v, 3
  {
    if !Selects(iv) {
      r := Ok(None);
    } else if iv == Flag(true) {
      r := Ok(Some(v));
    } else if v == Flag(true) {
      r := Ok(Some(iv));
    } else {
      var sub := CombineColumns(v, iv);
      if sub.Err? {
        return Err(sub.error);
      }
      r := Ok(Some(Tree(sub.value)));
    }
  }

  /** A failing entry ends the loop: the later entries are never read. */
  lemma {:induction false} CombineStops(requested: Columns, incl: Columns, i: nat, n: nat)
    requires requested.Tree? && i <= n <= |requested.entries|
    requires CombineFirst(requested, incl, i).Err?
    ensures CombineFirst(requested, incl, n) == CombineFirst(requested, incl, i)
    decreases n - i
  {
    if i < n {
      CombineStops(requested, incl, i, n - 1);
    }
  }

  // ---------------------------------------------------------------------
  // to_deep

  /** The include and exclude projections a nested value is serialized with. */
  datatype Scope = Scope(incl: Columns, excl: Columns)

  /** `to_deep(include, exclude, key)`: the scope for the value under `key`,
      together with the caller's incl projection after the call (the
      `setdefault` stores False under a missing key of a dict include). */
  function ToDeep(incl: Columns, excl: Columns, key: string): (r: (Columns, Scope))
    ensures !incl.Tree? ==> r.0 == incl
    ensures incl.Tree? ==> r.0.Tree? && key in Keys(r.0.entries)
    ensures incl.Tree? && key in Keys(incl.entries) ==> r.0 == incl
    ensures incl.Tree? && key !in Keys(incl.entries) ==>
      Keys(r.0.entries) == Keys(incl.entries) + [key] && Get(r.0.entries, key) == Flag(false) &&
      forall k :: k in Keys(incl.entries) ==> Get(r.0.entries, k) == Get(incl.entries, k)
    ensures excl.Tree? && key in Keys(excl.entries) ==> r.1 == Scope(Unset, Get(excl.entries, key))
    ensures !(excl.Tree? && key in Keys(excl.entries)) ==>
      r.1 == Scope(if incl.Tree? then Get(r.0.entries, key) else Flag(false), Unset)
  {
    var (after, inc) :=
      if incl.Tree? then
        if key in Keys(incl.entries) then (incl, Get(incl.entries, key))
        else (Tree(Put(incl.entries, key, Flag(false))), Flag(false))
      else (incl, Flag(false));
    if excl.Tree? && key in Keys(excl.entries) then (after, Scope(Unset, Get(excl.entries, key)))
    else (after, Scope(inc, Unset))
  }
}
