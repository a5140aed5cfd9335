/** The filter tree a search request describes, and how it is read from the
    request's nested dictionaries (`Filter.from_dictionary`). */
module Filters {

  import opened Wrappers
  import opened Dicts
  import opened Json

  /** Which junction class a junction is: ConjunctionFilter,
      DisjunctionFilter, or the JunctionFilter base class itself. */
  datatype JunctionKind = Conjunction | Disjunction | Bare

  /** What the query builder can be handed as a filter. `Leaf` and
      `Junction` are the Filter objects `from_dictionary` builds; `Plain` is
      a dictionary passed where a filter is expected, which is the shape the
      builder actually reads leaves in. */
  datatype Filter =
    | Leaf(fieldname: Json, operator: Json, argument: Json, otherfield: Json)
    | Junction(kind: JunctionKind, subfilters: seq<Filter>)
    | Plain(entries: Dict<Json>)

  /** The exception raised when iterating a subfilter that is not a dict:
      `'or' in x` fails on values that are not containers, and `x.get`
      fails on the containers that are not dicts. */
  function NotADictError(j: Json): Error
  {
    if j.JNull? || j.JBool? || j.JInt? then TypeError else AttributeError
  }

  /** `Filter.from_dictionary`: a dict with neither an "or" nor an "and" key
      is a leaf read from its "name", "op", "val" and "field" keys (each
      None when absent); otherwise "or" wins over "and" and every element of
      the list under that key is read in turn. */
  function FromDictionary(d: Dict<Json>): (r: Result<Filter, Error>)
    ensures "or" !in Keys(d) && "and" !in Keys(d) ==>
      r == Ok(Leaf(Lookup(d, "name"), Lookup(d, "op"), Lookup(d, "val"), Lookup(d, "field")))
    ensures r.Ok? && "or" in Keys(d) ==> r.value.Junction? && r.value.kind == Disjunction
    ensures r.Ok? && "or" !in Keys(d) && "and" in Keys(d) ==> r.value.Junction? && r.value.kind == Conjunction
    // a junction's children are the filters read from the list under its key, in order
    ensures "or" in Keys(d) || "and" in Keys(d) ==>
      var subs := Subfilters(Lookup(d, if "or" in Keys(d) then "or" else "and"));
      (r.Ok? <==> subs.Ok?) && (r.Ok? ==> r.value.Junction? && r.value.subfilters == subs.value) &&
      (r.Err? ==> r.error == subs.error)
    decreases Depth(JObject(d)), 1
  {
    if "or" !in Keys(d) && "and" !in Keys(d) then
      Ok(Leaf(Lookup(d, "name"), Lookup(d, "op"), Lookup(d, "val"), Lookup(d, "field")))
    else
      var key := if "or" in Keys(d) then "or" else "and";
      LookupIsShallower(d, key);
      var subs :- Subfilters(Lookup(d, key));
      Ok(Junction(if key == "or" then Disjunction else Conjunction, subs))
  }

  /** `from_dict(f) for f in subfilters`: the filters read from the elements
      of the value under "or" or "and", in order; the first element that is
      not a dict raises. */
  function Subfilters(j: Json): (r: Result<seq<Filter>, Error>)
    ensures j.JList? && r.Ok? ==>
      |r.value| == |j.items| &&
      forall i :: 0 <= i < |j.items| ==> j.items[i].JObject? && FromDictionary(j.items[i].entries) == Ok(r.value[i])
    ensures j.JNull? || j.JBool? || j.JInt? ==> r == Err(TypeError)
    decreases Depth(j), 1
  {
    match j
    case JList(items) => SubfiltersFrom(j, 0)
    case JObject(entries) => if entries == [] then Ok([]) else Err(AttributeError)
    case JStr(s) => if s == "" then Ok([]) else Err(AttributeError)
    case _ => Err(TypeError)
  }

  function SubfiltersFrom(j: Json, i: nat): (r: Result<seq<Filter>, Error>)
    requires j.JList? && i <= |j.items|
    ensures r.Ok? ==>
      |r.value| == |j.items| - i &&
      forall k :: i <= k < |j.items| ==> j.items[k].JObject? && FromDictionary(j.items[k].entries) == Ok(r.value[k - i])
    decreases Depth(j), 0, |j.items| - i
  {
    if i == |j.items| then Ok([])
    else
      var x := j.items[i];
      assert Depth(x) < Depth(j);
      var f :- if x.JObject? then FromDictionary(x.entries) else Err(NotADictError(x));
      var rest :- SubfiltersFrom(j, i + 1);
      Ok([f] + rest)
  }

  /** `from_dictionary` builds Filter objects only: it never produces a plain
      dict, so every leaf it builds is a Leaf object. */
  predicate Parsed(f: Filter)
  {
    match f
    case Leaf(_, _, _, _) => true
    case Plain(_) => false
    case Junction(kind, subs) => kind != Bare && forall i :: 0 <= i < |subs| ==> Parsed(subs[i])
  }

  lemma {:induction false} FromDictionaryParsed(d: Dict<Json>)
    ensures FromDictionary(d).Ok? ==> Parsed(FromDictionary(d).value)
    decreases Depth(JObject(d)), 1
  {
    if FromDictionary(d).Ok? && ("or" in Keys(d) || "and" in Keys(d)) {
      var key := if "or" in Keys(d) then "or" else "and";
      var j := Lookup(d, key);
      LookupIsShallower(d, key);
      SubfiltersParsed(j);
    }
  }

  lemma {:induction false} SubfiltersParsed(j: Json)
    ensures Subfilters(j).Ok? ==> forall i :: 0 <= i < |Subfilters(j).value| ==> Parsed(Subfilters(j).value[i])
    decreases Depth(j), 0
  {
    if Subfilters(j).Ok? && j.JList? {
      var fs := Subfilters(j).value;
      forall i | 0 <= i < |fs| ensures Parsed(fs[i]) {
        assert Depth(j.items[i]) < Depth(j);
        FromDictionaryParsed(j.items[i].entries);
      }
    }
  }
}
