/** Request data as the JSON decoder hands it over (dicts, lists, strings,
    integers, booleans and None), Python's truthiness on it, and the
    exceptions the system raises. */
module Json {

  import opened Wrappers
  import opened Dicts

  datatype Json =
    | JNull                          // None
    | JBool(b: bool)
    | JInt(i: int)
    | JStr(s: string)
    | JList(items: seq<Json>)
    | JObject(entries: Dict<Json>)   // a dict

  /** The Python exceptions the modelled code raises. */
  datatype Error =
    | KeyError(key: Json)      // missing dict key, unknown operator
    | TypeError                // wrong argument shape, unsubscriptable or unhashable value
    | AttributeError           // getattr on a missing attribute, a method the value lacks
    | ValueError               // unpacking a split into the wrong number of names, include and exclude together
    | NameError                // a name the module never imported
    | DictConvertionError      // to_dict on an object that is not a mapped instance

  /** Python's `bool(j)`. */
  predicate Truthy(j: Json)
  {
    match j
    case JNull => false
    case JBool(b) => b
    case JInt(i) => i != 0
    case JStr(s) => s != ""
    case JList(items) => items != []
    case JObject(entries) => entries != []
  }

  /** `d.get(k)`: the value of `k`, or None when the key is absent. */
  function Lookup(d: Dict<Json>, k: string): (r: Json)
    ensures k !in Keys(d) ==> r == JNull
    ensures k in Keys(d) ==> r == Get(d, k)
  {
    if k in Keys(d) then Get(d, k) else JNull
  }

  /** `d[k]`: the value of `k`, or KeyError when the key is absent. */
  function Subscript(d: Dict<Json>, k: string): (r: Result<Json, Error>)
    ensures r.Ok? <==> k in Keys(d)
    ensures r.Ok? ==> r.value == Get(d, k)
    ensures r.Err? ==> r.error == KeyError(JStr(k))
  {
    if k in Keys(d) then Ok(Get(d, k)) else Err(KeyError(JStr(k)))
  }

  /** Nesting depth, the measure under which a value read out of a dict
      is smaller than the dict. */
  function Depth(j: Json): nat
  {
    match j
    case JList(items) => 1 + ItemsDepth(j, 0)
    case JObject(entries) => 1 + EntriesDepth(j, 0)
    case _ => 0
  }

  function ItemsDepth(j: Json, i: nat): (r: nat)
    requires j.JList? && i <= |j.items|
    ensures forall k :: i <= k < |j.items| ==> Depth(j.items[k]) <= r
    decreases j, 0, |j.items| - i
  {
    if i == |j.items| then 0
    else
      var here := Depth(j.items[i]);
      var rest := ItemsDepth(j, i + 1);
      if here < rest then rest else here
  }

  function EntriesDepth(j: Json, i: nat): (r: nat)
    requires j.JObject? && i <= |j.entries|
    ensures forall k :: i <= k < |j.entries| ==> Depth(j.entries[k].1) <= r
    decreases j, 0, |j.entries| - i
  {
    if i == |j.entries| then 0
    else
      var here := Depth(j.entries[i].1);
      var rest := EntriesDepth(j, i + 1);
      if here < rest then rest else here
  }

  /** Whatever `d.get(k)` returns is shallower than the dict itself. */
  lemma LookupIsShallower(d: Dict<Json>, k: string)
    ensures Depth(Lookup(d, k)) < Depth(JObject(d))
  {
    if k in Keys(d) {
      var i := IndexOf(d, k);
      assert Depth(d[i].1) <= EntriesDepth(JObject(d), 0);
    }
  }
}
