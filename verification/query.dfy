/** Compiling filters into predicates (`QueryBuilder._create_operation`,
    `QueryBuilder._create_filter` and `_sub_operator`). The SQL expressions
    the source builds are modelled as an abstract predicate tree. */
module Query {

  import opened Wrappers
  import opened Dicts
  import opened Json
  import opened Text
  import opened Schema
  import opened Filters
  import opened Operators

  /** The attribute `name` of the mapped class `model`. */
  datatype Field = Field(model: string, name: string)

  /** The right-hand side of a comparison: a literal from the request, or
      another field of the same class. */
  datatype Operand = Lit(value: Json) | FieldOf(field: Field)

  datatype Predicate =
    | UnaryPred(uop: UnaryOp, subject: Field)
    | BinaryPred(bop: BinaryOp, left: Field, right: Operand)
    | Quantified(q: Quantifier, relation: Field, sub: Predicate)

  function ArgDepth(a: Operand): nat
  {
    if a.Lit? then Depth(a.value) else 0
  }

  /** `OPERATORS[operator]`: KeyError for a name that is not in the table,
      TypeError for a key that cannot be hashed. */
  function LookupOperator(operator: Json): (r: Result<Operator, Error>)
    ensures r.Ok? <==> operator.JStr? && operator.s in OPERATORS
    ensures r.Ok? ==> r.value == OPERATORS[operator.s]
    ensures r.Err? && (operator.JList? || operator.JObject?) ==> r.error == TypeError
    ensures r.Err? && !(operator.JList? || operator.JObject?) ==> r.error == KeyError(operator)
  {
    match operator
    case JStr(s) => if s in OPERATORS then Ok(OPERATORS[s]) else Err(KeyError(operator))
    case JList(_) => Err(TypeError)
    case JObject(_) => Err(TypeError)
    case _ => Err(KeyError(operator))
  }

  /** `relation or fieldname`: the name looked up on the class. */
  function Target(fieldname: Json, relation: Option<string>): Json
  {
    if relation.Some? && relation.value != "" then JStr(relation.value) else fieldname
  }

  /** `'__' in name` followed by a two-way unpacking of `name.split('__')`:
      None when the name holds no separator, the two pieces when it holds
      exactly one, ValueError when it holds more. A list or dict name can
      contain "__" but cannot be split; other values support no `in`. */
  function SplitDunder(name: Json): (r: Result<Option<(string, string)>, Error>)
    ensures name.JStr? && !Occurs(name.s, "__") ==> r == Ok(None)
    ensures name.JStr? && Occurs(name.s, "__") ==>
      (r.Ok? <==> |SplitAll(name.s, "__")| == 2)
    ensures r.Ok? && r.value.Some? ==>
      name.JStr? && name.s == r.value.value.0 + "__" + r.value.value.1
    ensures r.Err? && name.JStr? ==> r.error == ValueError
  {
    match name
    case JStr(s) =>
      if !Occurs(s, "__") then Ok(None)
      else
        var parts := SplitAll(s, "__");
        if |parts| == 2 then
          SplitJoins(s);
          Ok(Some((parts[0], parts[1])))
        else Err(ValueError)
    case JList(items) => if JStr("__") in items then Err(AttributeError) else Ok(None)
    case JObject(entries) => if "__" in Keys(entries) then Err(AttributeError) else Ok(None)
    case _ => Err(TypeError)
  }

  /** Two pieces of a split put back together with the separator give the name. */
  lemma {:induction false} SplitJoins(s: string)
    requires |SplitAll(s, "__")| == 2
    ensures s == SplitAll(s, "__")[0] + "__" + SplitAll(s, "__")[1]
  {
    var i := Find(s, "__");
    assert i >= 0;
    var rest := s[i + 2..];
    assert SplitAll(s, "__") == [s[..i]] + SplitAll(rest, "__");
    assert |SplitAll(rest, "__")| == 1;
    assert !Occurs(rest, "__");
    assert SplitAll(rest, "__") == [rest];
    assert s == s[..i] + s[i..i + 2] + rest;
  }

  /** The operator's lambda calls a method the attribute lacks, so applying
      it raises AttributeError: `desc`, `asc`, `like`, `ilike`, `in` and
      `not_in` need the column operators, `has` and `any` the quantifiers. */
  predicate LacksMethod(a: Attribute, op: Operator)
  {
    match op
    case Unary(u) => (u == Desc || u == Asc) && !HasColumnOperators(a)
    case Binary(b) => (b == ILike || b == Like || b == In || b == NotIn) && !HasColumnOperators(a)
    case Quant(_) => !HasQuantifiers(a)
  }

  /** `QueryBuilder._create_operation`: look the operator up (KeyError),
      resolve `relation or fieldname` on the class (AttributeError), apply a
      one-parameter operator to the field alone, refuse a None argument for
      the others (TypeError), and hand `has`/`any` the original field name
      for the related class. Applying the operator raises AttributeError
      when it calls a method the attribute lacks; `f.has` and `f.any` are
      looked up before `_sub_operator` runs. */
  function CreateOperation(reg: Registry, model: string, fieldname: Json, operator: Json,
                           argument: Operand, relation: Option<string>): (r: Result<Predicate, Error>)
    ensures LookupOperator(operator).Err? ==> r == Err(LookupOperator(operator).error)
    ensures LookupOperator(operator).Ok? && GetAttrNamed(reg, model, Target(fieldname, relation)).Err? ==>
      r == Err(GetAttrNamed(reg, model, Target(fieldname, relation)).error)
    ensures LookupOperator(operator).Ok? && NumArgs(LookupOperator(operator).value) > 1 &&
            GetAttrNamed(reg, model, Target(fieldname, relation)).Ok? && argument == Lit(JNull) ==>
      r == Err(TypeError)
    ensures LookupOperator(operator).Ok? && GetAttrNamed(reg, model, Target(fieldname, relation)).Ok? &&
            !(NumArgs(LookupOperator(operator).value) > 1 && argument == Lit(JNull)) &&
            LacksMethod(GetAttrNamed(reg, model, Target(fieldname, relation)).value.1, LookupOperator(operator).value) ==>
      r == Err(AttributeError)
    ensures r.Ok? ==>
      !LacksMethod(GetAttrNamed(reg, model, Target(fieldname, relation)).value.1, LookupOperator(operator).value)
    ensures r.Ok? ==>
      var field := Field(model, GetAttrNamed(reg, model, Target(fieldname, relation)).value.0);
      match LookupOperator(operator).value
      case Unary(u) => r.value == UnaryPred(u, field)
      case Binary(b) => r.value == BinaryPred(b, field, argument)
      case Quant(q) => r.value.Quantified? && r.value.q == q && r.value.relation == field
    decreases ArgDepth(argument), 1
  {
    var op :- LookupOperator(operator);
    var target :- GetAttrNamed(reg, model, Target(fieldname, relation));
    var field := Field(model, target.0);
    match op
    case Unary(u) =>
      if LacksMethod(target.1, op) then Err(AttributeError) else Ok(UnaryPred(u, field))
    case Binary(b) =>
      if argument == Lit(JNull) then Err(TypeError)
      else if LacksMethod(target.1, op) then Err(AttributeError)
      else Ok(BinaryPred(b, field, argument))
    case Quant(q) =>
      if argument == Lit(JNull) then Err(TypeError)
      else if LacksMethod(target.1, op) then Err(AttributeError)
      else
        var sub :- SubOperator(reg, target.1, argument, fieldname);
        Ok(Quantified(q, field, sub))
  }

  /** `_sub_operator`: the condition `has`/`any` place on the related class.
      Only a relationship attribute leads to a class: a column has no mapper
      (AttributeError), and every other attribute reaches the association
      proxy test, whose name the module never imports (NameError). A dict
      argument is a nested filter whose name splits as `fieldname,
      relation`; any other argument is an implicit equality on `fieldname`. */
  function SubOperator(reg: Registry, attr: Attribute, argument: Operand, fieldname: Json): (r: Result<Predicate, Error>)
    ensures attr.Column? ==> r == Err(AttributeError)
    ensures !attr.Column? && !attr.Relation? ==> r == Err(NameError)
    ensures attr.Relation? && !(argument.Lit? && argument.value.JObject?) ==>
      r == (var f :- GetAttrNamed(reg, attr.target, fieldname); Ok(BinaryPred(Eq, Field(attr.target, f.0), argument)))
    decreases ArgDepth(argument), 0
  {
    match attr
    case Column(_, _) => Err(AttributeError)
    case Relation(submodel) =>
      if argument.Lit? && argument.value.JObject? then
        var d := argument.value.entries;
        var name :- Subscript(d, "name");
        var operator :- Subscript(d, "op");
        var val := Lookup(d, "val");
        var split :- SplitDunder(name);
        LookupIsShallower(d, "val");
        if split.Some? then
          CreateOperation(reg, submodel, JStr(split.value.0), operator, Lit(val), Some(split.value.1))
        else
          CreateOperation(reg, submodel, name, operator, Lit(val), None)
      else
        var f :- GetAttrNamed(reg, submodel, fieldname);
        Ok(BinaryPred(Eq, Field(submodel, f.0), argument))
    case _ => Err(NameError)
  }

  /** `QueryBuilder._create_filter`. A leaf is read by subscripting it, so
      only a plain dict leaf compiles: its name splits as `relation, fname`,
      a truthy "otherfield" replaces the value with that attribute of the
      same class, and the operation is created from "op". A Filter object
      leaf cannot be subscripted (TypeError). A junction is handed to `and_`
      or `or_`, neither of which the module imports: every junction raises
      NameError before any of its children is compiled. */
  function CreateFilter(reg: Registry, model: string, f: Filter): (r: Result<Predicate, Error>)
    ensures f.Leaf? ==> r == Err(TypeError)
    ensures f.Junction? ==> r == Err(NameError)
    ensures r.Ok? ==> f.Plain? && "name" in Keys(f.entries) && "value" in Keys(f.entries) && "op" in Keys(f.entries)
  {
    match f
    case Leaf(_, _, _, _) => Err(TypeError)
    case Plain(d) => CreatePlain(reg, model, d)
    case Junction(_, _) => Err(NameError)
  }

  /** All the values when every result is Ok, the first error otherwise. */
  function Collect(rs: seq<Result<Predicate, Error>>): (r: Result<seq<Predicate>, Error>)
    ensures r.Ok? <==> forall i :: 0 <= i < |rs| ==> rs[i].Ok?
    ensures r.Ok? ==> |r.value| == |rs| && forall i :: 0 <= i < |rs| ==> rs[i] == Ok(r.value[i])
    ensures r.Err? ==> exists i :: 0 <= i < |rs| && rs[i] == Err(r.error) && forall j :: 0 <= j < i ==> rs[j].Ok?
  {
    if rs == [] then Ok([])
    else if rs[0].Err? then Err(rs[0].error)
    else
      var rest := Collect(rs[1..]);
      if rest.Err? then
        assert exists i :: 0 <= i < |rs| && rs[i] == Err(rest.error) && forall j :: 0 <= j < i ==> rs[j].Ok? by {
          var k :| 0 <= k < |rs[1..]| && rs[1..][k] == Err(rest.error) && forall j :: 0 <= j < k ==> rs[1..][j].Ok?;
          assert rs[k + 1] == Err(rest.error);
        }
        Err(rest.error)
      else
        Ok([rs[0].value] + rest.value)
  }

  /** The leaf branch of `_create_filter`, on a dict. */
  function CreatePlain(reg: Registry, model: string, d: Dict<Json>): (r: Result<Predicate, Error>)
    ensures "name" !in Keys(d) ==> r == Err(KeyError(JStr("name")))
    ensures "name" in Keys(d) && "value" !in Keys(d) ==> r == Err(KeyError(JStr("value")))
    ensures r.Ok? ==> "name" in Keys(d) && "value" in Keys(d) && "op" in Keys(d)
  {
    var name :- Subscript(d, "name");
    var value :- Subscript(d, "value");
    var split :- SplitDunder(name);
    var otherfield := Lookup(d, "otherfield");
    var argument :- if Truthy(otherfield) then
                      var other :- GetAttrNamed(reg, model, otherfield);
                      Ok(FieldOf(Field(model, other.0)))
                    else Ok(Lit(value));
    var operator :- Subscript(d, "op");
    if split.Some? then
      CreateOperation(reg, model, JStr(split.value.1), operator, argument, Some(split.value.0))
    else
      CreateOperation(reg, model, name, operator, argument, None)
  }
}
