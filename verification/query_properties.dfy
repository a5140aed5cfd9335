/** What the filter compiler promises, stated over the model in Query. */
module QueryProperties {

  import opened Wrappers
  import opened Dicts
  import opened Json
  import opened Text
  import opened Schema
  import opened Filters
  import opened Operators
  import opened Query

  /** No junction compiles: `and_` and `or_` are unbound names, so the
      junction branch raises NameError whatever the junction's kind and
      children, and whatever the class. */
  lemma JunctionRaisesNameError(reg: Registry, model: string, kind: JunctionKind, subs: seq<Filter>,
                                reg': Registry, model': string, kind': JunctionKind, subs': seq<Filter>)
    ensures CreateFilter(reg, model, Junction(kind, subs)) == Err(NameError)
    ensures CreateFilter(reg, model, Junction(kind, subs)) == CreateFilter(reg', model', Junction(kind', subs'))
  {
  }

  /** A one-parameter operator (`is_null`, `is_not_null`, `desc`, `asc`)
      never looks at the argument. */
  lemma OneParamOperatorIgnoresArgument(reg: Registry, model: string, fieldname: Json, operator: Json,
                                        a1: Operand, a2: Operand, relation: Option<string>)
    requires operator.JStr? && operator.s in OPERATORS && Arity(operator.s) == 1
    ensures CreateOperation(reg, model, fieldname, operator, a1, relation) ==
            CreateOperation(reg, model, fieldname, operator, a2, relation)
  {
  }

  /** A two-parameter operator on an attribute that exists, with an argument
      that is not None, compares the attribute found under `relation or
      fieldname` with the argument. */
  lemma TwoParamOperatorCompares(reg: Registry, model: string, name: string, operator: string,
                                 argument: Operand, relation: Option<string>)
    requires operator in OPERATORS && OPERATORS[operator].Binary?
    requires Target(JStr(name), relation).JStr? && Target(JStr(name), relation).s in ModelOf(reg, model).attrs
    requires argument != Lit(JNull)
    requires !LacksMethod(ModelOf(reg, model).attrs[Target(JStr(name), relation).s], OPERATORS[operator])
    ensures CreateOperation(reg, model, JStr(name), JStr(operator), argument, relation) ==
            Ok(BinaryPred(OPERATORS[operator].b, Field(model, Target(JStr(name), relation).s), argument))
  {
  }

  /** An operator whose lambda calls a method (`like`, `ilike`, `in`,
      `not_in`, `asc`, `desc`, `has`, `any`) raises AttributeError on a
      method or a constant of the class; so do all but `has` and `any` on
      an association proxy. */
  lemma MissingMethodRaisesAttributeError(reg: Registry, model: string, name: string, operator: string,
                                          argument: Operand, relation: Option<string>)
    requires operator in {"like", "ilike", "in", "not_in", "asc", "desc", "has", "any"}
    requires operator == "asc" || operator == "desc" || argument != Lit(JNull)
    requires Target(JStr(name), relation).JStr? && Target(JStr(name), relation).s in ModelOf(reg, model).attrs
    requires ModelOf(reg, model).attrs[Target(JStr(name), relation).s].Other? ||
             (ModelOf(reg, model).attrs[Target(JStr(name), relation).s].Proxy? && operator != "has" && operator != "any")
    ensures CreateOperation(reg, model, JStr(name), JStr(operator), argument, relation) == Err(AttributeError)
  {
  }

  /** `has`/`any` with an argument that is not a dict: an implicit equality
      between the field named `fieldname` on the related class and the
      argument, inside the quantifier over the relationship. */
  lemma QuantifierImplicitEquality(reg: Registry, model: string, fieldname: string, operator: string,
                                   argument: Operand, relation: string)
    requires operator in OPERATORS && OPERATORS[operator].Quant?
    requires relation != "" && relation in ModelOf(reg, model).attrs
    requires ModelOf(reg, model).attrs[relation].Relation?
    requires fieldname in ModelOf(reg, ModelOf(reg, model).attrs[relation].target).attrs
    requires argument != Lit(JNull) && !(argument.Lit? && argument.value.JObject?)
    ensures CreateOperation(reg, model, JStr(fieldname), JStr(operator), argument, Some(relation)) ==
            Ok(Quantified(OPERATORS[operator].q, Field(model, relation),
                          BinaryPred(Eq, Field(ModelOf(reg, model).attrs[relation].target, fieldname), argument)))
  {
  }

  /** `has`/`any` with a dict argument whose name holds no separator: the
      nested operation is created on the related class from the dict's
      "name", "op" and "val". */
  lemma QuantifierNestedFilter(reg: Registry, model: string, fieldname: Json, operator: string,
                               d: Dict<Json>, relation: string)
    requires operator in OPERATORS && OPERATORS[operator].Quant?
    requires relation != "" && relation in ModelOf(reg, model).attrs
    requires ModelOf(reg, model).attrs[relation].Relation?
    requires "name" in Keys(d) && "op" in Keys(d)
    requires Get(d, "name").JStr? && !Occurs(Get(d, "name").s, "__")
    ensures var target := ModelOf(reg, model).attrs[relation].target;
            var nested := CreateOperation(reg, target, Get(d, "name"), Get(d, "op"), Lit(Lookup(d, "val")), None);
            CreateOperation(reg, model, fieldname, JStr(operator), Lit(JObject(d)), Some(relation)) ==
            (if nested.Ok? then Ok(Quantified(OPERATORS[operator].q, Field(model, relation), nested.value))
             else Err(nested.error))
  {
  }

  /** Inside `has`/`any` a nested name `a__b` splits as `fieldname,
      relation`, so the attribute looked up on the related class is `b`,
      the second piece. */
  lemma NestedNameSplitsFieldFirst(reg: Registry, target: string, a: string, b: string, d: Dict<Json>)
    requires !Occurs(a + "_", "__") && !Occurs(b, "__")
    requires "name" in Keys(d) && "op" in Keys(d) && Get(d, "name") == JStr(a + "__" + b)
    ensures SubOperator(reg, Relation(target), Lit(JObject(d)), JNull) ==
            CreateOperation(reg, target, JStr(a), Get(d, "op"), Lit(Lookup(d, "val")), Some(b))
  {
    SplitAtSingleSeparator(a, b);
  }

  /** In a dict leaf a name `a__b` splits as `relation, fname`: the
      attribute looked up on the class is the relation `a`, and `b` is only
      passed on as the field name for `has`/`any`. */
  lemma LeafNameSplitsRelationFirst(reg: Registry, model: string, a: string, b: string, d: Dict<Json>)
    requires !Occurs(a + "_", "__") && !Occurs(b, "__")
    requires "name" in Keys(d) && "value" in Keys(d) && "op" in Keys(d)
    requires Get(d, "name") == JStr(a + "__" + b)
    requires !Truthy(Lookup(d, "otherfield"))
    ensures CreateFilter(reg, model, Plain(d)) ==
            CreateOperation(reg, model, JStr(b), Get(d, "op"), Lit(Get(d, "value")), Some(a))
  {
    SplitAtSingleSeparator(a, b);
  }

  /** A leaf name with two or more separators cannot be unpacked into two
      names: ValueError. */
  lemma LeafNameWithTwoSeparatorsFails(reg: Registry, model: string, d: Dict<Json>)
    requires "name" in Keys(d) && "value" in Keys(d)
    requires Get(d, "name").JStr? && Occurs(Get(d, "name").s, "__")
    requires var s := Get(d, "name").s; Occurs(s[Find(s, "__") + 2..], "__")
    ensures CreateFilter(reg, model, Plain(d)) == Err(ValueError)
  {
    SplitWithTwoSeparators(Get(d, "name").s);
  }

  /** A truthy "otherfield" naming an attribute of the class replaces the
      value: the operation compares with that attribute. */
  lemma OtherfieldReplacesValue(reg: Registry, model: string, name: string, other: string, d: Dict<Json>)
    requires !Occurs(name, "__")
    requires "name" in Keys(d) && "value" in Keys(d) && "op" in Keys(d)
    requires Get(d, "name") == JStr(name) && Lookup(d, "otherfield") == JStr(other)
    requires other != "" && other in ModelOf(reg, model).attrs
    ensures CreateFilter(reg, model, Plain(d)) ==
            CreateOperation(reg, model, JStr(name), Get(d, "op"), FieldOf(Field(model, other)), None)
  {
  }

  /** The filters `from_dictionary` builds never compile: the compiler
      subscripts a leaf, and a Filter object is not subscriptable
      (TypeError); a junction raises NameError. */
  lemma ParsedFiltersNeverCompile(reg: Registry, model: string, f: Filter)
    requires Parsed(f)
    ensures CreateFilter(reg, model, f) == Err(if f.Leaf? then TypeError else NameError)
  {
  }

  /** Reading a request's filter dict and compiling the result always
      fails: with NameError when the dict has an "or" or an "and" key, with
      TypeError otherwise. */
  lemma RequestFiltersDoNotCompile(reg: Registry, model: string, d: Dict<Json>)
    requires FromDictionary(d).Ok?
    ensures CreateFilter(reg, model, FromDictionary(d).value) ==
            Err(if "or" in Keys(d) || "and" in Keys(d) then NameError else TypeError)
  {
    FromDictionaryParsed(d);
    ParsedFiltersNeverCompile(reg, model, FromDictionary(d).value);
  }
}
