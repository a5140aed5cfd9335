/** Model introspection: what the system learns about a mapped class by
    reflection (`getattr`, `dir`, the mapper) is given here as an explicit
    table per model. */
module Schema {

  import opened Wrappers
  import opened Dicts
  import opened Json
  import opened Text

  /** The column types the system tells apart. */
  datatype FieldType = Date | DateTime | Interval | OtherType

  /** Where an association proxy ends: a column or a relationship of the
      model it crosses to. */
  datatype Remote = RemoteColumn(ftype: FieldType) | RemoteRelation(target: string)

  /** What `getattr(model, name)` finds on a mapped class. */
  datatype Attribute =
    | Column(ftype: FieldType, primaryKey: bool)  // a mapped column
    | Relation(target: string)                    // a relationship to another model
    | Proxy(owner: string, remote: Remote)        // an association proxy; `owner` is the class holding its remote attribute
    | Hybrid(expr: Option<FieldType>)             // a hybrid property, with the type of the SQL expression it gives on the class, if any
    | Other                                       // any other class attribute (methods, constants)

  /** One mapped class: `members` is what `dir(model)` lists, `attrs` what
      `getattr` finds, and the five lists are what the model wrapper reports
      as columns, relations, proxies, hybrids and further attributes. */
  datatype Model = Model(
    members: seq<string>,
    attrs: map<string, Attribute>,
    columns: seq<string>,
    relations: seq<string>,
    proxies: seq<string>,
    hybrids: seq<string>,
    attributes: seq<string>)

  /** The mapped classes by name. */
  type Registry = map<string, Model>

  /** A class the registry does not know has no attributes at all. */
  function ModelOf(reg: Registry, name: string): Model
  {
    if name in reg then reg[name] else Model([], map[], [], [], [], [], [])
  }

  /** `getattr(model, name)`: AttributeError when the class has no such attribute. */
  function GetAttr(reg: Registry, model: string, name: string): (r: Result<Attribute, Error>)
    ensures r.Ok? <==> name in ModelOf(reg, model).attrs
    ensures r.Ok? ==> r.value == ModelOf(reg, model).attrs[name]
    ensures r.Err? ==> r.error == AttributeError
  {
    var m := ModelOf(reg, model);
    if name in m.attrs then Ok(m.attrs[name]) else Err(AttributeError)
  }

  /** `getattr(model, name)` with a name taken from request data: a name that
      is not a string raises TypeError. */
  function GetAttrNamed(reg: Registry, model: string, name: Json): (r: Result<(string, Attribute), Error>)
    ensures !name.JStr? ==> r == Err(TypeError)
    ensures name.JStr? ==> (r.Ok? <==> GetAttr(reg, model, name.s).Ok?)
    ensures r.Ok? ==> name == JStr(r.value.0) && r.value.1 == ModelOf(reg, model).attrs[name.s]
  {
    if name.JStr? then
      var a :- GetAttr(reg, model, name.s);
      Ok((name.s, a))
    else Err(TypeError)
  }

  /** `get_field_type`: the type of a SQL expression (a hybrid's), or of
      the column behind a mapped attribute or an association proxy's remote
      attribute; None for relations and for attributes that are neither. */
  function GetFieldType(reg: Registry, model: string, name: string): (r: Result<Option<FieldType>, Error>)
    ensures r.Err? <==> name !in ModelOf(reg, model).attrs
    ensures r.Ok? && r.value.Some? ==>
      var a := ModelOf(reg, model).attrs[name];
      (a.Column? && a.ftype == r.value.value) || (a.Proxy? && a.remote == RemoteColumn(r.value.value)) ||
      (a.Hybrid? && a.expr == Some(r.value.value))
  {
    var a :- GetAttr(reg, model, name);
    match a
    case Column(t, _) => Ok(Some(t))
    case Proxy(_, RemoteColumn(t)) => Ok(Some(t))
    case Hybrid(Some(t)) => Ok(Some(t))
    case _ => Ok(None)
  }

  /** The attribute carries SQLAlchemy's column operators (`like`, `ilike`,
      `in_`, `asc`, `desc`): a mapped column or relationship through its
      comparator, and a hybrid that gives a SQL expression. An association
      proxy, a method or a constant has none of them. */
  predicate HasColumnOperators(a: Attribute)
  {
    a.Column? || a.Relation? || (a.Hybrid? && a.expr.Some?)
  }

  /** The attribute has `has` and `any`: a mapped column or relationship
      through its comparator, and an association proxy. */
  predicate HasQuantifiers(a: Attribute)
  {
    a.Column? || a.Relation? || a.Proxy?
  }

  /** `is_date_field`: the field is a Date or a DateTime column. */
  function IsDateField(reg: Registry, model: string, name: string): (r: Result<bool, Error>)
    ensures r.Err? <==> GetFieldType(reg, model, name).Err?
    ensures r.Ok? ==> (r.value <==> GetFieldType(reg, model, name).value in {Some(Date), Some(DateTime)})
  {
    var t :- GetFieldType(reg, model, name);
    Ok(t == Some(Date) || t == Some(DateTime))
  }

  /** `is_interval_field`: the field is an Interval column. */
  function IsIntervalField(reg: Registry, model: string, name: string): (r: Result<bool, Error>)
    ensures r.Err? <==> GetFieldType(reg, model, name).Err?
    ensures r.Ok? ==> (r.value <==> GetFieldType(reg, model, name).value == Some(Interval))
  {
    var t :- GetFieldType(reg, model, name);
    Ok(t == Some(Interval))
  }

  /** `get_related_model`: the class at the other end of a relationship or an
      association proxy, None for every other name. A proxy that ends at a
      relationship leads to that relationship's class; one that ends at a
      column leads to the class owning the column. */
  function GetRelatedModel(reg: Registry, model: string, name: string): (r: Option<string>)
    ensures r.Some? ==> name in ModelOf(reg, model).attrs
    ensures r.Some? <==> name in ModelOf(reg, model).attrs &&
                         (ModelOf(reg, model).attrs[name].Relation? || ModelOf(reg, model).attrs[name].Proxy?)
  {
    var m := ModelOf(reg, model);
    if name !in m.attrs then None
    else match m.attrs[name]
      case Relation(t) => Some(t)
      case Proxy(_, RemoteRelation(t)) => Some(t)
      case Proxy(owner, RemoteColumn(_)) => Some(owner)
      case _ => None
  }

  /** Class attributes that are never reported as relations. */
  const RELATION_BLACKLIST: seq<string> := ["query", "query_class", "_sa_class_manager", "_decl_class_registry"]

  /** A name `get_relations` keeps. */
  predicate IsRelationName(reg: Registry, model: string, k: string)
  {
    !StartsWith(k, "__") && k !in RELATION_BLACKLIST && GetRelatedModel(reg, model, k).Some?
  }

  /** `get_relations`: the names `dir(model)` lists that are neither dunder
      names nor blacklisted and that lead to a related class, in listing order. */
  function GetRelations(reg: Registry, model: string): (r: seq<string>)
    ensures forall k :: k in r <==> k in ModelOf(reg, model).members && IsRelationName(reg, model, k)
  {
    KeepRelations(reg, model, ModelOf(reg, model).members)
  }

  function KeepRelations(reg: Registry, model: string, names: seq<string>): (r: seq<string>)
    ensures forall k :: k in r <==> k in names && IsRelationName(reg, model, k)
    ensures |r| <= |names|
  {
    if names == [] then []
    else
      var rest := KeepRelations(reg, model, names[1..]);
      assert forall k :: k in names <==> k == names[0] || k in names[1..];
      if IsRelationName(reg, model, names[0]) then [names[0]] + rest else rest
  }

  /** `primary_key_names`: the primary-key columns among the class members,
      in listing order. */
  function PrimaryKeyNames(reg: Registry, model: string): (r: seq<string>)
    ensures forall k :: k in r <==> k in ModelOf(reg, model).members && k in ModelOf(reg, model).attrs &&
                                     ModelOf(reg, model).attrs[k].Column? && ModelOf(reg, model).attrs[k].primaryKey
  {
    KeepPrimaryKeys(ModelOf(reg, model), ModelOf(reg, model).members)
  }

  predicate IsPrimaryKey(m: Model, k: string)
  {
    k in m.attrs && m.attrs[k].Column? && m.attrs[k].primaryKey
  }

  function KeepPrimaryKeys(m: Model, names: seq<string>): (r: seq<string>)
    ensures forall k :: k in r <==> k in names && IsPrimaryKey(m, k)
  {
    if names == [] then []
    else
      var rest := KeepPrimaryKeys(m, names[1..]);
      assert forall k :: k in names <==> k == names[0] || k in names[1..];
      if IsPrimaryKey(m, names[0]) then [names[0]] + rest else rest
  }
}
