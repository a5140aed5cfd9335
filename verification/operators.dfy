/** The closed table of search operators (`OPERATORS`): each name stands for
    a comparison taking the field alone, the field and an argument, or, for
    the relation quantifiers, the field, an argument and a field name. */
module Operators {

  /** Operators applied to the field alone. */
  datatype UnaryOp = IsNull | IsNotNull | Desc | Asc

  /** Operators comparing the field with an argument. */
  datatype BinaryOp = Eq | Ne | Gt | Lt | Ge | Le | ILike | Like | In | NotIn

  /** `has` (a to-one relation) and `any` (a to-many relation). */
  datatype Quantifier = Has | Any

  /** An entry of the table, by the number of parameters its lambda takes. */
  datatype Operator = Unary(u: UnaryOp) | Binary(b: BinaryOp) | Quant(q: Quantifier)

  const OPERATORS: map<string, Operator> := map[
    "is_null" := Unary(IsNull),
    "is_not_null" := Unary(IsNotNull),
    "desc" := Unary(Desc),
    "asc" := Unary(Asc),
    "==" := Binary(Eq),
    "eq" := Binary(Eq),
    "equals" := Binary(Eq),
    "equal_to" := Binary(Eq),
    "!=" := Binary(Ne),
    "ne" := Binary(Ne),
    "neq" := Binary(Ne),
    "not_equal_to" := Binary(Ne),
    "does_not_equal" := Binary(Ne),
    ">" := Binary(Gt),
    "gt" := Binary(Gt),
    "<" := Binary(Lt),
    "lt" := Binary(Lt),
    ">=" := Binary(Ge),
    "ge" := Binary(Ge),
    "gte" := Binary(Ge),
    "geq" := Binary(Ge),
    "<=" := Binary(Le),
    "le" := Binary(Le),
    "lte" := Binary(Le),
    "leq" := Binary(Le),
    "ilike" := Binary(ILike),
    "like" := Binary(Like),
    "in" := Binary(In),
    "not_in" := Binary(NotIn),
    "has" := Quant(Has),
    "any" := Quant(Any)
  ]

  /** The number of parameters of an operator's lambda (what
      `inspect.getargspec` counts). */
  function NumArgs(op: Operator): nat
  {
    match op
    case Unary(_) => 1
    case Binary(_) => 2
    case Quant(_) => 3
  }

  /** The arity of a named operator: exactly `is_null`, `is_not_null`,
      `desc` and `asc` take the field alone, exactly `has` and `any` take
      three parameters, and every other name takes two. */
  function Arity(name: string): (n: nat)
    requires name in OPERATORS
    ensures n == 1 <==> name in {"is_null", "is_not_null", "desc", "asc"}
    ensures n == 3 <==> name in {"has", "any"}
  {
    NumArgs(OPERATORS[name])
  }
}
