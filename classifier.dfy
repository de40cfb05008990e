/**
  The built-in operations the dispatcher knows about and the two fixed
  membership sets over them: the operations that may be constant-folded over
  literal operands, and the operations that may be recorded directly as a
  call node in the output graph.
*/
module Classifier {

  /** One built-in callable: a pure Python builtin, an `operator` function,
      a function of the `math` namespace, a builtin that only has a symbolic
      handler (`functools.reduce` among them), or some other builtin that is
      in neither set and has no symbolic handler. */
  datatype Op =
    | Pure(f: PureFn)
    | Operator(o: OperatorFn)
    | MathFn(name: string)
    | Special(s: SpecialFn)
    | OtherBuiltin(id: nat)

  /** The pure builtins of the constant-fold set. */
  datatype PureFn =
    | Abs | All | Any | Bool | Callable | Chr | Dict | Divmod | Float | Int | Len
    | List | Max | Min | Ord | Pow | Repr | Round | SetOf | Str | Sum | Tuple | TypeOf

  /** The `operator` module: unary and binary operators and their in-place
      forms. */
  datatype OperatorFn =
    | Pos | Neg | Not | Invert | OpPow | Mul | MatMul | FloorDiv | TrueDiv | Mod
    | Add | Sub | GetItem | LShift | RShift | And | Or | Xor
    | IPow | IMul | IMatMul | IFloorDiv | ITrueDiv | IMod | IAdd | ISub
    | ILShift | IRShift | IAnd | IXor | IOr

  /** The builtins that have a symbolic handler but are in neither set. */
  datatype SpecialFn =
    | Range | Slice | Iter | Zip | Enumerate | IsInstance | Super | Next
    | HasAttr | Map | Reduce | GetAttr

  /** The operator-module family. */
  predicate IsOperatorFn(op: Op)
  {
    op.Operator?
  }

  /** Membership in the constant-fold set: the pure builtins, the operator
      family and every builtin function of `math`. */
  predicate CanConstantFold(op: Op)
  {
    op.Pure? || IsOperatorFn(op) || op.MathFn?
  }

  /** Membership in the graph-insertable set: exactly the operator family. */
  predicate CanInsertInGraph(op: Op)
  {
    IsOperatorFn(op)
  }

  /** Every graph-insertable operation is also constant-foldable, so an
      insertable operation over all-literal operands can always be folded. */
  lemma InsertableIsFoldable(op: Op)
    ensures CanInsertInGraph(op) ==> CanConstantFold(op)
  {
  }

  /** Neither `functools.reduce` nor `isinstance`, `getattr`, `zip`,
      `enumerate` or `range` is foldable or insertable: they are reached
      only through their handlers. */
  lemma HandlerOnlyOps(op: Op)
    requires op.Special?
    ensures !CanConstantFold(op) && !CanInsertInGraph(op)
  {
  }
}
