/**
  Symbolic values ("variable trackers"): what the tracer knows about one
  traced value, together with the guards that must hold for that knowledge
  to stay valid and, when known, the source it can be re-read from.
*/
module Values {
  import opened Classifier

  /** A guard predicate, kept abstract: only set membership matters here. */
  type Guard = nat

  /** An opaque host (Python) object, such as a module member or a
      parameter tensor, that only a collaborator can look into. */
  type HostValue = nat

  /** Provenance: how a value is re-read from the traced function's inputs. */
  datatype Source =
    | LocalSource(id: nat)
    | AttrSource(base: Source, member: Const)
    | NNModuleSource(inner: Source)

  /** Python types, as far as `isinstance` needs them. */
  datatype PyType =
    | TObject | TNoneType | TBool | TInt | TFloat | TStr | TType | TTuple | TList
    | TDict | TSet | TListIterator | TRange | TSlice | TSuper | TMap | TZip | TEnumerate
    | TTensor | TModule | TFunction | TMethod | TBuiltinFunction | TUser(id: nat)

  /** The payload of a literal. */
  datatype Const =
    | CNone
    | CBool(b: bool)
    | CInt(i: int)
    | CStr(s: string)
    | CType(t: PyType)
    | CTuple(elems: seq<Const>)
    | CList(elems: seq<Const>)
    | COpaque(id: nat, ty: PyType)   // a float or other literal not interpreted here
    | CBuiltin(op: Op)               // a builtin function object that is not a class

  datatype SeqKind = ListKind | TupleKind | NamedTupleKind(cls: nat)

  /** The variants of a symbolic value. */
  datatype Kind =
    | Constant(value: Const)
    | Tensor(node: nat, size: Option<seq<nat>>)
    | Sequence(seqKind: SeqKind, items: seq<Var>, mutable: bool)
    | ListIterator(elems: seq<Var>, index: nat, iterMutable: bool)
    | RangeValue(start: int, stop: int, step: int)
    | SliceValue(parts: seq<Var>)
    | NNModule(moduleKey: string, moduleType: nat)
    | Torch(member: HostValue)
    | PythonModule(mod: HostValue)
    | UserObject(host: HostValue, hostType: PyType)
    | UserFunction(fn: HostValue)
    | UserMethod(func: HostValue, receiver: Var)
    | GetAttrValue(obj: Var, name: Const)
    | SuperValue(superType: Var, superObj: Var)
    | Builtin(op: Op)

  /** A symbolic value: its variant, its guards and its provenance. */
  datatype Var = Var(kind: Kind, guards: set<Guard>, source: Option<Source>)

  datatype Option<T> = None | Some(value: T)

  /** Exceptions other than a graph break. */
  datatype Exc =
    | TypeError(mentionsArgument: bool)   // whether the message contains "argument"
    | IndexError | ValueError | KeyError | AttributeError | StopIteration
    | AssertionError | NotImplementedError | RecursionError
    | OtherError(name: string)

  /** How a call ends: with a value, with a graph break carrying its
      diagnostic, or with another exception. */
  datatype Completion =
    | Value(v: Var)
    | Unsupported(msg: string)
    | Raised(exc: Exc)

  /** What a symbolic handler does: returns `None` (declines) or completes. */
  datatype Handled = Declined | Completed(c: Completion)

  function Lit(c: Const): Var
  {
    Var(Constant(c), {}, None)
  }

  /** A tuple tracker built by a handler: immutable, without a source. */
  function TupleOf(items: seq<Var>, gs: set<Guard>): Var
  {
    Var(Sequence(TupleKind, items, false), gs, None)
  }

  /** `add_options` / `add_guards`: the same value with more guards. */
  function AddGuards(v: Var, gs: set<Guard>): (r: Var)
    ensures r.kind == v.kind && r.source == v.source
    ensures r.guards == v.guards + gs
  {
    v.(guards := v.guards + gs)
  }

  /** The union of the guards of a sequence of values. */
  function SeqGuards(vs: seq<Var>): (r: set<Guard>)
    ensures forall i :: 0 <= i < |vs| ==> vs[i].guards <= r
    ensures forall g :: g in r ==> exists i :: 0 <= i < |vs| && g in vs[i].guards
  {
    if vs == [] then {} else vs[0].guards + SeqGuards(vs[1..])
  }

  /** The union of the guards of the values of a keyword-argument map. */
  function KwGuards(kwargs: map<string, Var>): (r: set<Guard>)
    ensures forall k :: k in kwargs ==> kwargs[k].guards <= r
  {
    set k, g | k in kwargs && g in kwargs[k].guards :: g
  }

  /** `VariableTracker.propagate(self, args, kwargs.values())`: the guards of
      the callee and of every operand, merged by set union. */
  function Propagate(selfGuards: set<Guard>, args: seq<Var>, kwargs: map<string, Var>): (r: set<Guard>)
    ensures selfGuards <= r
    ensures forall i :: 0 <= i < |args| ==> args[i].guards <= r
    ensures forall k :: k in kwargs ==> kwargs[k].guards <= r
    ensures forall g :: g in r ==>
              || g in selfGuards
              || (exists i :: 0 <= i < |args| && g in args[i].guards)
              || (exists k :: k in kwargs && g in kwargs[k].guards)
  {
    selfGuards + SeqGuards(args) + KwGuards(kwargs)
  }

  /** `check_constant_args`: every operand is a literal. */
  predicate ConstantArgs(args: seq<Var>, kwargs: map<string, Var>)
  {
    && (forall i :: 0 <= i < |args| ==> args[i].kind.Constant?)
    && (forall k :: k in kwargs ==> kwargs[k].kind.Constant?)
  }

  /** `tensor_args`: some operand is a tensor. */
  predicate TensorArgs(args: seq<Var>, kwargs: map<string, Var>)
  {
    || (exists i :: 0 <= i < |args| && args[i].kind.Tensor?)
    || (exists k :: k in kwargs && kwargs[k].kind.Tensor?)
  }

  /** Literal operands are never tensors: a call cannot both be recorded in
      the graph and be constant-folded. */
  lemma ConstantArgsAreNotTensorArgs(args: seq<Var>, kwargs: map<string, Var>)
    ensures ConstantArgs(args, kwargs) ==> !TensorArgs(args, kwargs)
  {
  }

  predicate IsListOrTuple(v: Var)
  {
    v.kind.Sequence?
  }

  /** Python's `range` as a list of integers; `step` is never zero. */
  function RangeInts(start: int, stop: int, step: int): (r: seq<int>)
    requires step != 0
    ensures forall i :: 0 <= i < |r| ==> r[i] == start + i * step
    ensures forall i :: 0 <= i < |r| ==> if step > 0 then r[i] < stop else r[i] > stop
    ensures step > 0 ==> start + |r| * step >= stop
    ensures step < 0 ==> start + |r| * step <= stop
    decreases if step > 0 then stop - start else start - stop
  {
    if (step > 0 && start >= stop) || (step < 0 && start <= stop) then []
    else
      var rest := RangeInts(start + step, stop, step);
      var r := [start] + rest;
      assert forall i :: 0 <= i < |rest| ==> r[i + 1] == rest[i];
      NextMultiple(|rest|, step);
      assert forall i :: 0 <= i < |rest| ==> (i + 1) * step == i * step + step by {
        forall i | 0 <= i < |rest| { NextMultiple(i, step); }
      }
      r
  }

  lemma NextMultiple(i: int, step: int)
    ensures (i + 1) * step == i * step + step
  {
  }

  /** The literal elements of an iterable literal, each a constant value
      carrying the guards of the whole. */
  function ConstElements(c: Const, gs: set<Guard>): Option<seq<Var>>
  {
    match c
    case CTuple(cs) => Some(seq(|cs|, i requires 0 <= i < |cs| => Var(Constant(cs[i]), gs, None)))
    case CList(cs) => Some(seq(|cs|, i requires 0 <= i < |cs| => Var(Constant(cs[i]), gs, None)))
    case CStr(s) => Some(seq(|s|, i requires 0 <= i < |s| => Var(Constant(CStr([s[i]])), gs, None)))
    case _ => None
  }

  /** The sequence-unpacking capability (`has_unpack_var_sequence` and
      `unpack_var_sequence`): the elements of a value whose length is known
      without running host code, or `None`. */
  function Unpack(v: Var): Option<seq<Var>>
  {
    match v.kind
    case Sequence(_, items, _) => Some(items)
    case ListIterator(items, index, _) => Some(if index <= |items| then items[index..] else [])
    case RangeValue(start, stop, step) =>
      if step == 0 then None
      else
        var xs := RangeInts(start, stop, step);
        Some(seq(|xs|, i requires 0 <= i < |xs| => Lit(CInt(xs[i]))))
    case Constant(c) => ConstElements(c, v.guards)
    case _ => None
  }

  /** The Python type of a literal payload. */
  function TypeOfConst(c: Const): PyType
  {
    match c
    case CNone => TNoneType
    case CBool(_) => TBool
    case CInt(_) => TInt
    case CStr(_) => TStr
    case CType(_) => TType
    case CTuple(_) => TTuple
    case CList(_) => TList
    case COpaque(_, t) => t
    case CBuiltin(_) => TBuiltinFunction
  }

  /** The builtins that are classes (`int`, `str`, `list`, `range`, `zip`,
      ...), with the type each one is; the others are plain builtin
      functions. */
  function BuiltinClass(op: Op): Option<PyType>
  {
    match op
    case Pure(f) =>
      (match f
       case Bool => Some(TBool)
       case Int => Some(TInt)
       case Float => Some(TFloat)
       case Str => Some(TStr)
       case List => Some(TList)
       case Tuple => Some(TTuple)
       case Dict => Some(TDict)
       case SetOf => Some(TSet)
       case TypeOf => Some(TType)
       case _ => None)
    case Special(s) =>
      (match s
       case Range => Some(TRange)
       case Slice => Some(TSlice)
       case Super => Some(TSuper)
       case Map => Some(TMap)
       case Zip => Some(TZip)
       case Enumerate => Some(TEnumerate)
       case _ => None)
    case _ => None
  }

  /** The host object a builtin tracker stands for (`self.fn`): the class
      itself for a builtin class, the function object otherwise. */
  function BuiltinValue(op: Op): (c: Const)
    ensures BuiltinClass(op).Some? ==> c == CType(BuiltinClass(op).value)
    ensures BuiltinClass(op).None? ==> TypeOfConst(c) == TBuiltinFunction
  {
    match BuiltinClass(op)
    case Some(t) => CType(t)
    case None => CBuiltin(op)
  }

  /** `python_type()`: `None` where the variant raises NotImplementedError.
      A builtin's type is the type of the object it stands for: `type` for a
      builtin class, the builtin-function type otherwise. */
  function PythonType(v: Var): (r: Option<PyType>)
    ensures v.kind.Constant? ==> r == Some(TypeOfConst(v.kind.value))
    ensures v.kind.Builtin? ==> r == Some(if BuiltinClass(v.kind.op).Some? then TType else TBuiltinFunction)
  {
    match v.kind
    case Constant(c) => Some(TypeOfConst(c))
    case Tensor(_, _) => Some(TTensor)
    case Sequence(k, _, _) =>
      Some(match k case ListKind => TList case TupleKind => TTuple case NamedTupleKind(c) => TUser(c))
    case ListIterator(_, _, _) => Some(TListIterator)
    case RangeValue(_, _, _) => Some(TRange)
    case SliceValue(_) => Some(TSlice)
    case NNModule(_, t) => Some(TUser(t))
    case PythonModule(_) => Some(TModule)
    case UserObject(_, t) => Some(t)
    case UserFunction(_) => Some(TFunction)
    case UserMethod(_, _) => Some(TMethod)
    case Builtin(op) => Some(TypeOfConst(BuiltinValue(op)))
    case _ => None
  }

  /** `issubclass` over the modelled types: reflexive, everything is an
      `object`, and `bool` is a subclass of `int`. */
  predicate IsSubclass(t: PyType, u: PyType)
  {
    t == u || u == TObject || (t == TBool && u == TInt)
  }

  lemma SubclassIsPartialOrder(t: PyType, u: PyType, w: PyType)
    ensures IsSubclass(t, t)
    ensures IsSubclass(t, u) && IsSubclass(u, w) ==> IsSubclass(t, w)
    ensures IsSubclass(t, u) && IsSubclass(u, t) ==> t == u
  {
  }

  /** `as_python_constant()`: the host value of a literal, of a builtin, or
      of a list or tuple all of whose items have one; `None` where the
      variant raises NotImplementedError. */
  function AsPythonConstant(v: Var): (r: Option<Const>)
    ensures v.kind.Constant? ==> r == Some(v.kind.value)
    ensures v.kind.Builtin? ==> r == Some(BuiltinValue(v.kind.op))
    ensures v.kind.Sequence? ==>
              (r.Some? <==> !v.kind.seqKind.NamedTupleKind?
                            && forall i :: 0 <= i < |v.kind.items| ==> AsPythonConstant(v.kind.items[i]).Some?)
    ensures v.kind.Sequence? && r.Some? ==>
              && (if v.kind.seqKind.ListKind? then r.value.CList? else r.value.CTuple?)
              && |r.value.elems| == |v.kind.items|
              && forall i :: 0 <= i < |v.kind.items| ==> r.value.elems[i] == AsPythonConstant(v.kind.items[i]).value
    ensures r.Some? ==> v.kind.Constant? || v.kind.Sequence? || v.kind.Builtin?
    decreases v
  {
    match v.kind
    case Constant(c) => Some(c)
    case Builtin(op) => Some(BuiltinValue(op))
    case Sequence(k, items, _) =>
      if !k.NamedTupleKind? && forall i | 0 <= i < |items| :: AsPythonConstant(items[i]).Some? then
        var cs := seq(|items|, i requires 0 <= i < |items| => AsPythonConstant(items[i]).value);
        Some(if k.ListKind? then CList(cs) else CTuple(cs))
      else None
    case _ => None
  }

  predicate IsPythonConstant(v: Var)
  {
    AsPythonConstant(v).Some?
  }

  /** The integer a literal stands for when Python accepts it as an index
      (`int` or `bool`). */
  function IndexOf(c: Const): Option<int>
  {
    match c
    case CInt(i) => Some(i)
    case CBool(b) => Some(if b then 1 else 0)
    case _ => None
  }
}
