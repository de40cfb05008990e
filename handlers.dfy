/**
  The symbolic handlers `call_<name>` of `BuiltinVariable` that do not call
  back into the dispatcher, and the binding of a call's operands to a
  handler's Python parameters.
*/
module Handlers {
  import opened Classifier
  import opened Values
  import opened Collaborators

  /** The Python parameter list of a handler (after `self` and `tx`). */
  datatype Signature = Signature(params: seq<string>, required: nat, varArgs: bool, varKw: bool)

  /** The operands bound to a handler's parameters: one entry per named
      parameter (`None` when it was left to its default), then what `*args`
      and `**kwargs` collect. */
  datatype Bound = Bound(fixed: seq<Option<Var>>, rest: seq<Var>, restKw: map<string, Var>)

  /** Names already bound by the handler's own `self` and `tx` parameters. */
  const Reserved: set<string> := {"self", "tx"}

  function Smaller(a: int, b: int): int { if a <= b then a else b }

  /** The parameters that positional operands fill. */
  function Positional(sig: Signature, args: seq<Var>): seq<string>
  {
    sig.params[..Smaller(|args|, |sig.params|)]
  }

  /** When Python accepts `handler(tx, *args, **kwargs)`: not too many
      positional operands, no keyword that is unknown or already bound, and
      every required parameter given. Every violation is a TypeError whose
      message mentions "argument". */
  predicate Accepts(sig: Signature, args: seq<Var>, kwargs: map<string, Var>)
  {
    && (sig.varArgs || |args| <= |sig.params|)
    && (forall k :: k in kwargs ==> k !in Reserved && k !in Positional(sig, args))
    && (forall k :: k in kwargs ==> sig.varKw || k in sig.params)
    && (forall i :: 0 <= i < sig.required && i < |sig.params| ==> i < |args| || sig.params[i] in kwargs)
  }

  /** Python's binding of operands to a handler's parameters. */
  function Bind(sig: Signature, args: seq<Var>, kwargs: map<string, Var>): (r: Option<Bound>)
    ensures r.Some? <==> Accepts(sig, args, kwargs)
    ensures r.Some? ==> |r.value.fixed| == |sig.params|
    ensures r.Some? ==> forall i :: 0 <= i < |args| && i < |sig.params| ==> r.value.fixed[i] == Some(args[i])
    ensures r.Some? ==> forall i :: 0 <= i < |sig.params| && sig.params[i] in kwargs ==>
                          r.value.fixed[i] == Some(kwargs[sig.params[i]])
    ensures r.Some? ==> forall i :: |args| <= i < |sig.params| && sig.params[i] !in kwargs ==>
                          r.value.fixed[i] == None
    ensures r.Some? ==> r.value.rest == (if |args| <= |sig.params| then [] else args[|sig.params|..])
    ensures r.Some? ==> forall k :: k in r.value.restKw <==> k in kwargs && k !in sig.params
  {
    if !Accepts(sig, args, kwargs) then None
    else
      var fixed := seq(|sig.params|, i requires 0 <= i < |sig.params| =>
                       if i < |args| then Some(args[i])
                       else if sig.params[i] in kwargs then Some(kwargs[sig.params[i]])
                       else None);
      var rest := if |args| <= |sig.params| then [] else args[|sig.params|..];
      var restKw := map k | k in kwargs && k !in sig.params :: kwargs[k];
      assert forall i :: 0 <= i < |sig.params| && i < |args| ==> sig.params[i] in Positional(sig, args);
      Some(Bound(fixed, rest, restKw))
  }

  /** The handler table: which `call_<name>` method the builtin's name selects. */
  datatype Handler =
    | MinMaxH | RangeH | SliceH | IterTupleListH | ZipH | EnumerateH | MulH
    | LenH | AddH | IAddH | GetItemH | IsInstanceH | SuperH | NextH | HasAttrH
    | MapH | SumH | ReduceH | GetAttrH

  function HandlerFor(op: Op): Option<Handler>
  {
    match op
    case Pure(f) =>
      (match f
       case Min | Max => Some(MinMaxH)
       case Tuple | List => Some(IterTupleListH)
       case Len => Some(LenH)
       case Sum => Some(SumH)
       case _ => None)
    case Operator(o) =>
      (match o
       case Mul => Some(MulH)
       case Add => Some(AddH)
       case IAdd => Some(IAddH)
       case GetItem => Some(GetItemH)
       case _ => None)
    case Special(s) =>
      Some(match s
           case Range => RangeH
           case Slice => SliceH
           case Iter => IterTupleListH
           case Zip => ZipH
           case Enumerate => EnumerateH
           case IsInstance => IsInstanceH
           case Super => SuperH
           case Next => NextH
           case HasAttr => HasAttrH
           case Map => MapH
           case Reduce => ReduceH
           case GetAttr => GetAttrH)
    case _ => None
  }

  /** The `__name__` of a builtin, for the builtins whose name is fixed. */
  function OpName(op: Op): string
    requires !op.MathFn? && !op.OtherBuiltin?
  {
    match op
    case Pure(f) =>
      (match f
       case Abs => "abs" case All => "all" case Any => "any" case Bool => "bool"
       case Callable => "callable" case Chr => "chr" case Dict => "dict" case Divmod => "divmod"
       case Float => "float" case Int => "int" case Len => "len" case List => "list"
       case Max => "max" case Min => "min" case Ord => "ord" case Pow => "pow"
       case Repr => "repr" case Round => "round" case SetOf => "set" case Str => "str"
       case Sum => "sum" case Tuple => "tuple" case TypeOf => "type")
    case Operator(o) =>
      (match o
       case Pos => "pos" case Neg => "neg" case Not => "not_" case Invert => "invert"
       case OpPow => "pow" case Mul => "mul" case MatMul => "matmul" case FloorDiv => "floordiv"
       case TrueDiv => "truediv" case Mod => "mod" case Add => "add" case Sub => "sub"
       case GetItem => "getitem" case LShift => "lshift" case RShift => "rshift"
       case And => "and_" case Or => "or_" case Xor => "xor"
       case IPow => "ipow" case IMul => "imul" case IMatMul => "imatmul"
       case IFloorDiv => "ifloordiv" case ITrueDiv => "itruediv" case IMod => "imod"
       case IAdd => "iadd" case ISub => "isub" case ILShift => "ilshift" case IRShift => "irshift"
       case IAnd => "iand" case IXor => "ixor" case IOr => "ior")
    case Special(s) =>
      (match s
       case Range => "range" case Slice => "slice" case Iter => "iter" case Zip => "zip"
       case Enumerate => "enumerate" case IsInstance => "isinstance" case Super => "super"
       case Next => "next" case HasAttr => "hasattr" case Map => "map" case Reduce => "reduce"
       case GetAttr => "getattr")
  }

  /** The builtin names `n` for which `BuiltinVariable` defines the handler
      as its method `call_<n>` (`call_min = call_max = _call_min_max`, and
      likewise for `iter`, `tuple` and `list`). */
  function HandlerNames(h: Handler): set<string>
  {
    match h
    case MinMaxH => {"min", "max"}
    case RangeH => {"range"}
    case SliceH => {"slice"}
    case IterTupleListH => {"iter", "tuple", "list"}
    case ZipH => {"zip"}
    case EnumerateH => {"enumerate"}
    case MulH => {"mul"}
    case LenH => {"len"}
    case AddH => {"add"}
    case IAddH => {"iadd"}
    case GetItemH => {"getitem"}
    case IsInstanceH => {"isinstance"}
    case SuperH => {"super"}
    case NextH => {"next"}
    case HasAttrH => {"hasattr"}
    case MapH => {"map"}
    case SumH => {"sum"}
    case ReduceH => {"reduce"}
    case GetAttrH => {"getattr"}
  }

  /** Every name with a `call_<name>` method. */
  const AllHandlerNames: set<string> :=
    {"min", "max", "range", "slice", "iter", "tuple", "list", "zip", "enumerate", "mul", "len",
     "add", "iadd", "getitem", "isinstance", "super", "next", "hasattr", "map", "sum", "reduce",
     "getattr"}

  /** The table is the lookup `getattr(self, f"call_{fn.__name__}", None)`:
      a builtin gets the handler defined as `call_` followed by its
      `__name__`, and no handler when no method has that name. */
  lemma HandlerLookupIsByName(op: Op)
    requires !op.MathFn? && !op.OtherBuiltin?
    ensures HandlerFor(op).Some? ==> OpName(op) in HandlerNames(HandlerFor(op).value)
    ensures HandlerFor(op).None? ==> OpName(op) !in AllHandlerNames
    ensures forall h :: HandlerNames(h) <= AllHandlerNames
  {
    match op
    case Pure(f) => PureLookupByName(f);
    case Operator(o) => OperatorLookupByName(o);
    case Special(s) =>
  }

  lemma PureLookupByName(f: PureFn)
    ensures HandlerFor(Pure(f)).Some? ==> OpName(Pure(f)) in HandlerNames(HandlerFor(Pure(f)).value)
    ensures HandlerFor(Pure(f)).None? ==> OpName(Pure(f)) !in AllHandlerNames
  {
  }

  lemma OperatorLookupByName(o: OperatorFn)
    ensures HandlerFor(Operator(o)).Some? ==> OpName(Operator(o)) in HandlerNames(HandlerFor(Operator(o)).value)
    ensures HandlerFor(Operator(o)).None? ==> OpName(Operator(o)) !in AllHandlerNames
  {
  }

  /** Each handler's Python parameters. */
  function SignatureOf(h: Handler): (sig: Signature)
    ensures sig.required <= |sig.params|
    ensures forall i, j :: 0 <= i < j < |sig.params| ==> sig.params[i] != sig.params[j]
    ensures forall i :: 0 <= i < |sig.params| ==> sig.params[i] !in Reserved
  {
    match h
    case MinMaxH => Signature(["a", "b"], 2, false, false)
    case RangeH => Signature([], 0, true, true)
    case SliceH => Signature([], 0, true, false)
    case IterTupleListH => Signature(["obj"], 0, false, false)
    case ZipH => Signature([], 0, true, false)
    case EnumerateH => Signature(["arg"], 1, false, false)
    case MulH => Signature(["a", "b"], 2, false, false)
    case LenH => Signature([], 0, true, true)
    case AddH => Signature([], 0, true, true)
    case IAddH => Signature([], 0, true, true)
    case GetItemH => Signature([], 0, true, true)
    case IsInstanceH => Signature(["arg", "isinstance_type"], 2, false, false)
    case SuperH => Signature(["a", "b"], 2, false, false)
    case NextH => Signature(["arg"], 1, false, false)
    case HasAttrH => Signature(["obj", "attr"], 2, false, false)
    case MapH => Signature(["fn", "seq"], 2, false, false)
    case SumH => Signature(["seq"], 1, false, true)
    case ReduceH => Signature(["function", "iterable", "initializer"], 2, false, false)
    case GetAttrH => Signature(["obj", "name_var", "default"], 2, false, false)
  }

  /** Called with positional operands only, a handler accepts exactly the
      counts between its required parameters and its named parameters (no
      upper bound with `*args`). */
  lemma PositionalArity(h: Handler, args: seq<Var>)
    ensures Accepts(SignatureOf(h), args, map[]) <==>
              && SignatureOf(h).required <= |args|
              && (SignatureOf(h).varArgs || |args| <= |SignatureOf(h).params|)
  {
    var sig := SignatureOf(h);
    if sig.required > |args| {
      var kw: map<string, Var> := map[];
      assert !(|args| < |args| || sig.params[|args|] in kw);
    }
  }

  const ArgumentError: Handled := Completed(Raised(TypeError(true)))

  function Returns(v: Var): Handled { Completed(Value(v)) }

  // ---------------------------------------------------------------- min / max

  /** `_call_min_max`: with a tensor operand, the tensor goes first; a
      literal other operand becomes a `torch.clamp` bound, anything else an
      element-wise `torch.maximum`/`torch.minimum`. Without a tensor the
      handler declines. */
  function MinMax(env: Env, op: Op, a: Var, b: Var): (r: Handled)
    requires op == Pure(Min) || op == Pure(Max)
    ensures r.Declined? <==> !a.kind.Tensor? && !b.kind.Tensor?
    ensures a.kind.Tensor? && IsPythonConstant(b) ==>
              r == Completed(env.callTorch(Clamp, [a], map[(if op == Pure(Max) then "min" else "max") := b]))
    ensures !a.kind.Tensor? && b.kind.Tensor? && IsPythonConstant(a) ==>
              r == Completed(env.callTorch(Clamp, [b], map[(if op == Pure(Max) then "min" else "max") := a]))
    ensures a.kind.Tensor? && !IsPythonConstant(b) ==>
              r == Completed(env.callTorch(if op == Pure(Max) then Maximum else Minimum, [a, b], map[]))
    ensures !a.kind.Tensor? && b.kind.Tensor? && !IsPythonConstant(a) ==>
              r == Completed(env.callTorch(if op == Pure(Max) then Maximum else Minimum, [b, a], map[]))
  {
    if a.kind.Tensor? || b.kind.Tensor? then
      var t := if a.kind.Tensor? then a else b;
      var other := if a.kind.Tensor? then b else a;
      if IsPythonConstant(other) then
        var bound := if op == Pure(Max) then "min" else "max";
        Completed(env.callTorch(Clamp, [t], map[bound := other]))
      else
        Completed(env.callTorch(if op == Pure(Max) then Maximum else Minimum, [t, other], map[]))
    else
      Declined
  }

  // ---------------------------------------------------------------- range

  predicate AllIndices(args: seq<Var>)
    requires forall i :: 0 <= i < |args| ==> args[i].kind.Constant?
  {
    forall i :: 0 <= i < |args| ==> IndexOf(args[i].kind.value).Some?
  }

  /** `call_range`: over literal operands, Python's `range(...)`; any
      non-literal operand makes it decline. */
  function RangeCall(args: seq<Var>, kwargs: map<string, Var>): (r: Handled)
    ensures !ConstantArgs(args, kwargs) <==> r.Declined?
    ensures r.Completed? && r.c.Value? ==>
              && kwargs == map[] && 1 <= |args| <= 3
              && r.c.v.kind.RangeValue? && r.c.v.kind.step != 0 && r.c.v.guards == {}
    ensures ConstantArgs(args, kwargs) && kwargs == map[] && |args| == 1 && IndexOf(args[0].kind.value).Some? ==>
              r == Returns(Var(RangeValue(0, IndexOf(args[0].kind.value).value, 1), {}, None))
    ensures ConstantArgs(args, kwargs) && (kwargs != map[] || |args| == 0 || |args| > 3) ==> r == ArgumentError
    ensures ConstantArgs(args, kwargs) && kwargs == map[] && 1 <= |args| <= 3 && !AllIndices(args) ==>
              r == Completed(Raised(TypeError(false)))
    ensures ConstantArgs(args, kwargs) && kwargs == map[] && 2 <= |args| <= 3 && AllIndices(args) ==>
              var start := IndexOf(args[0].kind.value).value;
              var stop := IndexOf(args[1].kind.value).value;
              var step := if |args| == 3 then IndexOf(args[2].kind.value).value else 1;
              && (step == 0 ==> r == Completed(Raised(ValueError)))
              && (step != 0 ==> r == Returns(Var(RangeValue(start, stop, step), {}, None)))
  {
    if !ConstantArgs(args, kwargs) then Declined
    else if kwargs != map[] || |args| == 0 || |args| > 3 then ArgumentError
    else if !AllIndices(args) then Completed(Raised(TypeError(false)))
    else
      var n := IndexOf(args[0].kind.value).value;
      var start := if |args| == 1 then 0 else n;
      var stop := if |args| == 1 then n else IndexOf(args[1].kind.value).value;
      var step := if |args| == 3 then IndexOf(args[2].kind.value).value else 1;
      if step == 0 then Completed(Raised(ValueError))
      else Returns(Var(RangeValue(start, stop, step), {}, None))
  }

  // ---------------------------------------------------------------- slice, super

  /** `call_slice`: a slice over the raw operands, unconditionally. */
  function SliceCall(args: seq<Var>): (r: Handled)
    ensures r.Completed? && r.c.Value? && r.c.v.kind == SliceValue(args)
  {
    Returns(Var(SliceValue(args), {}, None))
  }

  /** `call_super`: a proxy over the two operands. */
  function SuperCall(a: Var, b: Var): (r: Handled)
    ensures r.Completed? && r.c.Value? && r.c.v.kind.SuperValue?
    ensures r.c.v.kind.superType == a && r.c.v.kind.superObj == b
  {
    Returns(Var(SuperValue(a, b), {}, None))
  }

  // ---------------------------------------------------------------- iter / tuple / list

  /** The container `cls_for(fn)` builds for `iter`, `tuple` and `list`. */
  function FreshContainer(op: Op, items: seq<Var>): (v: Var)
    requires op == Special(Iter) || op == Pure(Tuple) || op == Pure(List)
    ensures Unpack(v) == Some(items)
    ensures op == Pure(List) ==> v.kind == Sequence(ListKind, items, true)
    ensures op == Pure(Tuple) ==> v.kind == Sequence(TupleKind, items, true)
    ensures op == Special(Iter) ==> v.kind == ListIterator(items, 0, true)
  {
    if op == Special(Iter) then Var(ListIterator(items, 0, true), {}, None)
    else Var(Sequence(if op == Pure(List) then ListKind else TupleKind, items, true), {}, None)
  }

  /** `_call_iter_tuple_list`: with no operand an empty mutable container;
      with an unpackable operand a mutable container of its elements;
      otherwise it declines. */
  function IterTupleList(op: Op, obj: Option<Var>): (r: Handled)
    requires op == Special(Iter) || op == Pure(Tuple) || op == Pure(List)
    ensures obj.None? ==> r.Completed? && r.c.Value? && Unpack(r.c.v) == Some([])
    ensures obj.Some? ==> (r.Declined? <==> Unpack(obj.value).None?)
    ensures obj.Some? && Unpack(obj.value).Some? ==>
              r.Completed? && r.c.Value? && Unpack(r.c.v) == Unpack(obj.value)
    ensures obj.None? ==> r == Returns(FreshContainer(op, []))
    ensures obj.Some? && Unpack(obj.value).Some? ==> r == Returns(FreshContainer(op, Unpack(obj.value).value))
  {
    match obj
    case None => Returns(FreshContainer(op, []))
    case Some(o) =>
      match Unpack(o)
      case Some(items) => Returns(FreshContainer(op, items))
      case None => Declined
  }

  // ---------------------------------------------------------------- zip over unpackable operands

  /** The length of the shortest list; zero when there is none. */
  function MinLen(lists: seq<seq<Var>>): (n: nat)
    ensures forall j :: 0 <= j < |lists| ==> n <= |lists[j]|
    ensures |lists| > 0 ==> exists j :: 0 <= j < |lists| && n == |lists[j]|
  {
    if |lists| == 0 then 0
    else if |lists| == 1 then |lists[0]|
    else
      var m := MinLen(lists[1..]);
      assert forall j :: 1 <= j < |lists| ==> lists[1..][j - 1] == lists[j];
      if |lists[0]| <= m then |lists[0]| else m
  }

  /** Host `zip` over the unpacked operands: as many tuples as the shortest
      operand has elements, the i-th holding the i-th element of each. */
  function ZipLists(lists: seq<seq<Var>>, gs: set<Guard>): (r: seq<Var>)
    ensures |r| == MinLen(lists)
    ensures forall i :: 0 <= i < |r| ==>
              r[i].kind.Sequence? && r[i].kind.seqKind == TupleKind && |r[i].kind.items| == |lists|
    ensures forall i, j :: 0 <= i < |r| && 0 <= j < |lists| ==> r[i].kind.items[j] == lists[j][i]
    ensures forall i :: 0 <= i < |r| ==> r[i].guards == gs
  {
    var n := MinLen(lists);
    seq(n, i requires 0 <= i < n =>
      TupleOf(seq(|lists|, j requires 0 <= j < |lists| => lists[j][i]), gs))
  }

  predicate AllUnpackable(args: seq<Var>)
  {
    forall i :: 0 <= i < |args| ==> Unpack(args[i]).Some?
  }

  function UnpackAll(args: seq<Var>): (lists: seq<seq<Var>>)
    requires AllUnpackable(args)
    ensures |lists| == |args|
    ensures forall j :: 0 <= j < |args| ==> lists[j] == Unpack(args[j]).value
  {
    seq(|args|, j requires 0 <= j < |args| => Unpack(args[j]).value)
  }

  /** Every operand a tensor whose leading dimension is known. */
  predicate AllSizedTensors(args: seq<Var>)
  {
    forall i :: 0 <= i < |args| ==>
      args[i].kind.Tensor? && args[i].kind.size.Some? && |args[i].kind.size.value| > 0
  }

  function LeadingDim(t: Var): nat
    requires t.kind.Tensor? && t.kind.size.Some? && |t.kind.size.value| > 0
  {
    t.kind.size.value[0]
  }

  /** `functools.reduce(min, [x.size[0] for x in args])`. */
  function MinLeadingDim(args: seq<Var>): (n: nat)
    requires |args| > 0 && AllSizedTensors(args)
    ensures forall j :: 0 <= j < |args| ==> n <= LeadingDim(args[j])
    ensures exists j :: 0 <= j < |args| && n == LeadingDim(args[j])
  {
    if |args| == 1 then LeadingDim(args[0])
    else
      var m := MinLeadingDim(args[1..]);
      assert forall j :: 1 <= j < |args| ==> args[1..][j - 1] == args[j];
      if LeadingDim(args[0]) <= m then LeadingDim(args[0]) else m
  }

  // ---------------------------------------------------------------- enumerate

  /** The pairs `(i, item_i)` of `enumerate`, counting from 0. */
  function EnumeratePairs(xs: seq<Var>, gs: set<Guard>): (r: seq<Var>)
    ensures |r| == |xs|
    ensures forall i :: 0 <= i < |r| ==>
              r[i].kind.Sequence? && r[i].kind.seqKind == TupleKind && |r[i].kind.items| == 2
    ensures forall i :: 0 <= i < |r| ==>
              r[i].kind.items[0].kind == Constant(CInt(i)) && r[i].kind.items[1] == xs[i]
  {
    seq(|xs|, i requires 0 <= i < |xs| => TupleOf([Var(Constant(CInt(i)), gs, None), xs[i]], gs))
  }

  /** `call_enumerate`: pairs over an unpackable operand, each pair and each
      index carrying the callee's and the operand's guards. */
  function EnumerateCall(selfGuards: set<Guard>, arg: Var): (r: Handled)
    ensures r.Declined? <==> Unpack(arg).None?
    ensures Unpack(arg).Some? ==>
              && r.Completed? && r.c.Value?
              && r.c.v.kind == Sequence(TupleKind, EnumeratePairs(Unpack(arg).value, selfGuards + arg.guards), false)
              && arg.guards <= r.c.v.guards
  {
    var gs := selfGuards + arg.guards;
    match Unpack(arg)
    case Some(xs) => Returns(TupleOf(EnumeratePairs(xs, gs), gs))
    case None => Declined
  }

  // ---------------------------------------------------------------- mul

  /** Python's `items * n` on a list. */
  function Repeat(s: seq<Var>, n: int): (r: seq<Var>)
    ensures n <= 0 ==> r == []
    decreases if n < 0 then 0 else n
  {
    if n <= 0 then [] else s + Repeat(s, n - 1)
  }

  /** The repeated list holds `n` copies of `s`. */
  lemma {:induction false} RepeatLength(s: seq<Var>, n: nat)
    ensures |Repeat(s, n)| == n * |s|
  {
    if n > 0 {
      RepeatLength(s, n - 1);
      assert n * |s| == |s| + (n - 1) * |s|;
    }
  }

  /** Copy `k` of `s` sits at offset `k * |s|` of the repetition. */
  lemma {:induction false} RepeatAt(s: seq<Var>, n: nat, k: nat, j: nat)
    requires k < n && j < |s|
    ensures k * |s| + j < |Repeat(s, n)|
    ensures Repeat(s, n)[k * |s| + j] == s[j]
  {
    RepeatLength(s, n);
    var rest := Repeat(s, n - 1);
    assert Repeat(s, n) == s + rest;
    if k > 0 {
      RepeatAt(s, n - 1, k - 1, j);
      assert k * |s| + j == |s| + ((k - 1) * |s| + j);
    }
  }

  /** `seq.clone(items=seq.items * count)`: everything but the items kept. */
  function RepeatContainer(s: Var, count: Const): (r: Handled)
    requires s.kind.Sequence?
    ensures IndexOf(count).None? ==> r == Completed(Raised(TypeError(false)))
    ensures IndexOf(count).Some? ==>
              r == Returns(s.(kind := s.kind.(items := Repeat(s.kind.items, IndexOf(count).value))))
  {
    match IndexOf(count)
    case Some(n) => Returns(s.(kind := s.kind.(items := Repeat(s.kind.items, n))))
    case None => Completed(Raised(TypeError(false)))
  }

  /** `call_mul`: a list or tuple times a literal count, on either side. */
  function MulCall(a: Var, b: Var): (r: Handled)
    ensures r.Declined? <==> !(IsListOrTuple(a) && b.kind.Constant?) && !(IsListOrTuple(b) && a.kind.Constant?)
    ensures IsListOrTuple(a) && b.kind.Constant? ==> r == RepeatContainer(a, b.kind.value)
    ensures !IsListOrTuple(a) && IsListOrTuple(b) && a.kind.Constant? ==> r == RepeatContainer(b, a.kind.value)
  {
    if IsListOrTuple(a) && b.kind.Constant? then RepeatContainer(a, b.kind.value)
    else if IsListOrTuple(b) && a.kind.Constant? then RepeatContainer(b, a.kind.value)
    else Declined
  }

  // ---------------------------------------------------------------- len / add / iadd / getitem

  /** `args[0].call_method(tx, method, args[1:], kwargs)`; with no operand
      `args[0]` raises IndexError. */
  function Redirect(env: Env, methodName: string, args: seq<Var>, kwargs: map<string, Var>): (r: Handled)
    ensures |args| == 0 ==> r == Completed(Raised(IndexError))
    ensures |args| > 0 ==> r == Completed(env.callMethod(args[0], methodName, args[1..], kwargs))
  {
    if |args| == 0 then Completed(Raised(IndexError))
    else Completed(env.callMethod(args[0], methodName, args[1..], kwargs))
  }

  // ---------------------------------------------------------------- isinstance

  /** `issubclass(t, spec)` for a literal `spec`: `None` when it raises
      TypeError (`spec` is not a type or a tuple of them); the members of a
      tuple are tried left to right and the first match wins. */
  function SubclassOf(t: PyType, spec: Const): (r: Option<bool>)
    ensures spec.CType? ==> r == Some(IsSubclass(t, spec.t))
    ensures !spec.CType? && !spec.CTuple? ==> r == None
    decreases spec
  {
    match spec
    case CType(u) => Some(IsSubclass(t, u))
    case CTuple(specs) => SubclassOfAny(t, specs)
    case _ => None
  }

  function SubclassOfAny(t: PyType, specs: seq<Const>): (r: Option<bool>)
    ensures specs == [] ==> r == Some(false)
    decreases specs
  {
    if specs == [] then Some(false)
    else
      match SubclassOf(t, specs[0])
      case Some(true) => Some(true)
      case Some(false) => SubclassOfAny(t, specs[1..])
      case None => None
  }

  /** `issubclass(t, (s_0, ..., s_n))` is False when every member is a type
      that `t` is not below. */
  lemma {:induction false} SubclassOfAnyAllFalse(t: PyType, specs: seq<Const>)
    requires forall j :: 0 <= j < |specs| ==> SubclassOf(t, specs[j]) == Some(false)
    ensures SubclassOfAny(t, specs) == Some(false)
    decreases |specs|
  {
    if specs != [] {
      assert forall j :: 0 <= j < |specs| - 1 ==> specs[1..][j] == specs[j + 1];
      SubclassOfAnyAllFalse(t, specs[1..]);
    }
  }

  /** Otherwise the tuple is scanned left to right and the first member that
      is not such a type decides: True when `t` is below it, a TypeError
      (`None`) when it is neither a type nor a tuple. */
  lemma {:induction false} SubclassOfAnyFirstDecides(t: PyType, specs: seq<Const>, k: nat)
    requires k < |specs| && SubclassOf(t, specs[k]) != Some(false)
    requires forall j :: 0 <= j < k ==> SubclassOf(t, specs[j]) == Some(false)
    ensures SubclassOfAny(t, specs) == SubclassOf(t, specs[k])
    decreases k
  {
    if k > 0 {
      assert SubclassOf(t, specs[0]) == Some(false);
      assert specs[1..][k - 1] == specs[k];
      assert forall j :: 0 <= j < k - 1 ==> specs[1..][j] == specs[j + 1];
      SubclassOfAnyFirstDecides(t, specs[1..], k - 1);
    }
  }

  /** A tuple of types answers True exactly when `t` is below one of them. */
  lemma SubclassOfTypeTuple(t: PyType, specs: seq<Const>)
    requires forall j :: 0 <= j < |specs| ==> specs[j].CType?
    ensures SubclassOfAny(t, specs) == Some(exists j :: 0 <= j < |specs| && IsSubclass(t, specs[j].t))
  {
    if exists j :: 0 <= j < |specs| && IsSubclass(t, specs[j].t) {
      var k := FirstMatch(t, specs);
      SubclassOfAnyFirstDecides(t, specs, k);
    } else {
      SubclassOfAnyAllFalse(t, specs);
    }
  }

  /** The index of the first type of `specs` that `t` is below. */
  function FirstMatch(t: PyType, specs: seq<Const>): (k: nat)
    requires forall j :: 0 <= j < |specs| ==> specs[j].CType?
    requires exists j :: 0 <= j < |specs| && IsSubclass(t, specs[j].t)
    ensures k < |specs| && IsSubclass(t, specs[k].t)
    ensures forall j :: 0 <= j < k ==> !IsSubclass(t, specs[j].t)
  {
    if IsSubclass(t, specs[0].t) then 0
    else
      assert forall j :: 1 <= j < |specs| ==> specs[1..][j - 1] == specs[j];
      assert exists j :: 0 <= j < |specs[1..]| && IsSubclass(t, specs[1..][j].t);
      1 + FirstMatch(t, specs[1..])
  }

  /** `call_isinstance`: the subclass test of the operand's type against the
      literal type operand; when that test raises TypeError, the identity
      test `arg_type is isinstance_type`. */
  function IsInstanceCall(arg: Var, typeArg: Var): (r: Handled)
    ensures PythonType(arg).Some? && IsPythonConstant(typeArg) ==>
              && r.Completed? && r.c.Value? && r.c.v.kind.Constant? && r.c.v.kind.value.CBool?
              && r.c.v.kind.value.b == (SubclassOf(PythonType(arg).value, AsPythonConstant(typeArg).value) == Some(true))
    ensures PythonType(arg).None? || !IsPythonConstant(typeArg) ==> r == Completed(Raised(NotImplementedError))
  {
    match PythonType(arg)
    case None => Completed(Raised(NotImplementedError))
    case Some(t) =>
      match AsPythonConstant(typeArg)
      case None => Completed(Raised(NotImplementedError))
      case Some(spec) =>
        var val := match SubclassOf(t, spec)
                   case Some(b) => b
                   case None => spec == CType(t);
        Returns(Lit(CBool(val)))
  }

  // ---------------------------------------------------------------- next, hasattr

  /** `call_next`: over a list iterator, its current element (StopIteration
      when exhausted); any other operand makes it decline. */
  function NextCall(arg: Var): (r: Handled)
    ensures !arg.kind.ListIterator? <==> r.Declined?
    ensures arg.kind.ListIterator? && arg.kind.index < |arg.kind.elems| ==>
              r == Returns(arg.kind.elems[arg.kind.index])
    ensures arg.kind.ListIterator? && arg.kind.index >= |arg.kind.elems| ==>
              r == Completed(Raised(StopIteration))
  {
    match arg.kind
    case ListIterator(items, index, _) =>
      if index < |items| then Returns(items[index]) else Completed(Raised(StopIteration))
    case _ => Declined
  }

  /** `call_hasattr`: with a literal name, the operand's own answer. */
  function HasAttrCall(env: Env, obj: Var, attr: Var): (r: Handled)
    ensures !IsPythonConstant(attr) <==> r.Declined?
    ensures IsPythonConstant(attr) ==> r == Completed(env.hasAttr(obj, AsPythonConstant(attr).value))
  {
    match AsPythonConstant(attr)
    case Some(name) => Completed(env.hasAttr(obj, name))
    case None => Declined
  }
}
