/**
  `BuiltinVariable.call_function`: the decision procedure that, for one
  builtin and its symbolic operands, inserts a graph node, runs the symbolic
  handler, constant-folds, or breaks the graph, and the handlers that call
  back into it (`zip` over tensors, `map`, `sum`, `reduce`).

  A handler that calls a builtin (`sum` calls `reduce`, which calls `add`;
  tensor `zip` calls `getitem`; `map` and `reduce` call their function
  operand) re-enters the dispatcher. `depth` bounds how deep such nested
  calls go; when it is exhausted the call raises RecursionError, as Python
  does at its recursion limit.
*/
module Dispatcher {
  import opened Classifier
  import opened Values
  import opened Collaborators
  import opened Handlers
  import opened Attributes
  import opened Iteration

  // ---------------------------------------------------------------- constant folding

  /** The host payloads of literal operands (`as_python_constant`). */
  function Payloads(args: seq<Var>): (ps: seq<Const>)
    requires forall i :: 0 <= i < |args| ==> args[i].kind.Constant?
    ensures |ps| == |args| && forall i :: 0 <= i < |args| ==> ps[i] == args[i].kind.value
  {
    seq(|args|, i requires 0 <= i < |args| => args[i].kind.value)
  }

  function KwPayloads(kwargs: map<string, Var>): (kw: map<string, Const>)
    requires forall k :: k in kwargs ==> kwargs[k].kind.Constant?
    ensures kw.Keys == kwargs.Keys && forall k :: k in kw ==> kw[k] == kwargs[k].kind.value
  {
    map k | k in kwargs :: kwargs[k].kind.value
  }

  predicate IntArithmetic(op: Op)
  {
    op in {Operator(Add), Operator(IAdd), Operator(Sub), Operator(ISub), Operator(Mul), Operator(IMul)}
  }

  /** Running the builtin on host values. Integer addition, subtraction and
      multiplication (and their in-place forms) are computed here, with
      Python's unbounded integers; every other case is the host's. */
  function Evaluate(env: Env, op: Op, ps: seq<Const>, kw: map<string, Const>): (r: EvalResult)
    ensures IntArithmetic(op) && kw == map[] && |ps| == 2 && ps[0].CInt? && ps[1].CInt? ==>
              r == Folded(CInt(if op in {Operator(Add), Operator(IAdd)} then ps[0].i + ps[1].i
                               else if op in {Operator(Sub), Operator(ISub)} then ps[0].i - ps[1].i
                               else ps[0].i * ps[1].i))
  {
    if IntArithmetic(op) && kw == map[] && |ps| == 2 && ps[0].CInt? && ps[1].CInt? then
      var a, b := ps[0].i, ps[1].i;
      Folded(CInt(if op in {Operator(Add), Operator(IAdd)} then a + b else if op in {Operator(Sub), Operator(ISub)} then a - b else a * b))
    else env.evalBuiltin(op, ps, kw)
  }

  /** Constant folding: the builtin applied to the payloads, as a fresh
      literal carrying `options`; an exception of the evaluation escapes. */
  function Fold(env: Env, op: Op, options: set<Guard>, args: seq<Var>, kwargs: map<string, Var>): (r: Completion)
    requires ConstantArgs(args, kwargs)
    ensures r.Value? <==> Evaluate(env, op, Payloads(args), KwPayloads(kwargs)).Folded?
    ensures r.Value? ==> r.v == Var(Constant(Evaluate(env, op, Payloads(args), KwPayloads(kwargs)).c), options, None)
  {
    match Evaluate(env, op, Payloads(args), KwPayloads(kwargs))
    case Folded(c) => Value(Var(Constant(c), options, None))
    case EvalRaised(e) => Raised(e)
  }

  predicate HasConstantHandler(op: Op, args: seq<Var>, kwargs: map<string, Var>)
  {
    CanConstantFold(op) && ConstantArgs(args, kwargs)
  }

  /** What is left once no handler produced a value: constant folding when
      it applies, else the generic `call_function`, a graph break. */
  function NoHandlerOutcome(env: Env, op: Op, options: set<Guard>, args: seq<Var>, kwargs: map<string, Var>): (r: Completion)
    ensures HasConstantHandler(op, args, kwargs) ==> r == Fold(env, op, options, args, kwargs)
    ensures !HasConstantHandler(op, args, kwargs) ==> r == Unsupported("call_function")
  {
    if HasConstantHandler(op, args, kwargs) then Fold(env, op, options, args, kwargs)
    else Unsupported("call_function")
  }

  // ---------------------------------------------------------------- graph insertion

  /** The call actually recorded: `iadd` whose first operand is a literal is
      recorded as `add` with the first two operands swapped. `None` when the
      operands needed for that test are missing (IndexError). */
  function GraphCall(op: Op, args: seq<Var>): (r: Option<(Op, seq<Var>)>)
    ensures r.None? <==> op == Operator(IAdd) && (|args| == 0 || (args[0].kind.Constant? && |args| < 2))
    ensures op == Operator(IAdd) && |args| >= 2 && args[0].kind.Constant? ==> r == Some((Operator(Add), [args[1], args[0]]))
    ensures op != Operator(IAdd) || (|args| > 0 && !args[0].kind.Constant?) ==> r == Some((op, args))
  {
    if op != Operator(IAdd) then Some((op, args))
    else if |args| == 0 then None
    else if !args[0].kind.Constant? then Some((op, args))
    else if |args| < 2 then None
    else Some((Operator(Add), [args[1], args[0]]))
  }

  /** Recording the call as a graph node: a new tensor carrying `options`;
      a rejected insertion (NotImplementedError) is the graph break "partial
      tensor op"; any other exception escapes. */
  function InsertInGraph(env: Env, op: Op, options: set<Guard>, args: seq<Var>, kwargs: map<string, Var>): (r: Completion)
    ensures r.Value? ==> r.v.kind.Tensor? && r.v.guards == options && r.v.source.None?
    ensures GraphCall(op, args).None? ==> r == Raised(IndexError)
    ensures GraphCall(op, args).Some? ==>
              var p := env.createProxy(GraphCall(op, args).value.0, GraphCall(op, args).value.1, kwargs);
              && (p.Created? ==> r == Value(Var(Tensor(p.t.node, p.t.size), options, None)))
              && (p.Rejected? || p == ProxyRaised(NotImplementedError) ==> r == Unsupported("partial tensor op"))
              && (p.ProxyRaised? && p.exc != NotImplementedError ==> r == Raised(p.exc))
  {
    match GraphCall(op, args)
    case None => Raised(IndexError)
    case Some((fn, fargs)) =>
      match env.createProxy(fn, fargs, kwargs)
      case Created(t) => Value(Var(Tensor(t.node, t.size), options, None))
      case Rejected => Unsupported("partial tensor op")
      case ProxyRaised(e) => if e == NotImplementedError then Unsupported("partial tensor op") else Raised(e)
  }

  // ---------------------------------------------------------------- the decision procedure

  /** How `call_function` treats a handler's outcome: a value gets `options`;
      a decline or an argument TypeError falls through; a handler's graph
      break is suppressed only when constant folding is available; a
      TypeError not about arguments fails the assertion at line 199; any
      other exception escapes. */
  function AfterHandler(env: Env, op: Op, options: set<Guard>, args: seq<Var>, kwargs: map<string, Var>,
                        handled: Handled): (r: Completion)
    ensures r.Value? ==> options <= r.v.guards
    ensures handled.Completed? && handled.c.Value? ==> r == Value(AddGuards(handled.c.v, options))
    ensures handled == Completed(Raised(TypeError(false))) ==> r == Raised(AssertionError)
    ensures handled.Completed? && handled.c.Raised? && !handled.c.exc.TypeError? ==> r == handled.c
    ensures handled.Declined? || handled == Completed(Raised(TypeError(true))) ==>
              r == NoHandlerOutcome(env, op, options, args, kwargs)
    ensures handled.Completed? && handled.c.Unsupported? ==>
              r == if HasConstantHandler(op, args, kwargs) then Fold(env, op, options, args, kwargs) else handled.c
  {
    match handled
    case Declined => NoHandlerOutcome(env, op, options, args, kwargs)
    case Completed(Value(v)) => Value(AddGuards(v, options))
    case Completed(Unsupported(msg)) =>
      if HasConstantHandler(op, args, kwargs) then Fold(env, op, options, args, kwargs) else Unsupported(msg)
    case Completed(Raised(e)) =>
      if e == TypeError(true) then NoHandlerOutcome(env, op, options, args, kwargs)
      else if e == TypeError(false) then Raised(AssertionError)
      else Raised(e)
  }

  /** `BuiltinVariable(op, guards=selfGuards).call_function(tx, args, kwargs)`.
      Whatever it produces carries the guards of the callee and of every
      operand, and it never returns "no result". */
  function Dispatch(env: Env, depth: nat, op: Op, selfGuards: set<Guard>,
                    args: seq<Var>, kwargs: map<string, Var>): (r: Completion)
    ensures r.Value? ==> Propagate(selfGuards, args, kwargs) <= r.v.guards
    decreases depth, 4, 0
  {
    var options := Propagate(selfGuards, args, kwargs);
    if CanInsertInGraph(op) && TensorArgs(args, kwargs) then
      InsertInGraph(env, op, options, args, kwargs)
    else
      var handled := match HandlerFor(op)
                     case None => Declined
                     case Some(h) => CallHandler(env, depth, op, h, selfGuards, args, kwargs);
      AfterHandler(env, op, options, args, kwargs, handled)
  }

  /** A builtin called from inside a handler, one level deeper. */
  function CallBuiltin(env: Env, depth: nat, op: Op, selfGuards: set<Guard>,
                       args: seq<Var>, kwargs: map<string, Var>): (r: Completion)
    ensures depth == 0 ==> r == Raised(RecursionError)
    ensures depth > 0 ==> r == Dispatch(env, depth - 1, op, selfGuards, args, kwargs)
    decreases depth, 0, 0
  {
    if depth == 0 then Raised(RecursionError)
    else Dispatch(env, depth - 1, op, selfGuards, args, kwargs)
  }

  /** `f.call_function(tx, args, kwargs)` for a function operand: the
      dispatcher again when it is a builtin, a collaborator otherwise. */
  function CallVar(env: Env, depth: nat, f: Var, args: seq<Var>, kwargs: map<string, Var>): (r: Completion)
    ensures f.kind.Builtin? ==> r == CallBuiltin(env, depth, f.kind.op, f.guards, args, kwargs)
    ensures !f.kind.Builtin? ==> r == env.callFunction(f, args, kwargs)
    decreases depth, 0, 1
  {
    if f.kind.Builtin? then CallBuiltin(env, depth, f.kind.op, f.guards, args, kwargs)
    else env.callFunction(f, args, kwargs)
  }

  /** `handler(tx, *args, **kwargs)` for the handler the table selects. */
  function CallHandler(env: Env, depth: nat, op: Op, h: Handler, selfGuards: set<Guard>,
                       args: seq<Var>, kwargs: map<string, Var>): (r: Handled)
    requires HandlerFor(op) == Some(h)
    ensures !Accepts(SignatureOf(h), args, kwargs) ==> r == ArgumentError
    decreases depth, 3, 0
  {
    match Bind(SignatureOf(h), args, kwargs)
    case None => ArgumentError
    case Some(b) =>
      assert forall i :: 0 <= i < SignatureOf(h).required ==> b.fixed[i].Some?;
      match h
      case ZipH => ZipCall(env, depth, selfGuards, args)
      case MapH => MapCall(env, depth, b.fixed[0].value, b.fixed[1].value)
      case SumH => SumCall(env, depth, selfGuards, b.fixed[0].value, b.restKw)
      case ReduceH => ReduceCall(env, depth, b.fixed[0].value, b.fixed[1].value, b.fixed[2])
      case _ => DirectHandler(env, op, h, selfGuards, args, kwargs, b)
  }

  /** The handlers that do not call back into the dispatcher, on the bound
      operands. Only a handler whose source ends by returning nothing can
      decline; the four that call back into the dispatcher (`zip`, `map`,
      `sum`, `reduce`) are left to `CallHandler`. */
  function DirectHandler(env: Env, op: Op, h: Handler, selfGuards: set<Guard>,
                         args: seq<Var>, kwargs: map<string, Var>, b: Bound): (r: Handled)
    requires HandlerFor(op) == Some(h) && Bind(SignatureOf(h), args, kwargs) == Some(b)
    ensures h in {ZipH, MapH, SumH, ReduceH} ==> r.Declined?
    ensures r.Declined? ==> h in {MinMaxH, RangeH, IterTupleListH, EnumerateH, MulH, NextH, HasAttrH, ZipH, MapH, SumH, ReduceH}
  {
    assert forall i :: 0 <= i < SignatureOf(h).required ==> b.fixed[i].Some?;
    match h
    case MinMaxH => MinMax(env, op, b.fixed[0].value, b.fixed[1].value)
    case RangeH => RangeCall(args, kwargs)
    case SliceH => SliceCall(args)
    case IterTupleListH => IterTupleList(op, b.fixed[0])
    case EnumerateH => EnumerateCall(selfGuards, b.fixed[0].value)
    case MulH => MulCall(b.fixed[0].value, b.fixed[1].value)
    case LenH => Redirect(env, "__len__", args, kwargs)
    case AddH => Redirect(env, "__add__", args, kwargs)
    case IAddH => Redirect(env, "__iadd__", args, kwargs)
    case GetItemH => Redirect(env, "__getitem__", args, kwargs)
    case IsInstanceH => IsInstanceCall(b.fixed[0].value, b.fixed[1].value)
    case SuperH => SuperCall(b.fixed[0].value, b.fixed[1].value)
    case NextH => NextCall(b.fixed[0].value)
    case HasAttrH => HasAttrCall(env, b.fixed[0].value, b.fixed[1].value)
    case GetAttrH => Completed(GetAttrCall(env, selfGuards, b.fixed[0].value, b.fixed[1].value, b.fixed[2]))
    case _ => Declined
  }

  // ---------------------------------------------------------------- zip

  /** `BuiltinVariable(operator.getitem, **options).call_function(tx, [arg, ConstantVariable(i)], {})`. */
  function GetItemCall(env: Env, depth: nat, options: set<Guard>): (getItem: (Var, nat) -> Completion)
    decreases depth, 1, 0
  {
    (a: Var, i: nat) => CallBuiltin(env, depth, Operator(GetItem), options, [a, Lit(CInt(i))], map[])
  }

  /** `call_zip`: host `zip` over unpackable operands; otherwise, when every
      operand is a tensor of known leading dimension, one row per index below
      the smallest leading dimension; otherwise it declines. */
  function ZipCall(env: Env, depth: nat, selfGuards: set<Guard>, args: seq<Var>): (r: Handled)
    ensures AllUnpackable(args) ==>
              r == Returns(TupleOf(ZipLists(UnpackAll(args), selfGuards + SeqGuards(args)), selfGuards + SeqGuards(args)))
    ensures !AllUnpackable(args) && !AllSizedTensors(args) ==> r.Declined?
    decreases depth, 2, 0
  {
    var options := selfGuards + SeqGuards(args);
    if AllUnpackable(args) then
      Returns(TupleOf(ZipLists(UnpackAll(args), options), options))
    else if AllSizedTensors(args) then
      assert |args| > 0;
      match ZipRows(GetItemCall(env, depth, options), options, args, 0, MinLeadingDim(args))
      case AllValues(rows) => Returns(TupleOf(rows, options))
      case Interrupted(c) => Completed(c)
    else Declined
  }

  // ---------------------------------------------------------------- map

  /** `fn.call_function(tx, [x], {})`. */
  function ApplyCall(env: Env, depth: nat, f: Var): (call: Var -> Completion)
    decreases depth, 1, 0
  {
    (x: Var) => CallVar(env, depth, f, [x], map[])
  }

  /** `call_map`: the function applied to each element of an unpackable
      operand, collected in a tuple. */
  function MapCall(env: Env, depth: nat, f: Var, iterable: Var): (r: Handled)
    ensures Unpack(iterable).None? <==> r.Declined?
    ensures r.Completed? && r.c.Value? ==>
              r.c.v.kind.Sequence? && |r.c.v.kind.items| == |Unpack(iterable).value|
    decreases depth, 2, 0
  {
    match Unpack(iterable)
    case None => Declined
    case Some(xs) =>
      match MapAll(ApplyCall(env, depth, f), xs)
      case AllValues(vs) => Returns(TupleOf(vs, {}))
      case Interrupted(c) => Completed(c)
  }

  // ---------------------------------------------------------------- reduce and sum

  /** `function.call_function(tx, [value, element], {})`. */
  function FoldStep(env: Env, depth: nat, f: Var): (step: (Var, Var) -> Completion)
    decreases depth, 1, 0
  {
    (acc: Var, x: Var) => CallVar(env, depth, f, [acc, x], map[])
  }

  /** `call_reduce`: without an initializer the first element seeds the fold
      over the rest (IndexError when there is none); with one, the fold runs
      over every element. */
  function ReduceCall(env: Env, depth: nat, f: Var, iterable: Var, initializer: Option<Var>): (r: Handled)
    ensures Unpack(iterable).None? <==> r.Declined?
    ensures Unpack(iterable).Some? && initializer.Some? ==>
              r == Completed(FoldLeft(FoldStep(env, depth, f), initializer.value, Unpack(iterable).value))
    ensures Unpack(iterable).Some? && initializer.None? && |Unpack(iterable).value| > 0 ==>
              r == Completed(FoldLeft(FoldStep(env, depth, f), Unpack(iterable).value[0], Unpack(iterable).value[1..]))
    ensures Unpack(iterable) == Some([]) && initializer.None? ==> r == Completed(Raised(IndexError))
    decreases depth, 2, 0
  {
    match Unpack(iterable)
    case None => Declined
    case Some(xs) =>
      match initializer
      case Some(init) => Completed(FoldLeft(FoldStep(env, depth, f), init, xs))
      case None =>
        if |xs| == 0 then Completed(Raised(IndexError))
        else Completed(FoldLeft(FoldStep(env, depth, f), xs[0], xs[1..]))
  }

  /** Python's `xs[n:]`: a negative `n` counts from the end, and both ends
      are clamped to the list. */
  function SliceFrom(xs: seq<Var>, n: int): (r: seq<Var>)
    ensures 0 <= n <= |xs| ==> r == xs[n..]
    ensures n > |xs| ==> r == []
    ensures n < 0 && |xs| + n >= 0 ==> r == xs[|xs| + n..]
    ensures n < 0 && |xs| + n < 0 ==> r == xs
  {
    if n >= 0 then (if n <= |xs| then xs[n..] else [])
    else if |xs| + n >= 0 then xs[|xs| + n..]
    else xs
  }

  /** The items `sum` folds over: `items[start:]`, with `start` a literal
      index (`None` means from the beginning); `None` when Python's slice
      rejects `start` with a TypeError. */
  function SumItems(xs: seq<Var>, start: Const): (r: Option<seq<Var>>)
    ensures r.None? <==> !start.CNone? && IndexOf(start).None?
    ensures start.CNone? ==> r == Some(xs)
    ensures !start.CNone? && IndexOf(start).Some? ==>
              var n := IndexOf(start).value;
              && (0 <= n <= |xs| ==> r == Some(xs[n..]))
              && (n > |xs| ==> r == Some([]))
              && (n < 0 && |xs| + n >= 0 ==> r == Some(xs[|xs| + n..]))
              && (|xs| + n < 0 ==> r == Some(xs))
  {
    if start.CNone? then Some(xs)
    else match IndexOf(start)
      case Some(n) => Some(SliceFrom(xs, n))
      case None => None
  }

  /** The fixed operands with which `call_sum` calls `reduce`. */
  function AddFn(): Var { Var(Builtin(Operator(Add)), {}, None) }

  /** `call_sum`: `start` (default 0) is popped from the keyword operands
      and used as a slice index into the unpacked items, which are then
      folded with `add` from a literal 0 carrying the callee's and the
      sequence's guards. Any other keyword fails the `assert not kwargs`. */
  function SumCall(env: Env, depth: nat, selfGuards: set<Guard>, sequence: Var, kwargs: map<string, Var>): (r: Handled)
    ensures Unpack(sequence).None? <==> r.Declined?
    decreases depth, 2, 0
  {
    match Unpack(sequence)
    case None => Declined
    case Some(xs) =>
      var startVar := if "start" in kwargs then kwargs["start"] else Lit(CInt(0));
      match AsPythonConstant(startVar)
      case None => Completed(Raised(NotImplementedError))
      case Some(start) =>
        if kwargs.Keys - {"start"} != {} then Completed(Raised(AssertionError))
        else
          match SumItems(xs, start)
          case None => Completed(Raised(TypeError(false)))
          case Some(items) =>
            Completed(CallBuiltin(env, depth, Special(Reduce), {},
                                  [AddFn(), TupleOf(items, {}), Var(Constant(CInt(0)), selfGuards + sequence.guards, None)],
                                  map[]))
  }
}
