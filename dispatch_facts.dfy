/**
  What `call_function` promises, stated over `Dispatcher.Dispatch` for
  every collaborator environment.
*/
module CallFunctionFacts {
  import opened Classifier
  import opened Values
  import opened Collaborators
  import opened Handlers
  import opened Dispatcher
  import opened Iteration

  predicate GraphPath(op: Op, args: seq<Var>, kwargs: map<string, Var>)
  {
    CanInsertInGraph(op) && TensorArgs(args, kwargs)
  }

  /** Outside the graph path the result is the handler's outcome as
      `call_function` treats it. */
  lemma DispatchViaHandler(env: Env, depth: nat, op: Op, h: Handler, selfGuards: set<Guard>,
                           args: seq<Var>, kwargs: map<string, Var>)
    requires !GraphPath(op, args, kwargs) && HandlerFor(op) == Some(h)
    ensures Dispatch(env, depth, op, selfGuards, args, kwargs)
         == AfterHandler(env, op, Propagate(selfGuards, args, kwargs), args, kwargs,
                         CallHandler(env, depth, op, h, selfGuards, args, kwargs))
  {
  }

  lemma NoKeywordGuards()
    ensures KwGuards(map[]) == {}
  {
  }

  // ---------------------------------------------------------------- graph insertion

  /** An insertable builtin with a tensor operand is recorded in the graph
      before any handler is consulted: a created node is a tensor carrying
      every operand's guards, and a rejected insertion is the graph break
      "partial tensor op" even when a handler or constant folding exists. */
  lemma GraphInsertionFirst(env: Env, depth: nat, op: Op, selfGuards: set<Guard>,
                            args: seq<Var>, kwargs: map<string, Var>)
    requires GraphPath(op, args, kwargs)
    requires GraphCall(op, args).Some?
    ensures var r := Dispatch(env, depth, op, selfGuards, args, kwargs);
            var call := GraphCall(op, args).value;
            var p := env.createProxy(call.0, call.1, kwargs);
            && (p.Created? ==> r == Value(Var(Tensor(p.t.node, p.t.size), Propagate(selfGuards, args, kwargs), None)))
            && (p.Rejected? || p == ProxyRaised(NotImplementedError) ==> r == Unsupported("partial tensor op"))
            && (p.ProxyRaised? && p.exc != NotImplementedError ==> r == Raised(p.exc))
  {
  }

  /** Two operand lists holding the same two values in either order carry
      the same guards. */
  lemma SwappedPairGuards(selfGuards: set<Guard>, a: Var, b: Var, kwargs: map<string, Var>)
    ensures Propagate(selfGuards, [a, b], kwargs) == Propagate(selfGuards, [b, a], kwargs)
    ensures Propagate(selfGuards, [a, b], kwargs) == selfGuards + a.guards + b.guards + KwGuards(kwargs)
  {
    assert SeqGuards([a, b]) == a.guards + SeqGuards([b]);
    assert SeqGuards([b, a]) == b.guards + SeqGuards([a]);
    assert [a, b][1..] == [b] && [b, a][1..] == [a];
    assert SeqGuards([a]) == a.guards + SeqGuards([]) by { assert [a][1..] == []; }
    assert SeqGuards([b]) == b.guards + SeqGuards([]) by { assert [b][1..] == []; }
  }

  /** `x += t` with a literal `x` and a tensor `t` is traced exactly as
      `t + x`. */
  lemma IAddLiteralFirstIsSwappedAdd(env: Env, depth: nat, selfGuards: set<Guard>,
                                     c: Var, t: Var, kwargs: map<string, Var>)
    requires c.kind.Constant? && t.kind.Tensor?
    ensures Dispatch(env, depth, Operator(IAdd), selfGuards, [c, t], kwargs)
         == Dispatch(env, depth, Operator(Add), selfGuards, [t, c], kwargs)
  {
    assert [c, t][1].kind.Tensor? && [t, c][0].kind.Tensor?;
    SwappedPairGuards(selfGuards, c, t, kwargs);
  }

  // ---------------------------------------------------------------- the handler

  /** Outside the graph path, the handler's outcome decides the result as
      `AfterHandler` says. */
  lemma HandlerOutcomeDecides(env: Env, depth: nat, op: Op, h: Handler, selfGuards: set<Guard>,
                              args: seq<Var>, kwargs: map<string, Var>)
    requires !GraphPath(op, args, kwargs) && HandlerFor(op) == Some(h)
    ensures var options := Propagate(selfGuards, args, kwargs);
            var handled := CallHandler(env, depth, op, h, selfGuards, args, kwargs);
            var r := Dispatch(env, depth, op, selfGuards, args, kwargs);
            && (handled.Completed? && handled.c.Value? ==> r == Value(AddGuards(handled.c.v, options)))
            && (handled.Declined? || handled == Completed(Raised(TypeError(true))) ==>
                  r == NoHandlerOutcome(env, op, options, args, kwargs))
            && (handled.Completed? && handled.c.Unsupported? && !HasConstantHandler(op, args, kwargs) ==>
                  r == handled.c)
            && (handled.Completed? && handled.c.Unsupported? && HasConstantHandler(op, args, kwargs) ==>
                  r == Fold(env, op, options, args, kwargs))
            && (handled == Completed(Raised(TypeError(false))) ==> r == Raised(AssertionError))
  {
    DispatchViaHandler(env, depth, op, h, selfGuards, args, kwargs);
  }

  /** Operands that the handler's parameters cannot bind raise a TypeError
      that names the arguments, so `call_function` falls through to
      constant folding or the generic graph break. */
  lemma ArityMismatchFallsThrough(env: Env, depth: nat, op: Op, h: Handler, selfGuards: set<Guard>,
                                  args: seq<Var>, kwargs: map<string, Var>)
    requires !GraphPath(op, args, kwargs) && HandlerFor(op) == Some(h)
    requires !Accepts(SignatureOf(h), args, kwargs)
    ensures Dispatch(env, depth, op, selfGuards, args, kwargs)
         == NoHandlerOutcome(env, op, Propagate(selfGuards, args, kwargs), args, kwargs)
  {
  }

  // ---------------------------------------------------------------- folding and the graph break

  /** Literal operands only (hence no graph path): a foldable builtin whose
      handler declines yields a literal holding the host result, with every
      operand's guards and no source. */
  lemma ConstantFoldResult(env: Env, depth: nat, op: Op, selfGuards: set<Guard>,
                           args: seq<Var>, kwargs: map<string, Var>)
    requires HasConstantHandler(op, args, kwargs)
    requires HandlerFor(op).None? || CallHandler(env, depth, op, HandlerFor(op).value, selfGuards, args, kwargs).Declined?
    ensures var r := Dispatch(env, depth, op, selfGuards, args, kwargs);
            var e := Evaluate(env, op, Payloads(args), KwPayloads(kwargs));
            && (e.Folded? ==> r == Value(Var(Constant(e.c), Propagate(selfGuards, args, kwargs), None)))
            && (e.EvalRaised? ==> r == Raised(e.exc))
  {
    assert !TensorArgs(args, kwargs);
    var options := Propagate(selfGuards, args, kwargs);
    if HandlerFor(op).Some? {
      DispatchViaHandler(env, depth, op, HandlerFor(op).value, selfGuards, args, kwargs);
    } else {
      assert Dispatch(env, depth, op, selfGuards, args, kwargs) == AfterHandler(env, op, options, args, kwargs, Declined);
    }
    assert AfterHandler(env, op, options, args, kwargs, Declined) == Fold(env, op, options, args, kwargs);
  }

  /** With no handler, no tensor to record and nothing to fold, the call is
      a graph break. */
  lemma NoStrategyIsGraphBreak(env: Env, depth: nat, op: Op, selfGuards: set<Guard>,
                               args: seq<Var>, kwargs: map<string, Var>)
    requires HandlerFor(op).None? && !GraphPath(op, args, kwargs) && !HasConstantHandler(op, args, kwargs)
    ensures Dispatch(env, depth, op, selfGuards, args, kwargs) == Unsupported("call_function")
  {
  }

  /** Two integer literals: literal operands with no guards, whose payloads
      are the two integers. */
  lemma IntLiteralPair(a: int, b: int)
    ensures var args := [Lit(CInt(a)), Lit(CInt(b))];
            && ConstantArgs(args, map[]) && !TensorArgs(args, map[])
            && Propagate({}, args, map[]) == {}
            && Payloads(args) == [CInt(a), CInt(b)]
  {
    var args := [Lit(CInt(a)), Lit(CInt(b))];
    assert forall i :: 0 <= i < |args| ==> args[i].kind.Constant?;
    NoKeywordGuards();
    assert SeqGuards(args) == {} + SeqGuards(args[1..]);
    assert args[1..][1..] == [];
  }

  /** `operator.mul`'s handler declines two integer literals: neither is a
      list or tuple to repeat. */
  lemma MulHandlerDeclinesLiterals(env: Env, depth: nat, a: int, b: int)
    ensures CallHandler(env, depth, Operator(Mul), MulH, {}, [Lit(CInt(a)), Lit(CInt(b))], map[]).Declined?
  {
    var args := [Lit(CInt(a)), Lit(CInt(b))];
    var bound := Bind(SignatureOf(MulH), args, map[]).value;
    assert bound.fixed == [Some(args[0]), Some(args[1])];
    assert MulCall(args[0], args[1]).Declined?;
    assert CallHandler(env, depth, Operator(Mul), MulH, {}, args, map[])
        == DirectHandler(env, Operator(Mul), MulH, {}, args, map[], bound);
  }

  /** `a * b` over integer literals: the handler declines, and constant
      folding yields the literal product. */
  lemma MulOfLiteralsFolds(env: Env, depth: nat, a: int, b: int)
    ensures Dispatch(env, depth, Operator(Mul), {}, [Lit(CInt(a)), Lit(CInt(b))], map[]) == Value(Lit(CInt(a * b)))
  {
    var args := [Lit(CInt(a)), Lit(CInt(b))];
    IntLiteralPair(a, b);
    MulHandlerDeclinesLiterals(env, depth, a, b);
    ConstantFoldResult(env, depth, Operator(Mul), {}, args, map[]);
    assert Evaluate(env, Operator(Mul), [CInt(a), CInt(b)], map[]) == Folded(CInt(a * b));
  }

  // ---------------------------------------------------------------- zip and enumerate

  /** `zip` over operands that all unpack: as many rows as the shortest
      operand, row `i` holding element `i` of every operand, each row and
      the whole carrying the guards of the callee and every operand. */
  lemma ZipOfUnpackables(env: Env, depth: nat, selfGuards: set<Guard>, args: seq<Var>)
    requires AllUnpackable(args)
    ensures var r := Dispatch(env, depth, Special(Zip), selfGuards, args, map[]);
            var lists := UnpackAll(args);
            && r.Value? && r.v.kind.Sequence? && r.v.guards == selfGuards + SeqGuards(args)
            && |r.v.kind.items| == MinLen(lists)
            && (forall j :: 0 <= j < |args| ==> |r.v.kind.items| <= |lists[j]|)
            && (forall i :: 0 <= i < |r.v.kind.items| ==>
                  r.v.kind.items[i].kind.Sequence? && |r.v.kind.items[i].kind.items| == |args|)
            && (forall i, j :: 0 <= i < |r.v.kind.items| && 0 <= j < |args| ==>
                  r.v.kind.items[i].kind.items[j] == lists[j][i])
  {
    HandlerOnlyOps(Special(Zip));
    NoKeywordGuards();
    DispatchViaHandler(env, depth, Special(Zip), ZipH, selfGuards, args, map[]);
    assert Bind(SignatureOf(ZipH), args, map[]).Some?;
    assert CallHandler(env, depth, Special(Zip), ZipH, selfGuards, args, map[]) == ZipCall(env, depth, selfGuards, args);
  }

  /** `zip` over sized tensors (operands that do not all unpack): one row
      per index below the smallest leading dimension, row `i` holding
      `getitem(arg, i)` for every operand in order; the first call that does
      not return a value ends the whole call with its outcome. */
  lemma TensorZipRows(env: Env, depth: nat, selfGuards: set<Guard>, args: seq<Var>)
    requires !AllUnpackable(args) && AllSizedTensors(args)
    ensures |args| > 0
    ensures var options := selfGuards + SeqGuards(args);
            var rows := ZipRows(GetItemCall(env, depth, options), options, args, 0, MinLeadingDim(args));
            && (rows.AllValues? ==>
                  && ZipCall(env, depth, selfGuards, args) == Returns(TupleOf(rows.vs, options))
                  && |rows.vs| == MinLeadingDim(args)
                  && (forall j :: 0 <= j < |args| ==> |rows.vs| <= LeadingDim(args[j]))
                  && (forall i, j :: 0 <= i < |rows.vs| && 0 <= j < |args| ==>
                        rows.vs[i].kind.Sequence? && |rows.vs[i].kind.items| == |args|
                        && CallBuiltin(env, depth, Operator(GetItem), options, [args[j], Lit(CInt(i))], map[])
                           == Value(rows.vs[i].kind.items[j])))
            && (rows.Interrupted? ==> ZipCall(env, depth, selfGuards, args) == Completed(rows.c))
  {
    var options := selfGuards + SeqGuards(args);
    var getItem := GetItemCall(env, depth, options);
    var n := MinLeadingDim(args);
    if ZipRows(getItem, options, args, 0, n).AllValues? {
      ZipRowsShape(getItem, options, args, n);
      forall i: nat, j | 0 <= j < |args|
        ensures getItem(args[j], i) == CallBuiltin(env, depth, Operator(GetItem), options, [args[j], Lit(CInt(i))], map[])
      {
      }
    }
  }

  /** `enumerate` over an unpackable operand pairs each element with its
      index counted from 0. */
  lemma EnumerateCountsFromZero(env: Env, depth: nat, selfGuards: set<Guard>, arg: Var)
    requires Unpack(arg).Some?
    ensures var r := Dispatch(env, depth, Special(Enumerate), selfGuards, [arg], map[]);
            var xs := Unpack(arg).value;
            && r.Value? && r.v.kind.Sequence? && |r.v.kind.items| == |xs|
            && (forall i :: 0 <= i < |xs| ==>
                  r.v.kind.items[i].kind.Sequence? && |r.v.kind.items[i].kind.items| == 2
                  && r.v.kind.items[i].kind.items[0].kind == Constant(CInt(i))
                  && r.v.kind.items[i].kind.items[1] == xs[i])
  {
    HandlerOnlyOps(Special(Enumerate));
    DispatchViaHandler(env, depth, Special(Enumerate), EnumerateH, selfGuards, [arg], map[]);
    EnumerateHandler(env, depth, selfGuards, arg);
  }

  /** `enumerate`'s handler with its one positional operand. */
  lemma EnumerateHandler(env: Env, depth: nat, selfGuards: set<Guard>, arg: Var)
    ensures CallHandler(env, depth, Special(Enumerate), EnumerateH, selfGuards, [arg], map[])
         == EnumerateCall(selfGuards, arg)
  {
    var b := Bind(SignatureOf(EnumerateH), [arg], map[]).value;
    assert b.fixed == [Some(arg)];
    assert CallHandler(env, depth, Special(Enumerate), EnumerateH, selfGuards, [arg], map[])
        == DirectHandler(env, Special(Enumerate), EnumerateH, selfGuards, [arg], map[], b);
  }

  // ---------------------------------------------------------------- map

  /** `map(f, xs)` over an unpackable operand calls `f` on each item in
      order: a value is the tuple of the results, one per item; otherwise
      the outcome is that of the first call that did not return, every
      earlier call having returned. */
  lemma MapAppliesInOrder(env: Env, depth: nat, f: Var, iterable: Var)
    requires Unpack(iterable).Some?
    ensures var xs := Unpack(iterable).value;
            var r := MapCall(env, depth, f, iterable);
            && r.Completed?
            && (r.c.Value? ==>
                  && r.c.v.kind.Sequence? && |r.c.v.kind.items| == |xs|
                  && forall k :: 0 <= k < |xs| ==> CallVar(env, depth, f, [xs[k]], map[]) == Value(r.c.v.kind.items[k]))
            && (!r.c.Value? ==>
                  exists k :: 0 <= k < |xs| && CallVar(env, depth, f, [xs[k]], map[]) == r.c
                              && forall j :: 0 <= j < k ==> CallVar(env, depth, f, [xs[j]], map[]).Value?)
  {
    var xs := Unpack(iterable).value;
    var call := ApplyCall(env, depth, f);
    var m := MapAll(call, xs);
    assert forall k :: 0 <= k < |xs| ==> call(xs[k]) == CallVar(env, depth, f, [xs[k]], map[]);
    if m.AllValues? {
      MapAllElements(call, xs);
      assert MapCall(env, depth, f, iterable) == Returns(TupleOf(m.vs, {}));
    } else {
      MapAllStopsAtFirstFailure(call, xs);
      assert MapCall(env, depth, f, iterable) == Completed(m.c);
    }
  }

  // ---------------------------------------------------------------- reduce and sum

  /** `r` is what `call_function` makes of a handler that completed with a
      fold's outcome `fold`: its value with `gs` added; its graph break or
      its exception other than a TypeError unchanged. */
  predicate FoldOutcome(r: Completion, fold: Completion, gs: set<Guard>)
  {
    && (fold.Value? ==> r == Value(AddGuards(fold.v, gs)))
    && (fold.Unsupported? ==> r == fold)
    && (fold.Raised? && !fold.exc.TypeError? ==> r == fold)
  }

  /** A builtin without constant folding passes a completed outcome through
      as `FoldOutcome` says. */
  lemma AfterFold(env: Env, op: Op, options: set<Guard>, args: seq<Var>, kwargs: map<string, Var>, fold: Completion)
    requires !HasConstantHandler(op, args, kwargs)
    ensures FoldOutcome(AfterHandler(env, op, options, args, kwargs, Completed(fold)), fold, options)
  {
  }

  /** `reduce`'s handler with two positional operands: no initializer. */
  lemma ReduceHandlerTwo(env: Env, depth: nat, selfGuards: set<Guard>, f: Var, iterable: Var)
    ensures CallHandler(env, depth, Special(Reduce), ReduceH, selfGuards, [f, iterable], map[])
         == ReduceCall(env, depth, f, iterable, None)
  {
    assert Bind(SignatureOf(ReduceH), [f, iterable], map[]).value.fixed == [Some(f), Some(iterable), None];
  }

  /** `reduce`'s handler with three positional operands: the third is the
      initializer. */
  lemma ReduceHandlerThree(env: Env, depth: nat, selfGuards: set<Guard>, f: Var, iterable: Var, init: Var)
    ensures CallHandler(env, depth, Special(Reduce), ReduceH, selfGuards, [f, iterable, init], map[])
         == ReduceCall(env, depth, f, iterable, Some(init))
  {
    assert Bind(SignatureOf(ReduceH), [f, iterable, init], map[]).value.fixed == [Some(f), Some(iterable), Some(init)];
  }

  /** `reduce` reached through the dispatcher with two operands: the
      handler's outcome as `call_function` treats it. */
  lemma ReduceWithoutInitializer(env: Env, depth: nat, selfGuards: set<Guard>, f: Var, iterable: Var)
    ensures Dispatch(env, depth, Special(Reduce), selfGuards, [f, iterable], map[])
         == AfterHandler(env, Special(Reduce), Propagate(selfGuards, [f, iterable], map[]), [f, iterable], map[],
                         ReduceCall(env, depth, f, iterable, None))
  {
    var args := [f, iterable];
    HandlerOnlyOps(Special(Reduce));
    DispatchViaHandler(env, depth, Special(Reduce), ReduceH, selfGuards, args, map[]);
    ReduceHandlerTwo(env, depth, selfGuards, f, iterable);
  }

  /** `reduce` reached through the dispatcher with three operands. */
  lemma ReduceWithInitializer(env: Env, depth: nat, selfGuards: set<Guard>, f: Var, iterable: Var, init: Var)
    ensures Dispatch(env, depth, Special(Reduce), selfGuards, [f, iterable, init], map[])
         == AfterHandler(env, Special(Reduce), Propagate(selfGuards, [f, iterable, init], map[]), [f, iterable, init], map[],
                         ReduceCall(env, depth, f, iterable, Some(init)))
  {
    var args := [f, iterable, init];
    HandlerOnlyOps(Special(Reduce));
    DispatchViaHandler(env, depth, Special(Reduce), ReduceH, selfGuards, args, map[]);
    ReduceHandlerThree(env, depth, selfGuards, f, iterable, init);
  }

  /** `reduce(f, xs)` without an initializer on a non-empty unpackable
      operand: the first element seeds the fold over the others, and the
      result carries the callee's and the operands' guards. */
  lemma ReduceSeedsFromFirstItem(env: Env, depth: nat, selfGuards: set<Guard>, f: Var, iterable: Var)
    requires Unpack(iterable).Some? && |Unpack(iterable).value| > 0
    ensures var xs := Unpack(iterable).value;
            FoldOutcome(Dispatch(env, depth, Special(Reduce), selfGuards, [f, iterable], map[]),
                        FoldLeft(FoldStep(env, depth, f), xs[0], xs[1..]),
                        selfGuards + f.guards + iterable.guards)
  {
    var xs := Unpack(iterable).value;
    var fold := FoldLeft(FoldStep(env, depth, f), xs[0], xs[1..]);
    assert ReduceCall(env, depth, f, iterable, None) == Completed(fold);
    NoKeywordGuards();
    SwappedPairGuards(selfGuards, f, iterable, map[]);
    var options := Propagate(selfGuards, [f, iterable], map[]);
    assert options == selfGuards + f.guards + iterable.guards;
    ReduceWithoutInitializer(env, depth, selfGuards, f, iterable);
    HandlerOnlyOps(Special(Reduce));
    AfterFold(env, Special(Reduce), options, [f, iterable], map[], fold);
  }

  /** `reduce(f, xs, init)` folds every item, left to right, from `init`;
      the result carries the callee's and the operands' guards. */
  lemma ReduceFoldsFromInitializer(env: Env, depth: nat, selfGuards: set<Guard>, f: Var, iterable: Var, init: Var,
                                   xs: seq<Var>)
    requires Unpack(iterable) == Some(xs)
    ensures FoldOutcome(Dispatch(env, depth, Special(Reduce), selfGuards, [f, iterable, init], map[]),
                        FoldLeft(FoldStep(env, depth, f), init, xs),
                        Propagate(selfGuards, [f, iterable, init], map[]))
  {
    var args := [f, iterable, init];
    var fold := FoldLeft(FoldStep(env, depth, f), init, xs);
    assert ReduceCall(env, depth, f, iterable, Some(init)) == Completed(fold);
    ReduceWithInitializer(env, depth, selfGuards, f, iterable, init);
    HandlerOnlyOps(Special(Reduce));
    AfterFold(env, Special(Reduce), Propagate(selfGuards, args, map[]), args, map[], fold);
  }

  /** The operands `call_sum` hands to `reduce` carry the guards of the
      literal zero seed only. */
  lemma SumOperandGuards(a: Var, t: Var, z: Var)
    requires a.guards == {} && t.guards == {}
    ensures Propagate({}, [a, t, z], map[]) == z.guards
  {
    NoKeywordGuards();
    assert [a, t, z][1..] == [t, z];
    assert [t, z][1..] == [z];
    assert [z][1..] == [];
    assert SeqGuards([z]) == z.guards;
    assert SeqGuards([t, z]) == z.guards;
    assert SeqGuards([a, t, z]) == z.guards;
  }

  /** With an integer `start` and no other keyword, `call_sum` hands
      `reduce` the `add` builtin, the items from `start` on, and a literal 0
      carrying the callee's and the sequence's guards. */
  lemma SumCallsReduce(env: Env, depth: nat, selfGuards: set<Guard>, sequence: Var,
                       kwargs: map<string, Var>, s: int)
    requires Unpack(sequence).Some?
    requires kwargs.Keys <= {"start"}
    requires "start" in kwargs ==> kwargs["start"].kind == Constant(CInt(s))
    requires "start" !in kwargs ==> s == 0
    ensures SumCall(env, depth + 1, selfGuards, sequence, kwargs)
         == Completed(Dispatch(env, depth, Special(Reduce), {},
                                  [AddFn(), TupleOf(SliceFrom(Unpack(sequence).value, s), {}),
                                   Var(Constant(CInt(0)), selfGuards + sequence.guards, None)], map[]))
  {
    var startVar := if "start" in kwargs then kwargs["start"] else Lit(CInt(0));
    assert AsPythonConstant(startVar) == Some(CInt(s));
    assert kwargs.Keys - {"start"} == {};
    assert SumItems(Unpack(sequence).value, CInt(s)) == Some(SliceFrom(Unpack(sequence).value, s));
  }

  /** The `reduce` call `call_sum` makes: `add` folded over `items` from a
      literal 0 carrying `gs`; the result carries `gs` and nothing more. */
  lemma SumOfItems(env: Env, depth: nat, gs: set<Guard>, items: seq<Var>)
    ensures var zero := Var(Constant(CInt(0)), gs, None);
            FoldOutcome(Dispatch(env, depth, Special(Reduce), {}, [AddFn(), TupleOf(items, {}), zero], map[]),
                        FoldLeft(FoldStep(env, depth, AddFn()), zero, items),
                        gs)
  {
    var zero := Var(Constant(CInt(0)), gs, None);
    assert Unpack(TupleOf(items, {})) == Some(items);
    ReduceFoldsFromInitializer(env, depth, {}, AddFn(), TupleOf(items, {}), zero, items);
    SumOperandGuards(AddFn(), TupleOf(items, {}), zero);
  }

  /** `sum(xs, start=s)` with an integer `s` folds `add` over `xs[s:]` (a
      slice of the items, not an initial value) from a literal 0 that carries
      the callee's and the sequence's guards. */
  lemma SumFoldsSlicedItems(env: Env, depth: nat, selfGuards: set<Guard>, sequence: Var,
                            kwargs: map<string, Var>, s: int)
    requires Unpack(sequence).Some?
    requires kwargs.Keys <= {"start"}
    requires "start" in kwargs ==> kwargs["start"].kind == Constant(CInt(s))
    requires "start" !in kwargs ==> s == 0
    ensures var gs := selfGuards + sequence.guards;
            var r := SumCall(env, depth + 1, selfGuards, sequence, kwargs);
            && r.Completed?
            && FoldOutcome(r.c, FoldLeft(FoldStep(env, depth, AddFn()), Var(Constant(CInt(0)), gs, None),
                                         SliceFrom(Unpack(sequence).value, s)), gs)
  {
    var gs := selfGuards + sequence.guards;
    var items := SliceFrom(Unpack(sequence).value, s);
    var zero := Var(Constant(CInt(0)), gs, None);
    var r := Dispatch(env, depth, Special(Reduce), {}, [AddFn(), TupleOf(items, {}), zero], map[]);
    SumCallsReduce(env, depth, selfGuards, sequence, kwargs, s);
    assert SumCall(env, depth + 1, selfGuards, sequence, kwargs) == Completed(r);
    SumOfItems(env, depth, gs, items);
    assert FoldOutcome(r, FoldLeft(FoldStep(env, depth, AddFn()), zero, items), gs);
  }

  // ---------------------------------------------------------------- isinstance

  /** `isinstance(x, spec)`: with a known type for `x` and a constant `spec`
      (a type, a builtin class, or a tuple of them), the literal outcome of
      the subclass test carrying the callee's and both operands' guards;
      otherwise the handler's NotImplementedError escapes. */
  lemma IsInstanceDecides(env: Env, depth: nat, selfGuards: set<Guard>, x: Var, typeArg: Var)
    ensures var r := Dispatch(env, depth, Special(IsInstance), selfGuards, [x, typeArg], map[]);
            var gs := selfGuards + x.guards + typeArg.guards;
            && (PythonType(x).Some? && IsPythonConstant(typeArg) ==>
                  r == Value(Var(Constant(CBool(SubclassOf(PythonType(x).value, AsPythonConstant(typeArg).value) == Some(true))),
                                 gs, None)))
            && (PythonType(x).None? || !IsPythonConstant(typeArg) ==> r == Raised(NotImplementedError))
  {
    var args := [x, typeArg];
    IsInstanceViaHandler(env, depth, selfGuards, x, typeArg);
    NoKeywordGuards();
    SwappedPairGuards(selfGuards, x, typeArg, map[]);
    var gs := Propagate(selfGuards, args, map[]);
    var h := IsInstanceCall(x, typeArg);
    if PythonType(x).Some? && IsPythonConstant(typeArg) {
      assert h.Completed? && h.c.Value?;
      assert AfterHandler(env, Special(IsInstance), gs, args, map[], h) == Value(AddGuards(h.c.v, gs));
    } else {
      assert h == Completed(Raised(NotImplementedError));
    }
  }

  /** `isinstance` reaches its handler: it is neither insertable nor folded. */
  lemma IsInstanceViaHandler(env: Env, depth: nat, selfGuards: set<Guard>, x: Var, typeArg: Var)
    ensures var args := [x, typeArg];
            (Dispatch(env, depth, Special(IsInstance), selfGuards, args, map[])
               == AfterHandler(env, Special(IsInstance), Propagate(selfGuards, args, map[]), args, map[],
                               IsInstanceCall(x, typeArg)))
  {
    var args := [x, typeArg];
    HandlerOnlyOps(Special(IsInstance));
    DispatchViaHandler(env, depth, Special(IsInstance), IsInstanceH, selfGuards, args, map[]);
    IsInstanceHandler(env, depth, selfGuards, x, typeArg);
  }

  /** `isinstance`'s handler with its two positional operands. */
  lemma IsInstanceHandler(env: Env, depth: nat, selfGuards: set<Guard>, x: Var, typeArg: Var)
    ensures CallHandler(env, depth, Special(IsInstance), IsInstanceH, selfGuards, [x, typeArg], map[])
         == IsInstanceCall(x, typeArg)
  {
    var b := Bind(SignatureOf(IsInstanceH), [x, typeArg], map[]).value;
    assert b.fixed == [Some(x), Some(typeArg)];
    assert CallHandler(env, depth, Special(IsInstance), IsInstanceH, selfGuards, [x, typeArg], map[])
        == DirectHandler(env, Special(IsInstance), IsInstanceH, selfGuards, [x, typeArg], map[], b);
  }

  /** `isinstance(x, C)` with `C` a builtin class such as `str` or `bool`:
      the builtin stands for its class, so the answer is whether the type
      of `x` is below that class. */
  lemma IsInstanceOfBuiltinClass(env: Env, depth: nat, selfGuards: set<Guard>, x: Var, typeArg: Var)
    requires PythonType(x).Some? && typeArg.kind.Builtin? && BuiltinClass(typeArg.kind.op).Some?
    ensures Dispatch(env, depth, Special(IsInstance), selfGuards, [x, typeArg], map[])
         == Value(Var(Constant(CBool(IsSubclass(PythonType(x).value, BuiltinClass(typeArg.kind.op).value))),
                      selfGuards + x.guards + typeArg.guards, None))
  {
    IsInstanceDecides(env, depth, selfGuards, x, typeArg);
  }

  /** `isinstance(x, (C_0, ..., C_n))` over a tuple of builtin classes: True
      exactly when the type of `x` is below one of them. */
  lemma IsInstanceOfBuiltinTuple(env: Env, depth: nat, selfGuards: set<Guard>, x: Var, typeArg: Var)
    requires PythonType(x).Some? && typeArg.kind.Sequence? && typeArg.kind.seqKind.TupleKind?
    requires forall i :: 0 <= i < |typeArg.kind.items| ==>
               typeArg.kind.items[i].kind.Builtin? && BuiltinClass(typeArg.kind.items[i].kind.op).Some?
    ensures var items := typeArg.kind.items;
            var b := exists j :: 0 <= j < |items| && IsSubclass(PythonType(x).value, BuiltinClass(items[j].kind.op).value);
            Dispatch(env, depth, Special(IsInstance), selfGuards, [x, typeArg], map[])
              == Value(Var(Constant(CBool(b)), selfGuards + x.guards + typeArg.guards, None))
  {
    BuiltinTupleTest(PythonType(x).value, typeArg);
    IsInstanceDecides(env, depth, selfGuards, x, typeArg);
  }

  /** A tuple of builtin classes is the constant tuple of those classes, and
      the subclass test against it asks whether `t` is below one of them. */
  lemma BuiltinTupleTest(t: PyType, typeArg: Var)
    requires typeArg.kind.Sequence? && typeArg.kind.seqKind.TupleKind?
    requires forall i :: 0 <= i < |typeArg.kind.items| ==>
               typeArg.kind.items[i].kind.Builtin? && BuiltinClass(typeArg.kind.items[i].kind.op).Some?
    ensures var items := typeArg.kind.items;
            && IsPythonConstant(typeArg)
            && SubclassOf(t, AsPythonConstant(typeArg).value)
               == Some(exists j :: 0 <= j < |items| && IsSubclass(t, BuiltinClass(items[j].kind.op).value))
  {
    var items := typeArg.kind.items;
    assert forall i :: 0 <= i < |items| ==> AsPythonConstant(items[i]) == Some(CType(BuiltinClass(items[i].kind.op).value));
    assert !typeArg.kind.seqKind.NamedTupleKind? && forall i :: 0 <= i < |items| ==> AsPythonConstant(items[i]).Some?;
    var cs := AsPythonConstant(typeArg).value;
    assert cs == CTuple(cs.elems) && |cs.elems| == |items|;
    assert forall j :: 0 <= j < |items| ==> cs.elems[j] == CType(BuiltinClass(items[j].kind.op).value);
    SubclassOfTypeTuple(t, cs.elems);
    assert (exists j :: 0 <= j < |cs.elems| && IsSubclass(t, cs.elems[j].t))
       <==> (exists j :: 0 <= j < |items| && IsSubclass(t, BuiltinClass(items[j].kind.op).value));
  }
}
