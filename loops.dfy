/**
  The handlers whose source is a loop, written as loops: the fold of
  `call_reduce` and the row loop of `call_zip` over tensors. Each loop is
  proved to compute the `Iteration` function that specifies it, and each
  handler to compute what the corresponding function of `Dispatcher`
  computes, so every property proved of those functions holds of these
  methods.
*/
module Loops {
  import opened Values
  import opened Collaborators
  import opened Handlers
  import opened Iteration
  import opened Dispatcher

  /** `for element in items: value = step(value, element)`, leaving the
      loop with the first outcome that is not a value. */
  method FoldItems(step: (Var, Var) -> Completion, seed: Var, items: seq<Var>) returns (c: Completion)
    ensures c == FoldLeft(step, seed, items)
  {
    var value := seed;
    var i := 0;
    while i < |items|
      invariant 0 <= i <= |items|
      invariant FoldLeft(step, seed, items) == FoldLeft(step, value, items[i..])
    {
      assert items[i..][0] == items[i] && items[i..][1..] == items[i + 1..];
      var next := step(value, items[i]);
      if !next.Value? {
        return next;
      }
      value := next.v;
      i := i + 1;
    }
    return Value(value);
  }

  /** The rows already built followed by the outcome of building the rest. */
  function Prepend(done: seq<Var>, rest: ItemsResult): ItemsResult
  {
    match rest
    case AllValues(vs) => AllValues(done + vs)
    case Interrupted(c) => Interrupted(c)
  }

  /** `for i in range(n)`: build row `i` and append its tuple, leaving the
      loop with the first outcome that is not a value. */
  method ZipTensorRows(getItem: (Var, nat) -> Completion, options: set<Guard>, args: seq<Var>, n: nat)
    returns (res: ItemsResult)
    ensures res == ZipRows(getItem, options, args, 0, n)
  {
    var items: seq<Var> := [];
    var i := 0;
    while i < n
      invariant 0 <= i <= n
      invariant ZipRows(getItem, options, args, 0, n) == Prepend(items, ZipRows(getItem, options, args, i, n))
    {
      var row := ZipRow(getItem, args, i, 0);
      if row.Interrupted? {
        return Interrupted(row.c);
      }
      ghost var later := ZipRows(getItem, options, args, i + 1, n);
      assert later.AllValues? ==> items + ([TupleOf(row.vs, options)] + later.vs)
                                  == (items + [TupleOf(row.vs, options)]) + later.vs;
      items := items + [TupleOf(row.vs, options)];
      i := i + 1;
    }
    assert items + [] == items;
    return AllValues(items);
  }

  /** `call_reduce`: unpack the iterable, take the seed (the first item when
      there is no initializer), then `value = function(value, element)` for
      each remaining element in order. */
  method CallReduce(env: Env, depth: nat, f: Var, iterable: Var, initializer: Option<Var>) returns (r: Handled)
    ensures r == ReduceCall(env, depth, f, iterable, initializer)
  {
    var unpacked := Unpack(iterable);
    if unpacked.None? {
      return Declined;
    }
    var items := unpacked.value;
    var value: Var;
    if initializer.None? {
      if |items| == 0 {
        return Completed(Raised(IndexError));
      }
      value, items := items[0], items[1..];
    } else {
      value := initializer.value;
    }
    var c := FoldItems(FoldStep(env, depth, f), value, items);
    return Completed(c);
  }

  /** `call_zip`: over operands that all unpack, the host `zip`; over sized
      tensors, one row per index below the smallest leading dimension, each
      row the tuple of `getitem` results. */
  method CallZip(env: Env, depth: nat, selfGuards: set<Guard>, args: seq<Var>) returns (r: Handled)
    ensures r == ZipCall(env, depth, selfGuards, args)
  {
    var options := selfGuards + SeqGuards(args);
    if AllUnpackable(args) {
      return Returns(TupleOf(ZipLists(UnpackAll(args), options), options));
    }
    if !AllSizedTensors(args) {
      return Declined;
    }
    var rows := ZipTensorRows(GetItemCall(env, depth, options), options, args, MinLeadingDim(args));
    match rows
    case AllValues(vs) => return Returns(TupleOf(vs, options));
    case Interrupted(c) => return Completed(c);
  }
}
