/**
  The iteration patterns of the handlers that call back into the tracer,
  over an arbitrary call: a left fold (`call_reduce`), a map (`call_map`)
  and the rows of tensor `zip` (`call_zip`). Each call either returns a
  value or ends the iteration with its outcome, as an exception propagating
  out of a Python loop or comprehension does.
*/
module Iteration {
  import opened Values

  /** The results of a sequence of calls made left to right: every value, or
      the first call that did not return one. */
  datatype ItemsResult = AllValues(vs: seq<Var>) | Interrupted(c: Completion)

  /** `value = step(value, element)` for each element in order. */
  function FoldLeft(step: (Var, Var) -> Completion, acc: Var, xs: seq<Var>): (r: Completion)
    ensures xs == [] ==> r == Value(acc)
    decreases |xs|
  {
    if xs == [] then Value(acc)
    else
      match step(acc, xs[0])
      case Value(v) => FoldLeft(step, v, xs[1..])
      case c => c
  }

  /** `[call(x) for x in xs]`. */
  function MapAll(call: Var -> Completion, xs: seq<Var>): (r: ItemsResult)
    ensures r.AllValues? ==> |r.vs| == |xs|
    ensures r.Interrupted? ==> !r.c.Value?
    decreases |xs|
  {
    if xs == [] then AllValues([])
    else
      match call(xs[0])
      case Value(v) =>
        (match MapAll(call, xs[1..])
         case AllValues(vs) => AllValues([v] + vs)
         case Interrupted(c) => Interrupted(c))
      case c => Interrupted(c)
  }

  /** Row `i` of tensor `zip`: `getItem(arg, i)` for `args[j..]`, in order. */
  function ZipRow(getItem: (Var, nat) -> Completion, args: seq<Var>, i: nat, j: nat): (r: ItemsResult)
    requires j <= |args|
    ensures r.AllValues? ==> |r.vs| == |args| - j
    ensures r.Interrupted? ==> !r.c.Value?
    decreases |args| - j
  {
    if j == |args| then AllValues([])
    else
      match getItem(args[j], i)
      case Value(v) =>
        (match ZipRow(getItem, args, i, j + 1)
         case AllValues(vs) => AllValues([v] + vs)
         case Interrupted(c) => Interrupted(c))
      case c => Interrupted(c)
  }

  /** Rows `i` to `n - 1` of tensor `zip`, each a tuple carrying `options`. */
  function ZipRows(getItem: (Var, nat) -> Completion, options: set<Guard>, args: seq<Var>, i: nat, n: nat): (r: ItemsResult)
    requires i <= n
    ensures r.AllValues? ==> |r.vs| == n - i
    ensures r.Interrupted? ==> !r.c.Value?
    decreases n - i
  {
    if i == n then AllValues([])
    else
      match ZipRow(getItem, args, i, 0)
      case AllValues(row) =>
        (match ZipRows(getItem, options, args, i + 1, n)
         case AllValues(rows) => AllValues([TupleOf(row, options)] + rows)
         case Interrupted(c) => Interrupted(c))
      case Interrupted(c) => Interrupted(c)
  }

  // ---------------------------------------------------------------- properties

  /** The fold runs left to right: one more element applies the step to the
      fold of the prefix and that element. */
  lemma {:induction false} FoldLeftSnoc(step: (Var, Var) -> Completion, acc: Var, xs: seq<Var>, x: Var)
    ensures FoldLeft(step, acc, xs + [x])
         == match FoldLeft(step, acc, xs)
            case Value(v) => step(v, x)
            case c => c
    decreases |xs|
  {
    if xs == [] {
      assert xs + [x] == [x];
      assert [x][1..] == [];
    } else {
      assert (xs + [x])[0] == xs[0];
      assert (xs + [x])[1..] == xs[1..] + [x];
      match step(acc, xs[0])
      case Value(v) => FoldLeftSnoc(step, v, xs[1..], x);
      case _ =>
    }
  }

  /** When every call returns, result `k` is the call on element `k`. */
  lemma {:induction false} MapAllElements(call: Var -> Completion, xs: seq<Var>)
    requires MapAll(call, xs).AllValues?
    ensures forall k :: 0 <= k < |xs| ==> call(xs[k]) == Value(MapAll(call, xs).vs[k])
    decreases |xs|
  {
    if xs != [] {
      var rest := MapAll(call, xs[1..]);
      assert call(xs[0]).Value? && rest.AllValues? && MapAll(call, xs).vs == [call(xs[0]).v] + rest.vs;
      MapAllElements(call, xs[1..]);
    }
  }

  /** When a call does not return, the map stops at the first such call:
      every earlier call returned a value and that call's outcome is the
      map's. */
  lemma {:induction false} MapAllStopsAtFirstFailure(call: Var -> Completion, xs: seq<Var>)
    requires MapAll(call, xs).Interrupted?
    ensures exists k :: 0 <= k < |xs| && call(xs[k]) == MapAll(call, xs).c
                        && forall j :: 0 <= j < k ==> call(xs[j]).Value?
    decreases |xs|
  {
    var c := MapAll(call, xs).c;
    if call(xs[0]).Value? {
      var rest := MapAll(call, xs[1..]);
      assert rest.Interrupted? && rest.c == c;
      MapAllStopsAtFirstFailure(call, xs[1..]);
      var k :| 0 <= k < |xs[1..]| && call(xs[1..][k]) == c && forall j :: 0 <= j < k ==> call(xs[1..][j]).Value?;
      assert call(xs[k + 1]) == c;
      assert forall j :: 0 <= j < k + 1 ==> call(xs[j]).Value? by {
        forall j | 0 <= j < k + 1
          ensures call(xs[j]).Value?
        {
          if j > 0 { assert xs[j] == xs[1..][j - 1]; }
        }
      }
    } else {
      assert call(xs[0]) == c;
    }
  }

  /** A completed row holds `getItem(arg, i)` for each operand in order. */
  lemma {:induction false} ZipRowElements(getItem: (Var, nat) -> Completion, args: seq<Var>, i: nat, j: nat)
    requires j <= |args| && ZipRow(getItem, args, i, j).AllValues?
    ensures forall k :: j <= k < |args| ==> getItem(args[k], i) == Value(ZipRow(getItem, args, i, j).vs[k - j])
    decreases |args| - j
  {
    if j < |args| {
      var rest := ZipRow(getItem, args, i, j + 1);
      assert getItem(args[j], i).Value? && rest.AllValues?
          && ZipRow(getItem, args, i, j).vs == [getItem(args[j], i).v] + rest.vs;
      ZipRowElements(getItem, args, i, j + 1);
    }
  }

  /** Completed rows `i` to `n - 1` are the tuples of the completed rows, in
      index order. */
  lemma {:induction false} ZipRowsElements(getItem: (Var, nat) -> Completion, options: set<Guard>,
                                           args: seq<Var>, i: nat, n: nat)
    requires i <= n && ZipRows(getItem, options, args, i, n).AllValues?
    ensures forall k :: i <= k < n ==>
              && ZipRow(getItem, args, k, 0).AllValues?
              && ZipRows(getItem, options, args, i, n).vs[k - i] == TupleOf(ZipRow(getItem, args, k, 0).vs, options)
    decreases n - i
  {
    if i < n {
      var row := ZipRow(getItem, args, i, 0);
      var rest := ZipRows(getItem, options, args, i + 1, n);
      assert row.AllValues? && rest.AllValues?
          && ZipRows(getItem, options, args, i, n).vs == [TupleOf(row.vs, options)] + rest.vs;
      ZipRowsElements(getItem, options, args, i + 1, n);
    }
  }

  /** Row `i` of the tensor `zip` rows: a tuple carrying `options` with one
      entry per operand, entry `j` being `getItem(args[j], i)`. */
  lemma ZipRowsEntry(getItem: (Var, nat) -> Completion, options: set<Guard>, args: seq<Var>, n: nat, i: nat)
    requires i < n && ZipRows(getItem, options, args, 0, n).AllValues?
    ensures var row := ZipRows(getItem, options, args, 0, n).vs[i];
            && row.kind.Sequence? && |row.kind.items| == |args| && row.guards == options
            && (forall j :: 0 <= j < |args| ==> getItem(args[j], i) == Value(row.kind.items[j]))
  {
    ZipRowsElements(getItem, options, args, 0, n);
    var row := ZipRow(getItem, args, i, 0);
    assert row.AllValues? && ZipRows(getItem, options, args, 0, n).vs[i] == TupleOf(row.vs, options);
    ZipRowElements(getItem, args, i, 0);
  }

  /** The tensor `zip` rows as a whole: `n` tuples of one entry per operand,
      entry `j` of row `i` being `getItem(args[j], i)`. */
  lemma ZipRowsShape(getItem: (Var, nat) -> Completion, options: set<Guard>, args: seq<Var>, n: nat)
    requires ZipRows(getItem, options, args, 0, n).AllValues?
    ensures var rows := ZipRows(getItem, options, args, 0, n).vs;
            && |rows| == n
            && (forall i :: 0 <= i < n ==>
                  rows[i].kind.Sequence? && |rows[i].kind.items| == |args| && rows[i].guards == options)
            && (forall i, j :: 0 <= i < n && 0 <= j < |args| ==> getItem(args[j], i) == Value(rows[i].kind.items[j]))
  {
    forall i | 0 <= i < n
      ensures var row := ZipRows(getItem, options, args, 0, n).vs[i];
              && row.kind.Sequence? && |row.kind.items| == |args| && row.guards == options
              && (forall j :: 0 <= j < |args| ==> getItem(args[j], i) == Value(row.kind.items[j]))
    {
      ZipRowsEntry(getItem, options, args, n, i);
    }
  }
}
