# Builtin-call dispatch of the TorchDynamo tracer

TorchDynamo traces Python bytecode symbolically. Each traced value is a
*variable tracker*. It records what the tracer knows about the value, the
guards that keep that knowledge valid, and where the value can be re-read
from (its source). When the traced program calls a Python builtin (`min`,
`zip`, `getattr`, `operator.add`, ...), `BuiltinVariable.call_function`
chooses one of four outcomes:

- record the call as a node of the output graph (when an operand is a
  tensor and the builtin is graph-insertable);
- run a symbolic handler `call_<name>`;
- constant-fold the call on the host (when every operand is a literal and the
  builtin is foldable);
- or break the graph.

This project models that decision procedure and its handlers and proves
what they promise:

- the membership sets, and how they relate;
- the priority of graph insertion over everything else, including the `iadd`
  operand swap;
- how a handler's outcome is treated: a value, a decline, an argument
  `TypeError`, or a graph break suppressed only when folding is available;
- what constant folding produces;
- the shapes built by `zip`, `enumerate`, `map`, `sum` and `reduce`;
- the order in which `getattr` looks in an `nn.Module`'s stores.

The modules are:

- `Classifier`: the builtins and the two membership sets.
- `Values`: variable trackers, guards, sources, completions.
- `Collaborators`: the tracer's collaborators as an environment of functions.
  These are the output graph, the operands' own methods, the value builder,
  the module registry and host evaluation.
- `Iteration`: the fold, map and tensor-`zip` row patterns over an arbitrary
  call, each stopping at the first call that does not return.
- `Handlers`: the handlers that do not call back into the dispatcher, and
  Python's binding of operands to a handler's parameters.
- `Attributes`: `call_getattr`.
- `Dispatcher`: `call_function`, and the handlers that re-enter it.
- `CallFunctionFacts`: the properties of the dispatcher.
- `Loops`: the loops of `call_reduce` and `call_zip`, each proved equal to
  the function that specifies it.

An outcome is a `Completion`: a value, a graph break (`Unsupported`) with
its diagnostic, or another exception. A handler either declines (returns
`None`) or completes.

A rejected graph insertion ends the call with the graph break "partial
tensor op" at once (builtin.py:188-189).

## Model

| member | source | states |
|---|---|---|
| Classifier.InsertableIsFoldable | torchdynamo/variables/builtin.py:89-131 | every graph-insertable builtin (`can_insert_in_graph`) is also constant-foldable (`can_constant_fold_through`) |
| Classifier.HandlerOnlyOps | torchdynamo/variables/builtin.py:89-90 | `range`, `zip`, `enumerate`, `isinstance`, `getattr`, `reduce`, `map` and the other handler-only builtins are neither foldable nor insertable |
| Values.AddGuards | torchdynamo/variables/builtin.py:196 | adding options keeps the variant and source and unions the guards |
| Values.SeqGuards | torchdynamo/variables/builtin.py:166 | the propagated guards contain every operand's guards and nothing else |
| Values.KwGuards | torchdynamo/variables/builtin.py:166 | the propagated guards contain every keyword operand's guards |
| Values.RangeInts | torchdynamo/variables/builtin.py:237-244 | element `i` of a range is `start + i*step`, every element lies on the near side of `stop`, and the next step would reach or pass `stop` |
| Values.AsPythonConstant | torchdynamo/variables/builtin.py:143-144 | a literal's host value is its payload; a builtin's is the builtin itself (its class for `str`, `bool`, `tuple`, ...); a list/tuple tracker has one exactly when every item does, and it is the list/tuple of the items' values |
| Values.PythonType | torchdynamo/variables/builtin.py:140-141 | a literal's type is the type of its payload; a builtin's type is `type` when it is a class and the builtin-function type otherwise |
| Values.BuiltinValue | torchdynamo/variables/builtin.py:143-144 | a builtin class stands for that class; any other builtin is a function object whose type is the builtin-function type |
| Values.Propagate | torchdynamo/variables/builtin.py:166 | the options carry the callee's, every positional operand's and every keyword operand's guards, and no other guard |
| Values.ConstantArgsAreNotTensorArgs | torchdynamo/variables/builtin.py:164-165 | all-literal operands contain no tensor, so folding and graph insertion never both apply to the same operands |
| Handlers.Bind | torchdynamo/variables/builtin.py:191-199 | binding succeeds exactly when Python accepts the call; positional operands, keywords and defaults land in the right parameters; the rest go to `*args`/`**kwargs` |
| Handlers.HandlerLookupIsByName | torchdynamo/variables/builtin.py:191 | the handler table follows `call_<name>`: a builtin with a handler has its `__name__` among that handler's names, a builtin without one has a name no handler carries |
| Handlers.SignatureOf | torchdynamo/variables/builtin.py:218-381 | each handler's parameter list: required parameters come first, names are distinct and none is a reserved keyword |
| Handlers.PositionalArity | torchdynamo/variables/builtin.py:193-199 | without keywords a handler accepts the operands exactly when there are at least its required parameters and at most its parameters, unless it takes `*args` |
| Handlers.MinMax | torchdynamo/variables/builtin.py:218-235 | declines without a tensor operand; the tensor goes first (the operands are swapped when the second is the tensor); a literal other operand becomes a `clamp` bound (`min=` for `max`, `max=` for `min`), anything else gives `maximum`/`minimum` on the tensor and the other operand |
| Handlers.RangeCall | torchdynamo/variables/builtin.py:237-244 | declines exactly when an operand is not literal; with literal integer operands `range(stop)`, `range(start, stop[, step])` with the operands in that order, a zero step is a ValueError; a non-integer literal, keywords or a wrong arity are TypeErrors |
| Handlers.SliceCall | torchdynamo/variables/builtin.py:246-247 | a slice tracker holding exactly the operands |
| Handlers.SuperCall | torchdynamo/variables/builtin.py:334-335 | a `super` tracker over both operands |
| Handlers.IterTupleList | torchdynamo/variables/builtin.py:249-264 | with no operand, the empty fresh container; declines exactly when the operand does not unpack; otherwise the fresh mutable container (`iter`, `tuple` or `list`) of exactly the unpacked items |
| Handlers.FreshContainer | torchdynamo/variables/builtin.py:250-259 | the container chosen for `iter`, `tuple` or `list` unpacks to the given items |
| Handlers.MinLen | torchdynamo/variables/builtin.py:271 | `zip` stops at the shortest operand: the result is at most every length and equals one |
| Handlers.ZipLists | torchdynamo/variables/builtin.py:268-273 | as many rows as the shortest operand; row `i`, column `j` is item `i` of operand `j`; every row carries the options |
| Handlers.UnpackAll | torchdynamo/variables/builtin.py:271 | operand `j`'s unpacked items, in operand order |
| Handlers.MinLeadingDim | torchdynamo/variables/builtin.py:275 | the smallest leading dimension: at most each operand's, equal to one |
| Handlers.EnumeratePairs | torchdynamo/variables/builtin.py:294-300 | pair `i` is the literal `i` followed by item `i` |
| Handlers.EnumerateCall | torchdynamo/variables/builtin.py:291-301 | declines exactly when the operand does not unpack; otherwise the index/item pairs with the callee's and operand's guards |
| Handlers.RepeatLength | torchdynamo/variables/builtin.py:307 | repeating `n` times multiplies the length by `n` |
| Handlers.RepeatAt | torchdynamo/variables/builtin.py:307 | copy `k` of the repetition holds the original items in order |
| Handlers.RepeatContainer | torchdynamo/variables/builtin.py:307 | a non-index count is a TypeError; otherwise the container cloned with its items repeated |
| Handlers.MulCall | torchdynamo/variables/builtin.py:303-311 | declines unless one operand is a list/tuple and the other a literal; otherwise the list/tuple operand repeated by the literal count |
| Handlers.Redirect | torchdynamo/variables/builtin.py:313-323 | `len`/`add`/`iadd`/`getitem` call the first operand's dunder method with the rest; no operand is an IndexError |
| Handlers.SubclassOf | torchdynamo/variables/builtin.py:329 | a type operand gives the subclass test; an operand that is neither a type nor a tuple raises TypeError |
| Handlers.SubclassOfAny | torchdynamo/variables/builtin.py:329 | the empty tuple matches nothing |
| Handlers.SubclassOfAnyAllFalse | torchdynamo/variables/builtin.py:329 | a tuple whose every member is a type `t` is not below answers False |
| Handlers.SubclassOfAnyFirstDecides | torchdynamo/variables/builtin.py:329 | otherwise the first member, left to right, that does not answer False decides: True, or a TypeError for a member that is neither a type nor a tuple |
| Handlers.SubclassOfTypeTuple | torchdynamo/variables/builtin.py:329 | a tuple of types answers True exactly when `t` is below one of them |
| Handlers.FirstMatch | torchdynamo/variables/builtin.py:329 | the first member of a tuple of types that `t` is below: every earlier member is not above `t` |
| Handlers.IsInstanceCall | torchdynamo/variables/builtin.py:325-332 | the literal result of the subclass test of the operand's type; NotImplementedError when the type or the literal is unavailable |
| Handlers.NextCall | torchdynamo/variables/builtin.py:337-341 | declines exactly when the operand is not a list iterator; otherwise its current item, or StopIteration when exhausted |
| Handlers.HasAttrCall | torchdynamo/variables/builtin.py:343-346 | declines exactly when the name is not literal; otherwise the operand's own `hasattr` |
| Attributes.StoreLookup | torchdynamo/variables/builtin.py:418-425 | the name is looked up in instance `__dict__`, `_modules`, `_parameters`, `_buffers`, in that order, and found exactly when one has it |
| Attributes.StaticMemberAttr | torchdynamo/variables/builtin.py:434-450 | a property runs its getter on the receiver; a class method binds the class; a static method binds nothing; a function binds the receiver; any other kind is a graph break |
| Attributes.ModuleAttr | torchdynamo/variables/builtin.py:410-450 | an `nn.Module` without a source is a graph break; a name in a store is built under an `NNModuleSource` with the guards added; otherwise the static lookup's member, or AttributeError when there is none |
| Attributes.TorchAttr | torchdynamo/variables/builtin.py:459-466 | a missing member raises AttributeError; an allowed member stays a torch tracker, a disallowed literal becomes a literal, both with the guards and source; any other member is built with the guards added |
| Attributes.Resolve | torchdynamo/variables/builtin.py:452-477 | the branch by receiver: `nn.Module`, tensor/literal/named tuple through `get_var_attr` with a deferred fallback, torch namespace, Python module (KeyError when absent), user object through `__getattr__`, function metadata; everything else a deferred attribute |
| Attributes.GetAttrCall | torchdynamo/variables/builtin.py:395-408 | a non-literal name, then a default, is a graph break; otherwise the receiver's branch with the callee's, receiver's and name's guards and the attribute source |
| Attributes.StoreHitIsBuilt | torchdynamo/variables/builtin.py:418-433 | a name found in a store (instance `__dict__` first, as `StoreLookup` orders them) is built from that entry under an `NNModuleSource`, with the callee's, receiver's and name's guards |
| Attributes.MissingModuleAttributeRaises | torchdynamo/variables/builtin.py:426-427 | a name in no store and unknown to the static lookup raises AttributeError |
| Attributes.StaticFunctionBindsReceiver | torchdynamo/variables/builtin.py:447-448 | a name found only as a class function becomes a method bound to the receiver, with the attribute source |
| Attributes.UnknownClassMemberUnsupported | torchdynamo/variables/builtin.py:449-450 | an unknown kind of class member is a graph break |
| Attributes.DeferredAttributeKeepsReceiver | torchdynamo/variables/builtin.py:476-477 | every receiver of no special variant gives a deferred attribute over it with the callee's, receiver's and name's guards and the derived source |
| Attributes.OwnAttributeOrDeferred | torchdynamo/variables/builtin.py:452-458 | a tensor, literal or named tuple answers with its own attribute, re-sourced and guarded; when it has none the result is a deferred attribute |
| Attributes.PythonModuleLookup | torchdynamo/variables/builtin.py:467-469 | a missing module member raises KeyError; a present one is built with the guards added |
| Attributes.FunctionMetadataIsLiteral | torchdynamo/variables/builtin.py:472-477 | a function's `__name__`/`__module__` is a literal with only the function's guards; other names are deferred |
| Attributes.UserObjectDelegates | torchdynamo/variables/builtin.py:470-471 | a user object answers through its own `__getattr__` |
| Attributes.AllowedTorchMemberStaysNamespace | torchdynamo/variables/builtin.py:459-462 | an allowed torch member stays a torch namespace tracker with the attribute's guards |
| Iteration.FoldLeft | torchdynamo/variables/builtin.py:377-379 | folding no items returns the seed |
| Iteration.FoldLeftSnoc | torchdynamo/variables/builtin.py:377-378 | the fold runs left to right: one more item applies the function to the prefix's fold and that item |
| Iteration.MapAll | torchdynamo/variables/builtin.py:350 | one result per item when every call returns; an interrupted map carries no value |
| Iteration.MapAllElements | torchdynamo/variables/builtin.py:350 | when every call returns, result `k` is the call on item `k` |
| Iteration.MapAllStopsAtFirstFailure | torchdynamo/variables/builtin.py:350 | an interrupted map carries the outcome of the first call that did not return, every earlier call having returned |
| Iteration.ZipRow | torchdynamo/variables/builtin.py:280-285 | a completed row has one entry per operand; an interrupted row carries no value |
| Iteration.ZipRows | torchdynamo/variables/builtin.py:276-289 | completed rows number exactly the rows requested; an interrupted run carries no value |
| Iteration.ZipRowElements | torchdynamo/variables/builtin.py:280-285 | a completed tensor row holds `getitem(arg, i)` for each operand in order |
| Iteration.ZipRowsElements | torchdynamo/variables/builtin.py:276-288 | completed tensor rows are the tuples of their rows in index order |
| Iteration.ZipRowsEntry | torchdynamo/variables/builtin.py:276-288 | row `i` is a tuple with the options and one entry per operand, entry `j` being `getitem(arg_j, i)` |
| Iteration.ZipRowsShape | torchdynamo/variables/builtin.py:274-289 | `n` rows, each a tuple with the options and one entry per operand, entry `j` of row `i` being `getitem(arg_j, i)` |
| Dispatcher.Evaluate | torchdynamo/variables/builtin.py:209-212 | integer `+`, `-`, `*` (and in-place forms) on literals give the exact integer result |
| Dispatcher.Fold | torchdynamo/variables/builtin.py:206-214 | folding succeeds exactly when host evaluation does, with a literal carrying the options and no source |
| Dispatcher.NoHandlerOutcome | torchdynamo/variables/builtin.py:206-216 | folds when the builtin is foldable and every operand literal; otherwise the generic graph break |
| Dispatcher.GraphCall | torchdynamo/variables/builtin.py:173-178 | `iadd` with a literal first operand is recorded as `add` with the operands swapped; missing operands are an IndexError; otherwise the call is recorded as made |
| Dispatcher.InsertInGraph | torchdynamo/variables/builtin.py:171-189 | a created node is the tensor of that node and size, carrying the options and no source; a rejection or NotImplementedError is the graph break "partial tensor op"; missing operands are an IndexError; any other exception escapes |
| Dispatcher.AfterHandler | torchdynamo/variables/builtin.py:191-216 | a handler value gets the options; a decline or argument TypeError falls through; a handler graph break is replaced by folding only when folding applies; another TypeError fails the assertion; any other exception escapes |
| Dispatcher.Dispatch | torchdynamo/variables/builtin.py:161-216 | every value it returns carries the guards of the callee and of every operand |
| Dispatcher.CallBuiltin | torchdynamo/variables/builtin.py:282 | a builtin called from a handler is traced by `call_function` again, one nesting level deeper |
| Dispatcher.CallVar | torchdynamo/variables/builtin.py:350 | a builtin function operand re-enters `call_function` with its own guards as the callee's; any other operand traces its own `call_function` |
| Dispatcher.DirectHandler | torchdynamo/variables/builtin.py:191-196 | only handlers that can return `None` decline; `zip`, `map`, `sum` and `reduce` re-enter the dispatcher and are not handled here |
| Dispatcher.CallHandler | torchdynamo/variables/builtin.py:191-194 | operands the handler cannot bind are an argument TypeError |
| Dispatcher.ZipCall | torchdynamo/variables/builtin.py:266-289 | operands that unpack are zipped on the host; declines when they neither unpack nor are all sized tensors |
| Dispatcher.MapCall | torchdynamo/variables/builtin.py:348-351 | declines exactly when the operand does not unpack; a result is a tuple with one entry per item |
| Dispatcher.ReduceCall | torchdynamo/variables/builtin.py:370-379 | declines exactly when the iterable does not unpack; with an initializer, folds every item from it; without one, seeds with the first item and folds the rest; no items and no initializer is an IndexError |
| Dispatcher.SliceFrom | torchdynamo/variables/builtin.py:359 | Python's `xs[n:]`: negative `n` counts from the end and both ends are clamped |
| Dispatcher.SumItems | torchdynamo/variables/builtin.py:355-359 | `items[start:]` with Python's slice rules; `start=None` keeps every item; a `start` that is no index is a TypeError |
| Dispatcher.SumCall | torchdynamo/variables/builtin.py:353-368 | declines exactly when the sequence does not unpack |
| CallFunctionFacts.GraphInsertionFirst | torchdynamo/variables/builtin.py:171-189 | with a tensor operand, an insertable builtin is recorded before any handler: the created node's tensor with all guards; a rejection or NotImplementedError is "partial tensor op"; another collaborator exception escapes |
| CallFunctionFacts.IAddLiteralFirstIsSwappedAdd | torchdynamo/variables/builtin.py:174-178 | `literal += tensor` traces exactly as `tensor + literal` |
| CallFunctionFacts.HandlerOutcomeDecides | torchdynamo/variables/builtin.py:191-216 | value gets options; decline or argument TypeError falls through; graph break re-raised exactly when no constant handler exists, else folded; other TypeErrors fail the assertion |
| CallFunctionFacts.ArityMismatchFallsThrough | torchdynamo/variables/builtin.py:193-199 | operands a handler cannot bind fall through to folding or the graph break |
| CallFunctionFacts.ConstantFoldResult | torchdynamo/variables/builtin.py:164-214 | all-literal operands of a foldable builtin whose handler declines give the host result as a literal with every operand's guards, or the host exception |
| CallFunctionFacts.NoStrategyIsGraphBreak | torchdynamo/variables/builtin.py:206-216 | no handler, no graph insertion and nothing to fold is the generic graph break |
| CallFunctionFacts.MulHandlerDeclinesLiterals | torchdynamo/variables/builtin.py:303-311 | the `mul` handler declines two integer literals, so folding decides |
| CallFunctionFacts.MulOfLiteralsFolds | torchdynamo/variables/builtin.py:206-214 | `a * b` over integer literals folds to the literal product |
| CallFunctionFacts.ZipOfUnpackables | torchdynamo/variables/builtin.py:266-273 | `zip` over unpackable operands: shortest length, row `i` holds item `i` of each operand, all guards propagated |
| CallFunctionFacts.TensorZipRows | torchdynamo/variables/builtin.py:274-289 | tensor `zip` has one row per index below the smallest leading dimension, entry `j` of row `i` being `getitem(arg_j, i)`; the first call that fails ends the call with its outcome |
| CallFunctionFacts.MapAppliesInOrder | torchdynamo/variables/builtin.py:348-351 | `map(f, xs)` calls `f` on each item in order: a value is the tuple of the results, one per item; otherwise the first call that did not return decides the outcome |
| CallFunctionFacts.EnumerateCountsFromZero | torchdynamo/variables/builtin.py:291-301 | `enumerate` pairs item `i` with the literal `i`, one pair per item |
| CallFunctionFacts.AfterFold | torchdynamo/variables/builtin.py:191-205 | for a builtin without a constant handler, a completed handler outcome is kept: a value gains the options, a graph break is re-raised, an exception other than TypeError escapes |
| CallFunctionFacts.ReduceWithoutInitializer | torchdynamo/variables/builtin.py:370-379 | `reduce(f, xs)` through the dispatcher is the handler's outcome as `call_function` treats it |
| CallFunctionFacts.ReduceWithInitializer | torchdynamo/variables/builtin.py:370-379 | `reduce(f, xs, init)` through the dispatcher is the handler's outcome as `call_function` treats it |
| CallFunctionFacts.ReduceSeedsFromFirstItem | torchdynamo/variables/builtin.py:373-379 | `reduce(f, xs)` folds `xs[1:]` from `xs[0]`: a value carries the callee's and operands' guards, a graph break or an exception other than TypeError ends the call unchanged |
| CallFunctionFacts.ReduceFoldsFromInitializer | torchdynamo/variables/builtin.py:375-379 | `reduce(f, xs, init)` folds every item from `init`: a value carries all operands' guards, a graph break or an exception other than TypeError ends the call unchanged |
| CallFunctionFacts.SumCallsReduce | torchdynamo/variables/builtin.py:353-368 | with an integer `start` and no other keyword, `sum` calls `reduce` with `add`, the items from `start` on and a literal 0 carrying the callee's and sequence's guards |
| CallFunctionFacts.SumOfItems | torchdynamo/variables/builtin.py:362-368 | that `reduce` call folds `add` over the items from 0: a value carries the zero's guards only, a graph break or an exception other than TypeError passes unchanged |
| CallFunctionFacts.SumFoldsSlicedItems | torchdynamo/variables/builtin.py:353-368 | `sum(xs, start=s)` always completes, folding `add` over `xs[s:]` from a literal 0 carrying the callee's and sequence's guards, one nesting level deeper than that `reduce` |
| CallFunctionFacts.IsInstanceDecides | torchdynamo/variables/builtin.py:325-332 | with a known operand type and a constant type operand, `isinstance` is the literal outcome of the subclass test with the callee's and both operands' guards; otherwise NotImplementedError |
| CallFunctionFacts.IsInstanceOfBuiltinClass | torchdynamo/variables/builtin.py:143-144 | `isinstance(x, str)` (or any builtin class) is whether the type of `x` is below that class |
| CallFunctionFacts.IsInstanceOfBuiltinTuple | torchdynamo/variables/builtin.py:325-332 | `isinstance(x, (C_0, ..., C_n))` over builtin classes is True exactly when the type of `x` is below one of them |
| Loops.FoldItems | torchdynamo/variables/builtin.py:377-379 | the loop `value = step(value, element)` computes exactly the left fold, stopping at the first outcome that is not a value |
| Loops.ZipTensorRows | torchdynamo/variables/builtin.py:276-288 | the row loop computes exactly the tensor `zip` rows, stopping at the first outcome that is not a value |
| Loops.CallReduce | torchdynamo/variables/builtin.py:370-379 | the loop of `call_reduce` computes exactly `ReduceCall` |
| Loops.CallZip | torchdynamo/variables/builtin.py:266-289 | the row loop of `call_zip` computes exactly `ZipCall` |

## Left out

- `benchmarks/runner.py` (the benchmark runner) is not part of this model.
- The collaborators are parameters of type `Env`, and nothing is assumed of them beyond their types. They are graph creation (`create_proxy`, `TensorVariable.create`), the operands' own `call_method`, `call_function`, `call_hasattr` and `get_var_attr`, torch functions, `VariableBuilder`, `get_submodule`, `inspect.getattr_static`, `is_disallowed` and `ConstantVariable.is_literal`.
- Dispatcher.Evaluate: host evaluation of a builtin is a collaborator, except integer `+`, `-` and `*`. Floating point and the other builtins are not interpreted.
- Nested builtin calls (`sum` calling `reduce` calling `add`, tensor `zip` calling `getitem`, `map`/`reduce` calling a builtin) are bounded by a `depth` count. An exhausted count raises RecursionError, as Python's recursion limit would. The model does not relate the count to Python's actual limit.
- Handler lookup by name (`getattr(self, f"call_{fn.__name__}")`) is an explicit table on the builtin. `math` functions and builtins not listed are modelled as having no handler.
- A TypeError is modelled only by whether its message contains "argument". Every other diagnostic is modelled as the fixed message the source begins it with ("partial tensor op", "call_function", "GETATTR with no source", ...), without the operand text the source interpolates into it.
- `Unsupported.remove_from_stats`, `reconstruct` and `__str__` of `BuiltinVariable` are bookkeeping or code generation, and are not modelled.
- The `__name__` of `math` functions and of the builtins not listed is not modelled, and those builtins are taken to be functions rather than classes.
- Graph creation either creates a node, rejects the call (NotImplementedError) or raises another exception; a graph break raised while the node is created is not modelled.
- A receiver's own `get_var_attr` and a torch namespace's `getattr` either answer or miss; any other exception they might raise is not modelled.
- Handlers.RepeatContainer, Handlers.FreshContainer, Handlers.IterTupleList: a container's `mutable_local` is reduced to a mutable/immutable flag. In the source, `clone(items=...)` keeps the operand's `MutableLocal`, so the repeated container aliases the operand for side-effect tracking, while `iter`, `tuple` and `list` create a fresh one. The model does not capture that identity or that aliasing.
- Handlers.NextCall: `tx.replace_all(arg, next_iter)` rewrites the frame state, which is not modelled. Only the returned item is.
- Unpacking, `python_type` and `as_python_constant` of the operand variants come from files outside this core. They are modelled for the variants here:
  - list, tuple, named tuple, list iterator and range trackers, and literal tuples, lists and strings, unpack;
  - other variants do not unpack;
  - named tuples have no literal value;
  - tensor, torch namespace, range, slice, `super`, list-iterator, `nn.Module`, Python-module, user-object, user-function, user-method and deferred-attribute trackers have no literal value either, so `isinstance(x, C)` where `C` is a torch class (a torch namespace tracker) ends in NotImplementedError in the model. `isinstance` against a torch class is not modelled.
- `issubclass` is modelled over a small closed type lattice (`object`, `bool` below `int`, the rest unrelated).
- Attribute names that are not strings are never found in a module's string-keyed stores.
- Dispatcher.SumCall: its contract states only when it declines. What it computes is stated by `CallFunctionFacts.SumFoldsSlicedItems` for integer starts, and the items it folds by `Dispatcher.SumItems`.
- Dispatcher.ZipCall: its contract covers unpackable operands and the decline. The tensor branch is stated by `CallFunctionFacts.TensorZipRows`.
- Dispatcher.Dispatch: its own contract states only guard propagation. The branches are stated by the `CallFunctionFacts` lemmas.
