/**
  The dispatcher's external collaborators, as functions it is handed: the
  output graph, the operands' own method implementations, the value builder,
  the module registry, the torch namespace and the evaluation of builtins on
  host values. Nothing is assumed about them beyond their types.
*/
module Collaborators {
  import opened Classifier
  import opened Values

  /** A graph node wrapped as a tensor, with its shape when known. */
  datatype TensorNode = TensorNode(node: nat, size: Option<seq<nat>>)

  /** What `TensorVariable.create(tx, tx.output.create_proxy(...))` does:
      creates a node, raises NotImplementedError, or raises something else. */
  datatype ProxyResult = Created(t: TensorNode) | Rejected | ProxyRaised(exc: Exc)

  /** The result of running a builtin on host values. */
  datatype EvalResult = Folded(c: Const) | EvalRaised(exc: Exc)

  /** The torch functions the `min`/`max` handler calls. */
  datatype TorchFn = Clamp | Maximum | Minimum

  /** What a static (descriptor-level) class lookup finds. */
  datatype StaticMember =
    | Property(fget: HostValue)
    | ClassMethod(cfunc: HostValue)
    | StaticMethod(sfunc: HostValue)
    | PlainFunction(pfunc: HostValue)
    | OtherMember(typeName: string)

  /** The state of a registered `nn.Module`: its instance `__dict__`, its
      `_modules`, `_parameters` and `_buffers` tables, its class (as a host
      object) and the members found by a static lookup on that class. */
  datatype ModuleState = ModuleState(
    instanceDict: map<string, HostValue>,
    modules: map<string, HostValue>,
    parameters: map<string, HostValue>,
    buffers: map<string, HostValue>,
    classObject: HostValue,
    classMembers: map<string, StaticMember>)

  datatype Env = Env(
    // tx.output.create_proxy("call_function", fn, ...) wrapped by TensorVariable.create
    createProxy: (Op, seq<Var>, map<string, Var>) -> ProxyResult,
    // fn(*payloads, **kw_payloads) on host values
    evalBuiltin: (Op, seq<Const>, map<string, Const>) -> EvalResult,
    // receiver.call_method(tx, name, args, kwargs)
    callMethod: (Var, string, seq<Var>, map<string, Var>) -> Completion,
    // callee.call_function(tx, args, kwargs) for a callee that is not a builtin
    callFunction: (Var, seq<Var>, map<string, Var>) -> Completion,
    // TorchVariable(fn).call_function(tx, args, kwargs)
    callTorch: (TorchFn, seq<Var>, map<string, Var>) -> Completion,
    // obj.call_hasattr(tx, name)
    hasAttr: (Var, Const) -> Completion,
    // obj.get_var_attr(tx, name); None is NotImplementedError
    varAttr: (Var, Const) -> Option<Var>,
    // tx.output.get_submodule(key)
    getSubmodule: string -> ModuleState,
    // VariableBuilder(tx, source)(value)
    build: (HostValue, Option<Source>) -> Completion,
    // getattr(torch_value, name); None is AttributeError
    torchMember: (HostValue, Const) -> Option<HostValue>,
    // is_disallowed(member)
    isDisallowed: HostValue -> bool,
    // ConstantVariable.is_literal(member), with the literal when it is one
    literal: HostValue -> Option<Const>,
    // module.__dict__
    moduleDict: HostValue -> map<string, HostValue>,
    // getattr(fn, "__name__" or "__module__")
    functionMeta: (HostValue, string) -> Const)
}
