/**
  `call_getattr`: attribute resolution, branching on the receiver's variant.
*/
module Attributes {
  import opened Values
  import opened Collaborators

  /** The receivers whose own attribute-read capability is asked first. */
  predicate ReadsOwnAttribute(obj: Var)
  {
    obj.kind.Tensor? || obj.kind.Constant? || (obj.kind.Sequence? && obj.kind.seqKind.NamedTupleKind?)
  }

  /** The name of a module attribute as a dictionary key; a name that is not
      a string is in none of the module's string-keyed tables. */
  predicate NamedIn<T>(name: Const, m: map<string, T>)
  {
    name.CStr? && name.s in m
  }

  /** The class-level stores of an `nn.Module`, searched in the order
      instance `__dict__`, `_modules`, `_parameters`, `_buffers`. */
  function StoreLookup(ms: ModuleState, name: Const): (r: Option<HostValue>)
    ensures r.Some? <==> NamedIn(name, ms.instanceDict) || NamedIn(name, ms.modules)
                         || NamedIn(name, ms.parameters) || NamedIn(name, ms.buffers)
    ensures NamedIn(name, ms.instanceDict) ==> r == Some(ms.instanceDict[name.s])
    ensures !NamedIn(name, ms.instanceDict) && NamedIn(name, ms.modules) ==> r == Some(ms.modules[name.s])
    ensures !NamedIn(name, ms.instanceDict) && !NamedIn(name, ms.modules) && NamedIn(name, ms.parameters) ==>
              r == Some(ms.parameters[name.s])
    ensures (!NamedIn(name, ms.instanceDict) && !NamedIn(name, ms.modules) && !NamedIn(name, ms.parameters)
             && NamedIn(name, ms.buffers)) ==> r == Some(ms.buffers[name.s])
  {
    if !name.CStr? then None
    else if name.s in ms.instanceDict then Some(ms.instanceDict[name.s])
    else if name.s in ms.modules then Some(ms.modules[name.s])
    else if name.s in ms.parameters then Some(ms.parameters[name.s])
    else if name.s in ms.buffers then Some(ms.buffers[name.s])
    else None
  }

  /** A member found only by the static class lookup: a property is run
      against the receiver, a class method is bound to the module's class, a
      static method is bound to nothing, a plain function is bound to the
      receiver; any other kind of member is a graph break. */
  function StaticMemberAttr(env: Env, ms: ModuleState, obj: Var, member: StaticMember,
                            guards: set<Guard>, source: Option<Source>): (r: Completion)
    ensures member.Property? ==>
              r == env.callFunction(Var(UserFunction(member.fget), guards, None), [obj], map[])
    ensures member.ClassMethod? ==>
              r == Value(Var(UserMethod(member.cfunc, Var(UserObject(ms.classObject, TType), guards, None)), guards, source))
    ensures member.StaticMethod? ==> r == Value(Var(UserFunction(member.sfunc), guards, source))
    ensures member.PlainFunction? ==> r == Value(Var(UserMethod(member.pfunc, obj), guards, source))
    ensures member.OtherMember? ==> r == Unsupported("class property")
  {
    match member
    case Property(fget) => env.callFunction(Var(UserFunction(fget), guards, None), [obj], map[])
    case ClassMethod(f) => Value(Var(UserMethod(f, Var(UserObject(ms.classObject, TType), guards, None)), guards, source))
    case StaticMethod(f) => Value(Var(UserFunction(f), guards, source))
    case PlainFunction(f) => Value(Var(UserMethod(f, obj), guards, source))
    case OtherMember(_) => Unsupported("class property")
  }

  /** Attribute resolution on an `nn.Module` receiver, which must have a
      source. A value found in a class-level store is wrapped by the value
      builder with an `NNModuleSource` over the attribute's source; otherwise
      the static lookup decides, and a name it does not find raises
      AttributeError. */
  function ModuleAttr(env: Env, obj: Var, name: Const, guards: set<Guard>): (r: Completion)
    requires obj.kind.NNModule?
    ensures obj.source.None? ==> r == Unsupported("GETATTR with no source")
    ensures obj.source.Some? ==>
              var ms := env.getSubmodule(obj.kind.moduleKey);
              var source := AttrSource(obj.source.value, name);
              && (StoreLookup(ms, name).Some? ==>
                    var built := env.build(StoreLookup(ms, name).value, Some(NNModuleSource(source)));
                    && (built.Value? ==> r == Value(AddGuards(built.v, guards)))
                    && (!built.Value? ==> r == built))
              && (StoreLookup(ms, name).None? && NamedIn(name, ms.classMembers) ==>
                    r == StaticMemberAttr(env, ms, obj, ms.classMembers[name.s], guards, Some(source)))
              && (StoreLookup(ms, name).None? && !NamedIn(name, ms.classMembers) ==> r == Raised(AttributeError))
  {
    var ms := env.getSubmodule(obj.kind.moduleKey);
    match obj.source
    case None => Unsupported("GETATTR with no source")
    case Some(src) =>
      var source := AttrSource(src, name);
      match StoreLookup(ms, name)
      case Some(sub) =>
        (match env.build(sub, Some(NNModuleSource(source)))
         case Value(v) => Value(AddGuards(v, guards))
         case other => other)
      case None =>
        if NamedIn(name, ms.classMembers) then
          StaticMemberAttr(env, ms, obj, ms.classMembers[name.s], guards, Some(source))
        else Raised(AttributeError)
  }

  /** Resolution on a torch-namespace receiver: an allowed member stays a
      namespace handle, a disallowed literal becomes a constant, anything
      else is wrapped by the value builder. */
  function TorchAttr(env: Env, obj: Var, name: Const, guards: set<Guard>, source: Option<Source>): (r: Completion)
    requires obj.kind.Torch?
    ensures env.torchMember(obj.kind.member, name).None? ==> r == Raised(AttributeError)
    ensures var m := env.torchMember(obj.kind.member, name);
            m.Some? && !env.isDisallowed(m.value) ==> r == Value(Var(Torch(m.value), guards, source))
    ensures var m := env.torchMember(obj.kind.member, name);
            m.Some? && env.isDisallowed(m.value) && env.literal(m.value).Some? ==>
              r == Value(Var(Constant(env.literal(m.value).value), guards, source))
    ensures var m := env.torchMember(obj.kind.member, name);
            m.Some? && env.isDisallowed(m.value) && env.literal(m.value).None? ==>
              && (env.build(m.value, source).Value? ==> r == Value(AddGuards(env.build(m.value, source).v, guards)))
              && (!env.build(m.value, source).Value? ==> r == env.build(m.value, source))
  {
    match env.torchMember(obj.kind.member, name)
    case None => Raised(AttributeError)
    case Some(member) =>
      if !env.isDisallowed(member) then Value(Var(Torch(member), guards, source))
      else if env.literal(member).Some? then Value(Var(Constant(env.literal(member).value), guards, source))
      else
        match env.build(member, source)
        case Value(v) => Value(AddGuards(v, guards))
        case other => other
  }

  /** The receivers handled by a branch of their own. */
  predicate SpecialReceiver(obj: Var)
  {
    || obj.kind.NNModule? || obj.kind.Torch? || obj.kind.PythonModule? || obj.kind.UserObject?
    || obj.kind.UserFunction? || ReadsOwnAttribute(obj)
  }

  /** The branch chosen by the receiver's variant once the name is a literal:
      an `nn.Module` and a torch namespace resolve as `ModuleAttr` and
      `TorchAttr` say; a Python module looks in its namespace (KeyError when
      absent); a user object answers through its `__getattr__`; a user
      function's `__name__`/`__module__` is a literal; a tensor, literal or
      named tuple asks its own `get_var_attr` first; every other name on
      every other receiver is a deferred attribute. */
  function Resolve(env: Env, obj: Var, name: Const, guards: set<Guard>, source: Option<Source>): (r: Completion)
    ensures obj.kind.NNModule? ==> r == ModuleAttr(env, obj, name, guards)
    ensures obj.kind.Torch? ==> r == TorchAttr(env, obj, name, guards, source)
    ensures obj.kind.PythonModule? && !NamedIn(name, env.moduleDict(obj.kind.mod)) ==> r == Raised(KeyError)
    ensures obj.kind.PythonModule? && NamedIn(name, env.moduleDict(obj.kind.mod)) ==>
              var built := env.build(env.moduleDict(obj.kind.mod)[name.s], source);
              && (built.Value? ==> r == Value(AddGuards(built.v, guards)))
              && (!built.Value? ==> r == built)
    ensures obj.kind.UserObject? ==> r == env.callMethod(obj, "__getattr__", [Lit(name)], map[])
    ensures obj.kind.UserFunction? && (name == CStr("__name__") || name == CStr("__module__")) ==>
              r == Value(Var(Constant(env.functionMeta(obj.kind.fn, name.s)), obj.guards, None))
    ensures ReadsOwnAttribute(obj) && env.varAttr(obj, name).Some? ==>
              r == Value(AddGuards(env.varAttr(obj, name).value.(source := source), guards))
    ensures (ReadsOwnAttribute(obj) && env.varAttr(obj, name).None?)
            || (obj.kind.UserFunction? && name != CStr("__name__") && name != CStr("__module__"))
            || !SpecialReceiver(obj) ==>
              r == Value(Var(GetAttrValue(obj, name), guards, source))
  {
    match obj.kind
    case NNModule(_, _) => ModuleAttr(env, obj, name, guards)
    case Torch(_) => TorchAttr(env, obj, name, guards, source)
    case PythonModule(m) =>
      if NamedIn(name, env.moduleDict(m)) then
        (match env.build(env.moduleDict(m)[name.s], source)
         case Value(v) => Value(AddGuards(v, guards))
         case other => other)
      else Raised(KeyError)
    case UserObject(_, _) => env.callMethod(obj, "__getattr__", [Lit(name)], map[])
    case UserFunction(fn) =>
      if name == CStr("__name__") || name == CStr("__module__") then
        Value(Var(Constant(env.functionMeta(fn, name.s)), obj.guards, None))
      else Value(Var(GetAttrValue(obj, name), guards, source))
    case _ =>
      if ReadsOwnAttribute(obj) then
        match env.varAttr(obj, name)
        case Some(v) => Value(AddGuards(v.(source := source), guards))
        case None => Value(Var(GetAttrValue(obj, name), guards, source))
      else Value(Var(GetAttrValue(obj, name), guards, source))
  }

  /** `call_getattr(obj, name_var, default)`. The name must be a literal and
      no default may be given; the guards of the callee, the receiver and the
      name, and the source `AttrSource(obj.source, name)` when the receiver
      has one, go to the resolved value. */
  function GetAttrCall(env: Env, selfGuards: set<Guard>, obj: Var, nameVar: Var, default: Option<Var>): (r: Completion)
    ensures !IsPythonConstant(nameVar) ==> r == Unsupported("non-const getattr name")
    ensures IsPythonConstant(nameVar) && default.Some? ==> r == Unsupported("getattr with default")
    ensures IsPythonConstant(nameVar) && default.None? ==>
              r == Resolve(env, obj, AsPythonConstant(nameVar).value, selfGuards + obj.guards + nameVar.guards,
                           if obj.source.Some? then Some(AttrSource(obj.source.value, AsPythonConstant(nameVar).value)) else None)
  {
    if !IsPythonConstant(nameVar) then Unsupported("non-const getattr name")
    else if default.Some? then Unsupported("getattr with default")
    else
      var name := AsPythonConstant(nameVar).value;
      var source := if obj.source.Some? then Some(AttrSource(obj.source.value, name)) else None;
      Resolve(env, obj, name, selfGuards + obj.guards + nameVar.guards, source)
  }

  // ---------------------------------------------------------------- properties

  /** On an `nn.Module` with a source, a name found in one of the stores
      (the first of instance `__dict__`, `_modules`, `_parameters`,
      `_buffers` that has it, as `StoreLookup` states) is built by the value
      builder under an `NNModuleSource` over the attribute's source, and the
      value gets the guards of the callee, the receiver and the name. */
  lemma StoreHitIsBuilt(env: Env, selfGuards: set<Guard>, obj: Var, nameVar: Var)
    requires obj.kind.NNModule? && obj.source.Some? && IsPythonConstant(nameVar)
    requires StoreLookup(env.getSubmodule(obj.kind.moduleKey), AsPythonConstant(nameVar).value).Some?
    ensures var name := AsPythonConstant(nameVar).value;
            var sub := StoreLookup(env.getSubmodule(obj.kind.moduleKey), name).value;
            var built := env.build(sub, Some(NNModuleSource(AttrSource(obj.source.value, name))));
            var r := GetAttrCall(env, selfGuards, obj, nameVar, None);
            && (built.Value? ==> r == Value(AddGuards(built.v, selfGuards + obj.guards + nameVar.guards)))
            && (!built.Value? ==> r == built)
  {
  }

  /** A name in none of the stores and unknown to the static lookup raises
      AttributeError. */
  lemma MissingModuleAttributeRaises(env: Env, selfGuards: set<Guard>, obj: Var, nameVar: Var)
    requires obj.kind.NNModule? && obj.source.Some? && IsPythonConstant(nameVar)
    requires var ms := env.getSubmodule(obj.kind.moduleKey);
             var name := AsPythonConstant(nameVar).value;
             StoreLookup(ms, name).None? && !NamedIn(name, ms.classMembers)
    ensures GetAttrCall(env, selfGuards, obj, nameVar, None) == Raised(AttributeError)
  {
  }

  /** A name found only by the static lookup as a plain function becomes a
      method bound to the receiver, with the receiver's guards and the
      attribute's source. */
  lemma StaticFunctionBindsReceiver(env: Env, selfGuards: set<Guard>, obj: Var, name: string, f: HostValue)
    requires obj.kind.NNModule? && obj.source.Some?
    requires var ms := env.getSubmodule(obj.kind.moduleKey);
             StoreLookup(ms, CStr(name)).None? && name in ms.classMembers && ms.classMembers[name] == PlainFunction(f)
    ensures var r := GetAttrCall(env, selfGuards, obj, Lit(CStr(name)), None);
            && r.Value? && r.v.kind == UserMethod(f, obj)
            && obj.guards <= r.v.guards
            && r.v.source == Some(AttrSource(obj.source.value, CStr(name)))
  {
  }

  /** A static member of a kind the resolver does not know is a graph break. */
  lemma UnknownClassMemberUnsupported(env: Env, obj: Var, name: string, guards: set<Guard>)
    requires obj.kind.NNModule? && obj.source.Some?
    requires var ms := env.getSubmodule(obj.kind.moduleKey);
             StoreLookup(ms, CStr(name)).None? && name in ms.classMembers && ms.classMembers[name].OtherMember?
    ensures ModuleAttr(env, obj, CStr(name), guards) == Unsupported("class property")
  {
  }

  /** A receiver of no special variant yields a deferred attribute that
      carries the guards of the callee, the receiver and the name and, when
      the receiver has a source, the attribute source derived from it. */
  lemma DeferredAttributeKeepsReceiver(env: Env, selfGuards: set<Guard>, obj: Var, nameVar: Var)
    requires IsPythonConstant(nameVar) && !SpecialReceiver(obj)
    ensures var r := GetAttrCall(env, selfGuards, obj, nameVar, None);
            && r.Value? && r.v.kind == GetAttrValue(obj, AsPythonConstant(nameVar).value)
            && r.v.guards == selfGuards + obj.guards + nameVar.guards
            && (obj.source.Some? ==> r.v.source == Some(AttrSource(obj.source.value, AsPythonConstant(nameVar).value)))
            && (obj.source.None? ==> r.v.source.None?)
  {
  }

  /** A tensor, literal or named tuple asks its own `get_var_attr` first:
      its answer gets the attribute's source and the guards of the callee,
      the receiver and the name; when it has none (NotImplementedError) the
      result is a deferred attribute with those guards and source. */
  lemma OwnAttributeOrDeferred(env: Env, selfGuards: set<Guard>, obj: Var, nameVar: Var)
    requires IsPythonConstant(nameVar) && ReadsOwnAttribute(obj)
    ensures var name := AsPythonConstant(nameVar).value;
            var gs := selfGuards + obj.guards + nameVar.guards;
            var source := if obj.source.Some? then Some(AttrSource(obj.source.value, name)) else None;
            var r := GetAttrCall(env, selfGuards, obj, nameVar, None);
            && (env.varAttr(obj, name).Some? ==> r == Value(AddGuards(env.varAttr(obj, name).value.(source := source), gs)))
            && (env.varAttr(obj, name).None? ==> r == Value(Var(GetAttrValue(obj, name), gs, source)))
  {
  }

  /** A module namespace without the name raises KeyError; with it, the
      member is wrapped by the value builder with the attribute's source and
      gets the guards of the callee, the receiver and the name. */
  lemma PythonModuleLookup(env: Env, selfGuards: set<Guard>, obj: Var, name: string)
    requires obj.kind.PythonModule?
    ensures var r := GetAttrCall(env, selfGuards, obj, Lit(CStr(name)), None);
            var d := env.moduleDict(obj.kind.mod);
            var source := if obj.source.Some? then Some(AttrSource(obj.source.value, CStr(name))) else None;
            && (name !in d ==> r == Raised(KeyError))
            && (name in d && env.build(d[name], source).Value? ==>
                  r == Value(AddGuards(env.build(d[name], source).v, selfGuards + obj.guards)))
  {
    assert NamedIn(CStr(name), env.moduleDict(obj.kind.mod)) <==> name in env.moduleDict(obj.kind.mod);
  }

  /** `__name__` and `__module__` of a user function are literals that keep
      only the function's own guards and no source; any other name is
      deferred. */
  lemma FunctionMetadataIsLiteral(env: Env, selfGuards: set<Guard>, obj: Var, name: string)
    requires obj.kind.UserFunction?
    ensures var r := GetAttrCall(env, selfGuards, obj, Lit(CStr(name)), None);
            && (name == "__name__" || name == "__module__" ==>
                  r == Value(Var(Constant(env.functionMeta(obj.kind.fn, name)), obj.guards, None)))
            && (name != "__name__" && name != "__module__" ==>
                  r.Value? && r.v.kind == GetAttrValue(obj, CStr(name)) && obj.guards <= r.v.guards)
  {
  }

  /** A user object resolves the name through its own `__getattr__`,
      called with the name as a literal. */
  lemma UserObjectDelegates(env: Env, selfGuards: set<Guard>, obj: Var, nameVar: Var)
    requires obj.kind.UserObject? && nameVar.kind.Constant?
    ensures GetAttrCall(env, selfGuards, obj, nameVar, None)
         == env.callMethod(obj, "__getattr__", [Lit(nameVar.kind.value)], map[])
  {
  }

  /** A torch-namespace member that is allowed stays a namespace handle with
      the attribute's guards and source. */
  lemma AllowedTorchMemberStaysNamespace(env: Env, selfGuards: set<Guard>, obj: Var, nameVar: Var)
    requires obj.kind.Torch? && nameVar.kind.Constant?
    requires env.torchMember(obj.kind.member, nameVar.kind.value).Some?
    requires !env.isDisallowed(env.torchMember(obj.kind.member, nameVar.kind.value).value)
    ensures var r := GetAttrCall(env, selfGuards, obj, nameVar, None);
            && r.Value? && r.v.kind == Torch(env.torchMember(obj.kind.member, nameVar.kind.value).value)
            && r.v.guards == selfGuards + obj.guards + nameVar.guards
  {
  }
}
