/**
 * The component registry (workspace/workspace/components/factory.py): a
 * table from a configuration `type` string to the class that builds it, and
 * the factory that looks a configuration's type up in it.
 */
module Factory {
  import opened Wrappers
  import opened Json

  /**
   * The registered classes. `Core` and `Microplate` are modelled; the
   * constant-only components are named by their type string.
   */
  datatype Kind = CoreKind | MicroplateKind | ConstantKind(typeName: string)

  /** The module-level `_registry`, filled by the `@register` decorator. */
  class Registry {
    var classes: map<string, Kind>

    constructor()
      ensures classes == map[]
    {
      classes := map[];
    }

    /**
     * `register(type_name)(cls)`: stores the class under the name, replacing
     * any earlier registration, and hands the class back unchanged.
     */
    method Register(typeName: string, cls: Kind) returns (registered: Kind)
      modifies this
      ensures classes == old(classes)[typeName := cls]
      ensures registered == cls
    {
      classes := classes[typeName := cls];
      registered := cls;
    }

    /**
     * Importing the components package: the package imports each of its
     * modules in turn, and each component module's `@register` decorator
     * runs, so the table gains `Builtins()` (the map `CreateComponent` below
     * is given as its `registry`).
     */
    method ImportComponents()
      modifies this
      ensures classes == RegisterAll(old(classes), Modules())
      ensures classes == old(classes) + Builtins()
    {
      var mods := Modules();
      var i := 0;
      while i < |mods|
        invariant 0 <= i <= |mods|
        invariant classes == RegisterAll(old(classes), mods[..i])
      {
        assert mods[..i + 1][..i] == mods[..i];
        var _ := Register(mods[i].0, mods[i].1);
        i := i + 1;
      }
      assert mods[..i] == mods;
      RegisterAllMerges(old(classes), mods);
    }
  }

  /** The component modules of the package and the `(type, class)` pair each one registers. */
  function Modules(): seq<(string, Kind)> {
    [("SBS_adapter", ConstantKind("SBS_adapter")), ("SBS_adaptor", ConstantKind("SBS_adaptor")),
     ("core", CoreKind), ("microplate", MicroplateKind), ("microtube", ConstantKind("microtube")),
     ("microtube_gripper", ConstantKind("microtube_gripper")), ("tool_rack", ConstantKind("tool_rack"))]
  }

  /** Registering each pair in order. */
  function RegisterAll(classes: map<string, Kind>, regs: seq<(string, Kind)>): map<string, Kind> {
    if regs == [] then classes
    else RegisterAll(classes, regs[..|regs| - 1])[regs[|regs| - 1].0 := regs[|regs| - 1].1]
  }

  /** What the package registers at import time, starting from an empty table. */
  function Builtins(): map<string, Kind> {
    RegisterAll(map[], Modules())
  }

  /** Registering a sequence of pairs adds what it would add to an empty table, later pairs winning. */
  lemma {:induction false} RegisterAllMerges(classes: map<string, Kind>, regs: seq<(string, Kind)>)
    ensures RegisterAll(classes, regs) == classes + RegisterAll(map[], regs)
  {
    if regs != [] {
      RegisterAllMerges(classes, regs[..|regs| - 1]);
    }
  }

  /** Registering the same name twice keeps only the later class. */
  lemma ReregisterOverwrites(classes: map<string, Kind>, typeName: string, first: Kind, second: Kind)
    ensures RegisterAll(classes, [(typeName, first), (typeName, second)]) == classes[typeName := second]
  {
    var regs := [(typeName, first), (typeName, second)];
    assert regs[..1][..0] == [];
    assert RegisterAll(classes, regs[..1]) == classes[typeName := first];
    assert RegisterAll(classes, regs) == classes[typeName := first][typeName := second];
  }

  /** Each component module registers its class under its own type string. */
  lemma BuiltinsClasses()
    ensures Builtins() == map["SBS_adapter" := ConstantKind("SBS_adapter"), "SBS_adaptor" := ConstantKind("SBS_adaptor"),
                              "core" := CoreKind, "microplate" := MicroplateKind, "microtube" := ConstantKind("microtube"),
                              "microtube_gripper" := ConstantKind("microtube_gripper"), "tool_rack" := ConstantKind("tool_rack")]
  {
    var ms := Modules();
    assert ms[..0] == [];
    // RegisterAll unfolded one module at a time
    assert ms[..1][..0] == ms[..0];
    assert RegisterAll(map[], ms[..1]) == RegisterAll(map[], ms[..0])[ms[0].0 := ms[0].1];
    assert ms[..2][..1] == ms[..1];
    assert RegisterAll(map[], ms[..2]) == RegisterAll(map[], ms[..1])[ms[1].0 := ms[1].1];
    assert ms[..3][..2] == ms[..2];
    assert RegisterAll(map[], ms[..3]) == RegisterAll(map[], ms[..2])[ms[2].0 := ms[2].1];
    assert ms[..4][..3] == ms[..3];
    assert RegisterAll(map[], ms[..4]) == RegisterAll(map[], ms[..3])[ms[3].0 := ms[3].1];
    assert ms[..5][..4] == ms[..4];
    assert RegisterAll(map[], ms[..5]) == RegisterAll(map[], ms[..4])[ms[4].0 := ms[4].1];
    assert ms[..6][..5] == ms[..5];
    assert RegisterAll(map[], ms[..6]) == RegisterAll(map[], ms[..5])[ms[5].0 := ms[5].1];
    assert ms[..7][..6] == ms[..6];
    assert RegisterAll(map[], ms[..7]) == RegisterAll(map[], ms[..6])[ms[6].0 := ms[6].1];
    assert ms[..7] == ms;
  }

  datatype FactoryError =
    | NotAMapping(name: string)              // `cfg.get` on a value that is not a dict
    | MissingType(name: string)              // `type` absent or falsy
    | UnknownType(name: string, typeName: Json)
    | Unhashable(name: string, typeName: Json) // a list or dict used as a dict key

  /** The constructor call the factory ends in: `cls(name, cfg)`. */
  datatype Call = Call(kind: Kind, name: string, cfg: map<string, Json>)

  /**
   * `create_component(name, cfg)`: a missing or falsy `type` and an
   * unregistered one are errors; a registered string type yields its class
   * applied to `(name, cfg)`.
   */
  function CreateComponent(registry: map<string, Kind>, name: string, cfg: Json): (r: Result<Call, FactoryError>)
    ensures r.Ok? <==> cfg.JObj? && "type" in cfg.fields && cfg.fields["type"].JStr?
                       && cfg.fields["type"].s != "" && cfg.fields["type"].s in registry
    ensures r.Ok? ==> r.value == Call(registry[cfg.fields["type"].s], name, cfg.fields)
    ensures cfg.JObj? && ("type" !in cfg.fields || !Truthy(cfg.fields["type"])) <==> r == Err(MissingType(name))
    ensures r.Err? && r.error.UnknownType? ==> r.error.typeName.JStr? ==> r.error.typeName.s !in registry
  {
    if !cfg.JObj? then Err(NotAMapping(name))
    else
      match Get(cfg.fields, "type")
      case None => Err(MissingType(name))
      case Some(t) =>
        if !Truthy(t) then Err(MissingType(name))
        else if t.JArr? || t.JObj? then Err(Unhashable(name, t))
        else if t.JStr? && t.s in registry then Ok(Call(registry[t.s], name, cfg.fields))
        else Err(UnknownType(name, t))
  }

  /** The solid names a constant-only component's constructor puts in its assembly. */
  function ConstantSolids(typeName: string, cfg: map<string, Json>): (names: seq<string>)
    ensures |names| >= 1 && names[0] == typeName
  {
    if typeName == "microtube_gripper" && Truthy(GetOr(cfg, "has_toolchanger", JBool(false)))
    then [typeName, "toolchanger_tool_side"]
    else [typeName]
  }

}
