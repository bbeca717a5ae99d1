/**
 * Building a workspace from its configuration (`Workspace.__init__` in
 * workspace/workspace/workspace.py): every entry becomes a component through
 * the factory, then every entry with an `attach` block attaches one of its
 * solids to a solid of another component.
 */
module Workspace {
  import opened Wrappers
  import opened Json
  import opened Anchors
  import Core
  import Microplate
  import opened Factory

  /** A built component as the workspace sees it: its class, its solid names, and whether it drives a robot. */
  datatype Component = Component(kind: Kind, assembly: seq<string>, hasApi: bool)

  /** One `child_solid.attach_to(parent_solid, ...)` call the attach loop makes. */
  datatype Directive = Directive(
    childComp: string, childSolid: string, parentComp: string, parentSolid: string,
    parentAnchor: Json, childAnchor: Json, offset: Json)

  datatype WsError =
    | MissingCore
    | FactoryFailed(error: FactoryError)
    | CoreFailed(coreError: Core.CoreError)
    | BadAttach(child: string)                          // `attach` is truthy but not a dict
    | MissingKey(child: string, key: string)            // `att[key]` raised KeyError
    | UnknownComponent(child: string, parentName: Json) // `self.components[...]` raised
    | UnknownSolid(child: string, solid: Json)          // `comp.assembly[...]` raised

  /** `"core" in comp_cfgs`. */
  predicate HasCore(config: seq<(string, Json)>) {
    exists i :: 0 <= i < |config| && config[i].0 == "core"
  }

  // ---------------------------------------------------------------------------
  // Step 1: build components
  // ---------------------------------------------------------------------------

  /**
   * The constructor the factory selected, applied to `(name, cfg)`; `reachable`
   * stands for whether connecting to a core's robot succeeds.
   */
  function Instantiate(call: Call, reachable: bool): (r: Result<Component, WsError>)
    ensures r.Ok? ==> r.value.kind == call.kind && |r.value.assembly| >= 1
    ensures r.Err? <==> call.kind.CoreKind? && Core.ReadSettings(call.cfg).preset != JStr("core500")
  {
    match call.kind
    case CoreKind =>
      var settings := Core.ReadSettings(call.cfg);
      if settings.preset != JStr("core500") then Err(CoreFailed(Core.UnsupportedPreset(settings.preset)))
      else Ok(Component(CoreKind, Names(Core.CoreSolids()), Core.HasApi(settings, reachable)))
    case MicroplateKind => Ok(Component(MicroplateKind, ["microplate"], false))
    case ConstantKind(t) => Ok(Component(call.kind, ConstantSolids(t, call.cfg), false))
  }

  /** One iteration of the build loop: `create_component(name, ccfg)`, the factory's class applied to the entry. */
  function BuildOne(registry: map<string, Kind>, name: string, cfg: Json, reachable: bool): (r: Result<Component, WsError>)
    ensures r.Ok? ==> cfg.JObj? && "type" in cfg.fields && cfg.fields["type"].JStr?
                      && cfg.fields["type"].s in registry && r.value.kind == registry[cfg.fields["type"].s]
    ensures CreateComponent(registry, name, cfg).Err? ==> r == Err(FactoryFailed(CreateComponent(registry, name, cfg).error))
  {
    match CreateComponent(registry, name, cfg)
    case Err(e) => Err(FactoryFailed(e))
    case Ok(call) => Instantiate(call, reachable)
  }

  /** The names the configuration's entries carry. */
  function EntryNames(config: seq<(string, Json)>): set<string> {
    if config == [] then {} else EntryNames(config[..|config| - 1]) + {config[|config| - 1].0}
  }

  /** No later entry of the configuration carries the same name. */
  predicate LastOfName(config: seq<(string, Json)>, i: nat) {
    forall j :: i < j < |config| ==> config[j].0 != config[i].0
  }

  /**
   * The build loop over the configuration in order: every entry name maps to
   * a component built from an entry of that name; the loop stops at the
   * first entry that fails (`BuildAllSucceeds`, `BuildAllValues` and
   * `BuildAllFirstError` below say which).
   */
  function BuildAll(registry: map<string, Kind>, config: seq<(string, Json)>, reachable: bool)
    : (r: Result<map<string, Component>, WsError>)
    ensures r.Ok? ==> forall i :: 0 <= i < |config| ==> config[i].0 in r.value && config[i].1.JObj?
    ensures r.Ok? ==> r.value.Keys == EntryNames(config)
  {
    if config == [] then Ok(map[])
    else
      var n := |config| - 1;
      var prev := BuildAll(registry, config[..n], reachable);
      var one := BuildOne(registry, config[n].0, config[n].1, reachable);
      if prev.Err? then prev
      else if one.Err? then Err(one.error)
      else
        assert forall i :: 0 <= i < n ==> config[..n][i] == config[i];
        Ok(prev.value[config[n].0 := one.value])
  }

  /** The build loop succeeds exactly when every entry builds. */
  lemma {:induction false} BuildAllSucceeds(registry: map<string, Kind>, config: seq<(string, Json)>, reachable: bool)
    ensures BuildAll(registry, config, reachable).Ok?
            <==> forall i :: 0 <= i < |config| ==> BuildOne(registry, config[i].0, config[i].1, reachable).Ok?
  {
    if config != [] {
      var n := |config| - 1;
      var pre := config[..n];
      BuildAllSucceeds(registry, pre, reachable);
      if forall i :: 0 <= i < |config| ==> BuildOne(registry, config[i].0, config[i].1, reachable).Ok? {
        assert forall i :: 0 <= i < |pre| ==> BuildOne(registry, pre[i].0, pre[i].1, reachable).Ok? by {
          forall i | 0 <= i < |pre| ensures BuildOne(registry, pre[i].0, pre[i].1, reachable).Ok? {
            assert pre[i] == config[i];
          }
        }
      } else {
        var i :| 0 <= i < |config| && BuildOne(registry, config[i].0, config[i].1, reachable).Err?;
        if i < n {
          assert pre[i] == config[i];
        }
      }
    }
  }

  /** After a successful build, the name of an entry no later entry repeats maps to that entry's component. */
  lemma {:induction false} BuildAllValues(registry: map<string, Kind>, config: seq<(string, Json)>, reachable: bool)
    requires BuildAll(registry, config, reachable).Ok?
    ensures forall i :: 0 <= i < |config| && LastOfName(config, i) ==>
              BuildOne(registry, config[i].0, config[i].1, reachable).Ok?
              && BuildAll(registry, config, reachable).value[config[i].0]
                 == BuildOne(registry, config[i].0, config[i].1, reachable).value
  {
    if config != [] {
      var n := |config| - 1;
      var pre := config[..n];
      var m := BuildAll(registry, config, reachable).value;
      var one := BuildOne(registry, config[n].0, config[n].1, reachable);
      assert BuildAll(registry, pre, reachable).Ok? && one.Ok?;
      var prev := BuildAll(registry, pre, reachable).value;
      assert m == prev[config[n].0 := one.value];
      BuildAllValues(registry, pre, reachable);
      forall i | 0 <= i < |config| && LastOfName(config, i)
        ensures BuildOne(registry, config[i].0, config[i].1, reachable).Ok?
                && m[config[i].0] == BuildOne(registry, config[i].0, config[i].1, reachable).value
      {
        if i < n {
          assert pre[i] == config[i];
          assert LastOfName(pre, i);
          assert config[i].0 != config[n].0;
          assert m[config[i].0] == prev[pre[i].0];
          assert prev[pre[i].0] == BuildOne(registry, pre[i].0, pre[i].1, reachable).value;
        } else {
          assert m[config[i].0] == one.value;
        }
      }
    }
  }

  /** A failed build reports the error of the first entry that does not build. */
  lemma {:induction false} BuildAllFirstError(registry: map<string, Kind>, config: seq<(string, Json)>, reachable: bool)
    requires BuildAll(registry, config, reachable).Err?
    ensures exists i :: && 0 <= i < |config|
                        && BuildOne(registry, config[i].0, config[i].1, reachable) == Err(BuildAll(registry, config, reachable).error)
                        && forall j :: 0 <= j < i ==> BuildOne(registry, config[j].0, config[j].1, reachable).Ok?
  {
    var n := |config| - 1;
    var e := BuildAll(registry, config, reachable).error;
    assert forall i :: 0 <= i < n ==> config[..n][i] == config[i];
    if BuildAll(registry, config[..n], reachable).Err? {
      BuildAllFirstError(registry, config[..n], reachable);
      var i :| && 0 <= i < n
               && BuildOne(registry, config[..n][i].0, config[..n][i].1, reachable) == Err(e)
               && forall j :: 0 <= j < i ==> BuildOne(registry, config[..n][j].0, config[..n][j].1, reachable).Ok?;
      assert BuildOne(registry, config[i].0, config[i].1, reachable) == Err(e);
    } else {
      BuildAllSucceeds(registry, config[..n], reachable);
      assert BuildOne(registry, config[n].0, config[n].1, reachable) == Err(e);
    }
  }

  // ---------------------------------------------------------------------------
  // Step 2: attachments
  // ---------------------------------------------------------------------------

  /** `d[key]` on an attach block: a missing key is a `KeyError`. */
  function Field(child: string, d: map<string, Json>, key: string): (r: Result<Json, WsError>)
    ensures r.Ok? <==> key in d
    ensures r.Ok? ==> r.value == d[key]
  {
    if key in d then Ok(d[key]) else Err(MissingKey(child, key))
  }

  /**
   * The attach block names every key the loop reads, a parent component that
   * exists, and solids that exist in the parent and in the child.
   */
  predicate Resolvable(components: map<string, Component>, child: string, a: map<string, Json>)
    requires child in components
  {
    && "parent_name" in a && a["parent_name"].JStr? && a["parent_name"].s in components
    && "parent_solid" in a && a["parent_solid"].JStr? && a["parent_solid"].s in components[a["parent_name"].s].assembly
    && "child_solid" in a && a["child_solid"].JStr? && a["child_solid"].s in components[child].assembly
    && "parent_anchor" in a && "child_anchor" in a
  }

  /**
   * One iteration of the attach loop. A falsy or missing `attach` is skipped.
   * Otherwise the keys are read in the code's order, `parent_name`,
   * `parent_solid`, `child_solid`, `parent_anchor`, `child_anchor`, and the
   * first missing key, unknown component or unknown solid raises (a
   * non-string name, which no dict of string keys holds, raises too);
   * `offset` defaults to six zeros only when the key is absent.
   */
  function Attach(components: map<string, Component>, child: string, ccfg: Json): (r: Result<Option<Directive>, WsError>)
    requires child in components && ccfg.JObj?
    ensures var att := GetOr(ccfg.fields, "attach", JNull);
            r.Ok? <==> !Truthy(att) || (att.JObj? && Resolvable(components, child, att.fields))
    ensures r == Ok(None) <==> !Truthy(GetOr(ccfg.fields, "attach", JNull))
    ensures r.Ok? && r.value.Some? ==> ValidDirective(components, r.value.value) && r.value.value.childComp == child
    ensures r.Ok? && r.value.Some? ==>
              && "attach" in ccfg.fields && ccfg.fields["attach"].JObj?
              && var a := ccfg.fields["attach"].fields;
                 var d := r.value.value;
                 && a["parent_name"] == JStr(d.parentComp) && a["parent_solid"] == JStr(d.parentSolid)
                 && a["child_solid"] == JStr(d.childSolid)
                 && a["parent_anchor"] == d.parentAnchor && a["child_anchor"] == d.childAnchor
                 && d.offset == GetOr(a, "offset", ZeroSix())
    ensures Truthy(GetOr(ccfg.fields, "attach", JNull)) && !GetOr(ccfg.fields, "attach", JNull).JObj? ==>
              r == Err(BadAttach(child))
    ensures r.Err? ==> (r.error.BadAttach? || r.error.MissingKey? || r.error.UnknownComponent? || r.error.UnknownSolid?)
                       && r.error.child == child
    ensures r.Err? && r.error.MissingKey? ==>
              && r.error.key in ["parent_name", "parent_solid", "child_solid", "parent_anchor", "child_anchor"]
              && r.error.key !in ccfg.fields["attach"].fields
  {
    var att := GetOr(ccfg.fields, "attach", JNull);
    if !Truthy(att) then Ok(None)
    else if !att.JObj? then Err(BadAttach(child))
    else
      var a := att.fields;
      match Field(child, a, "parent_name")
      case Err(e) => Err(e)
      case Ok(pn) =>
        if !pn.JStr? || pn.s !in components then Err(UnknownComponent(child, pn))
        else
          match Field(child, a, "parent_solid")
          case Err(e) => Err(e)
          case Ok(ps) =>
            if !ps.JStr? || ps.s !in components[pn.s].assembly then Err(UnknownSolid(child, ps))
            else
              match Field(child, a, "child_solid")
              case Err(e) => Err(e)
              case Ok(cs) =>
                if !cs.JStr? || cs.s !in components[child].assembly then Err(UnknownSolid(child, cs))
                else
                  match Field(child, a, "parent_anchor")
                  case Err(e) => Err(e)
                  case Ok(pa) =>
                    match Field(child, a, "child_anchor")
                    case Err(e) => Err(e)
                    case Ok(ca) =>
                      Ok(Some(Directive(child, cs.s, pn.s, ps.s, pa, ca, GetOr(a, "offset", ZeroSix()))))
  }

  /** A directive whose components exist and whose solids belong to them. */
  predicate ValidDirective(components: map<string, Component>, d: Directive) {
    && d.childComp in components && d.childSolid in components[d.childComp].assembly
    && d.parentComp in components && d.parentSolid in components[d.parentComp].assembly
  }

  /** Every entry of the configuration names a built component with a dict configuration. */
  predicate Built(components: map<string, Component>, config: seq<(string, Json)>) {
    forall i :: 0 <= i < |config| ==> config[i].0 in components && config[i].1.JObj?
  }

  /** `ccfg.get("attach")` is truthy. */
  predicate HasAttach(cfg: Json) {
    cfg.JObj? && Truthy(GetOr(cfg.fields, "attach", JNull))
  }

  /** The positions of the entries that carry a truthy `attach` block, in order. */
  function Attaching(config: seq<(string, Json)>): (idx: seq<nat>)
    ensures forall k :: 0 <= k < |idx| ==> idx[k] < |config|
    ensures forall a, b :: 0 <= a < b < |idx| ==> idx[a] < idx[b]
    ensures forall i :: 0 <= i < |config| ==> (i in idx <==> HasAttach(config[i].1))
  {
    if config == [] then []
    else
      var pre := Attaching(config[..|config| - 1]);
      assert forall i :: 0 <= i < |config| - 1 ==> config[..|config| - 1][i] == config[i];
      pre + (if HasAttach(config[|config| - 1].1) then [|config| - 1] else [])
  }

  /**
   * The attach loop: one directive per entry with an attach block, each
   * naming components and solids that exist; the loop stops at the first
   * entry that fails (`AttachAllSucceeds`, `AttachAllDirectives` and
   * `AttachAllFirstError` below say which).
   */
  function AttachAll(components: map<string, Component>, config: seq<(string, Json)>): (r: Result<seq<Directive>, WsError>)
    requires Built(components, config)
    ensures r.Ok? ==> |r.value| == |Attaching(config)|
    ensures r.Ok? ==> forall k :: 0 <= k < |r.value| ==> ValidDirective(components, r.value[k])
  {
    if config == [] then Ok([])
    else
      var n := |config| - 1;
      assert forall i :: 0 <= i < n ==> config[..n][i] == config[i];
      var prev := AttachAll(components, config[..n]);
      var one := Attach(components, config[n].0, config[n].1);
      if prev.Err? then prev
      else if one.Err? then Err(one.error)
      else if one.value.None? then prev
      else Ok(prev.value + [one.value.value])
  }

  /** The attach loop succeeds exactly when every entry's step does. */
  lemma {:induction false} AttachAllSucceeds(components: map<string, Component>, config: seq<(string, Json)>)
    requires Built(components, config)
    ensures AttachAll(components, config).Ok?
            <==> forall i :: 0 <= i < |config| ==> Attach(components, config[i].0, config[i].1).Ok?
  {
    if config != [] {
      var n := |config| - 1;
      assert forall i :: 0 <= i < n ==> config[..n][i] == config[i];
      AttachAllSucceeds(components, config[..n]);
    }
  }

  /** Directive k is the one the k-th entry with an attach block produces. */
  lemma {:induction false} AttachAllDirectives(components: map<string, Component>, config: seq<(string, Json)>)
    requires Built(components, config) && AttachAll(components, config).Ok?
    ensures forall k :: 0 <= k < |AttachAll(components, config).value| ==>
              var i := Attaching(config)[k];
              Attach(components, config[i].0, config[i].1) == Ok(Some(AttachAll(components, config).value[k]))
  {
    if config != [] {
      var n := |config| - 1;
      var pre := config[..n];
      assert forall i :: 0 <= i < n ==> pre[i] == config[i];
      var one := Attach(components, config[n].0, config[n].1);
      assert AttachAll(components, pre).Ok? && one.Ok?;
      var prev := AttachAll(components, pre).value;
      var ds := AttachAll(components, config).value;
      AttachAllDirectives(components, pre);
      var tail := if HasAttach(config[n].1) then [n] else [];
      assert Attaching(config) == Attaching(pre) + tail;
      assert ds == prev + (if one.value.Some? then [one.value.value] else []);
      forall k | 0 <= k < |ds|
        ensures Attach(components, config[Attaching(config)[k]].0, config[Attaching(config)[k]].1) == Ok(Some(ds[k]))
      {
        if k < |prev| {
          assert Attaching(config)[k] == Attaching(pre)[k];
          assert pre[Attaching(pre)[k]] == config[Attaching(pre)[k]];
        } else {
          assert Attaching(config)[k] == n;
        }
      }
    }
  }

  /** A failed attach loop reports the error of the first entry whose step fails. */
  lemma {:induction false} AttachAllFirstError(components: map<string, Component>, config: seq<(string, Json)>)
    requires Built(components, config) && AttachAll(components, config).Err?
    ensures exists i :: && 0 <= i < |config|
                        && Attach(components, config[i].0, config[i].1) == Err(AttachAll(components, config).error)
                        && forall j :: 0 <= j < i ==> Attach(components, config[j].0, config[j].1).Ok?
  {
    var n := |config| - 1;
    var e := AttachAll(components, config).error;
    assert forall i :: 0 <= i < n ==> config[..n][i] == config[i];
    if AttachAll(components, config[..n]).Err? {
      AttachAllFirstError(components, config[..n]);
      var i :| && 0 <= i < n
               && Attach(components, config[..n][i].0, config[..n][i].1) == Err(e)
               && forall j :: 0 <= j < i ==> Attach(components, config[..n][j].0, config[..n][j].1).Ok?;
      assert Attach(components, config[i].0, config[i].1) == Err(e);
    } else {
      AttachAllSucceeds(components, config[..n]);
      assert Attach(components, config[n].0, config[n].1) == Err(e);
    }
  }

  /** The whole of `Workspace.__init__` up to starting the display. */
  function Init(registry: map<string, Kind>, config: seq<(string, Json)>, reachable: bool)
    : (r: Result<(map<string, Component>, seq<Directive>), WsError>)
    ensures !HasCore(config) ==> r == Err(MissingCore)
    ensures r.Ok? ==> HasCore(config) && "core" in r.value.0 && Built(r.value.0, config)
    ensures r.Ok? ==> |r.value.1| == |Attaching(config)|
    ensures r.Ok? ==> forall k :: 0 <= k < |r.value.1| ==> ValidDirective(r.value.0, r.value.1[k])
  {
    if !HasCore(config) then Err(MissingCore)
    else
      match BuildAll(registry, config, reachable)
      case Err(e) => Err(e)
      case Ok(m) =>
        match AttachAll(m, config)
        case Err(e) => Err(e)
        case Ok(ds) => Ok((m, ds))
  }

  /**
   * A workspace that builds has every entry built, each name holding the
   * component of its last entry, and directive k coming from the k-th entry
   * with an attach block.
   */
  lemma InitBuilt(registry: map<string, Kind>, config: seq<(string, Json)>, reachable: bool)
    requires Init(registry, config, reachable).Ok?
    ensures var r := Init(registry, config, reachable).value;
            && (forall i :: 0 <= i < |config| ==> BuildOne(registry, config[i].0, config[i].1, reachable).Ok?)
            && (forall i :: 0 <= i < |config| && LastOfName(config, i) ==>
                  r.0[config[i].0] == BuildOne(registry, config[i].0, config[i].1, reachable).value)
            && (forall k :: 0 <= k < |r.1| ==>
                  var i := Attaching(config)[k];
                  Attach(r.0, config[i].0, config[i].1) == Ok(Some(r.1[k])))
  {
    BuildAllSucceeds(registry, config, reachable);
    BuildAllValues(registry, config, reachable);
    AttachAllDirectives(BuildAll(registry, config, reachable).value, config);
  }

  // ---------------------------------------------------------------------------
  // The constructor
  // ---------------------------------------------------------------------------

  /** Once a prefix of the build loop has failed, the loop ends with that error. */
  lemma {:induction false} BuildAllSticky(registry: map<string, Kind>, config: seq<(string, Json)>, k: nat, reachable: bool)
    requires k <= |config| && BuildAll(registry, config[..k], reachable).Err?
    ensures BuildAll(registry, config, reachable) == BuildAll(registry, config[..k], reachable)
    decreases |config|
  {
    if k < |config| {
      var pre := config[..|config| - 1];
      assert pre[..k] == config[..k];
      BuildAllSticky(registry, pre, k, reachable);
    } else {
      assert config[..k] == config;
    }
  }

  /** Once a prefix of the attach loop has failed, the loop ends with that error. */
  lemma {:induction false} AttachAllSticky(components: map<string, Component>, config: seq<(string, Json)>, k: nat)
    requires Built(components, config)
    requires k <= |config| && Built(components, config[..k]) && AttachAll(components, config[..k]).Err?
    ensures AttachAll(components, config) == AttachAll(components, config[..k])
    decreases |config|
  {
    if k < |config| {
      var pre := config[..|config| - 1];
      assert pre[..k] == config[..k];
      assert Built(components, pre) by {
        forall i | 0 <= i < |pre| ensures pre[i] == config[i] { }
      }
      AttachAllSticky(components, pre, k);
    } else {
      assert config[..k] == config;
    }
  }

  /** `cls(name, cfg)` for the class the factory selected. */
  method Construct(call: Call, reachable: bool) returns (r: Result<Component, WsError>)
    ensures r == Instantiate(call, reachable)
  {
    match call.kind {
      case CoreKind =>
        var core := Core.Construct(call.name, call.cfg, reachable);
        if core.Err? {
          return Err(CoreFailed(core.error));
        }
        r := Ok(Component(CoreKind, Names(core.value.assembly), core.value.hasApi));
      case MicroplateKind =>
        var plate := Microplate.Construct(call.name);
        assert Names(plate.assembly) == ["microplate"];
        r := Ok(Component(MicroplateKind, Names(plate.assembly), false));
      case ConstantKind(t) =>
        r := Ok(Component(call.kind, ConstantSolids(t, call.cfg), false));
    }
  }

  /** Step 1 of the constructor: `self.components[name] = create_component(name, ccfg)` for each entry. */
  method BuildComponents(registry: map<string, Kind>, config: seq<(string, Json)>, reachable: bool)
    returns (r: Result<map<string, Component>, WsError>)
    ensures r == BuildAll(registry, config, reachable)
  {
    var components: map<string, Component> := map[];
    var i := 0;
    while i < |config|
      invariant 0 <= i <= |config|
      invariant BuildAll(registry, config[..i], reachable) == Ok(components)
    {
      var (name, cfg) := config[i];
      assert config[..i + 1][..i] == config[..i] && config[..i + 1][i] == config[i];
      var call := CreateComponent(registry, name, cfg);
      if call.Err? {
        BuildAllSticky(registry, config, i + 1, reachable);
        return Err(FactoryFailed(call.error));
      }
      var c := Construct(call.value, reachable);
      if c.Err? {
        BuildAllSticky(registry, config, i + 1, reachable);
        return Err(c.error);
      }
      components := components[name := c.value];
      i := i + 1;
    }
    assert config[..|config|] == config;
    r := Ok(components);
  }

  /** Step 2 of the constructor: the attach loop over the entries in order. */
  method RunAttachments(components: map<string, Component>, config: seq<(string, Json)>)
    returns (r: Result<seq<Directive>, WsError>)
    requires Built(components, config)
    ensures r == AttachAll(components, config)
  {
    var directives: seq<Directive> := [];
    var j := 0;
    while j < |config|
      invariant 0 <= j <= |config|
      invariant Built(components, config[..j]) && AttachAll(components, config[..j]) == Ok(directives)
    {
      var (child, ccfg) := config[j];
      assert config[..j + 1][..j] == config[..j] && config[..j + 1][j] == config[j];
      assert Built(components, config[..j + 1]) by {
        forall k | 0 <= k < j + 1 ensures config[..j + 1][k] == config[k] { }
      }
      var step := Attach(components, child, ccfg);
      if step.Err? {
        AttachAllSticky(components, config, j + 1);
        return Err(step.error);
      }
      if step.value.Some? {
        directives := directives + [step.value.value];
      }
      j := j + 1;
    }
    assert config[..|config|] == config;
    r := Ok(directives);
  }

  /**
   * `Workspace.__init__` after the configuration is loaded: refuse a
   * configuration without `core`, build every component in order, then run
   * the attach loop in order.
   */
  method Build(registry: map<string, Kind>, config: seq<(string, Json)>, reachable: bool)
    returns (r: Result<(map<string, Component>, seq<Directive>), WsError>)
    ensures r == Init(registry, config, reachable)
  {
    if !HasCore(config) {
      return Err(MissingCore);
    }
    var built := BuildComponents(registry, config, reachable);
    if built.Err? {
      return Err(built.error);
    }
    var attached := RunAttachments(built.value, config);
    if attached.Err? {
      return Err(attached.error);
    }
    r := Ok((built.value, attached.value));
  }
}
