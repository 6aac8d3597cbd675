/**
 * One creature event descriptor: its name and kind, read from an XML node,
 * the script attached to it, and the execute skeleton every kind shares
 * (reserve an environment, run the buffer or call the compiled function,
 * release the environment, answer 1 or 0).
 */
module CreatureEventDescriptor {
  import opened Wrappers
  import opened CreatureEventKinds
  import opened ScriptRuntime
  import opened CreatureEventArgs

  /** How the script of a descriptor is held: none, inline text run as a buffer, or a compiled function. */
  datatype ScriptMode = ScriptFalse | ScriptBuffer | ScriptTrue

  /** The two attributes configureEvent reads from its XML node, each possibly missing. */
  datatype XmlNode = XmlNode(nameAttr: Option<string>, typeAttr: Option<string>)

  /** The state of one descriptor. */
  datatype EventRecord = EventRecord(
    name: string,
    kind: Kind,
    loaded: bool,
    scriptId: int,
    iface: ScriptInterface?,
    scripted: ScriptMode,
    scriptData: string)

  /**
   * configureEvent: a missing name fails and changes nothing; otherwise the
   * name is stored at once, so a missing or unknown type fails with the new
   * name already in place and the kind untouched. Only success marks the
   * descriptor loaded.
   */
  function Configure(e: EventRecord, node: XmlNode): (res: (EventRecord, bool))
    ensures res.1 <==> node.nameAttr.Some? && node.typeAttr.Some? && ParseType(node.typeAttr.value).Some?
    ensures res.0.name == if node.nameAttr.Some? then node.nameAttr.value else e.name
    ensures res.0.kind == if res.1 then ParseType(node.typeAttr.value).value else e.kind
    ensures res.1 ==> res.0.kind != NoKind
    ensures res.0.loaded == (e.loaded || res.1)
    ensures res.0.(name := e.name, kind := e.kind, loaded := e.loaded) == e
  {
    match node.nameAttr
    case None => (e, false)
    case Some(name) =>
      var named := e.(name := name);
      match node.typeAttr
      case None => (named, false)
      case Some(typeAttr) =>
        match ParseType(typeAttr)
        case None => (named, false)
        case Some(k) => (named.(kind := k, loaded := true), true)
  }

  /** A node naming the event and giving any spelling of a kind's tag configures exactly that kind. */
  lemma ConfigureWithTag(e: EventRecord, name: string, typeAttr: string, k: Kind)
    requires k != NoKind && Lower(typeAttr) == Tag(k)
    ensures Configure(e, XmlNode(Some(name), Some(typeAttr))) == (e.(name := name, kind := k, loaded := true), true)
  {
    ParseTypeOfTag(k, typeAttr);
  }

  /** The tag is compared after lower-casing: a node and its lower-cased twin configure alike. */
  lemma ConfigureIgnoresTypeCase(e: EventRecord, name: Option<string>, typeAttr: string)
    ensures Configure(e, XmlNode(name, Some(typeAttr))) == Configure(e, XmlNode(name, Some(Lower(typeAttr))))
  {
    ParseTypeIgnoresCase(typeAttr);
  }

  /**
   * copyEvent: the script identity, the interface, the script mode and the
   * loaded flag come from the source descriptor; the name, the kind and the
   * inline script text stay the destination's own.
   */
  function Copied(dst: EventRecord, src: EventRecord): (r: EventRecord)
    ensures r.name == dst.name && r.kind == dst.kind && r.scriptData == dst.scriptData
    ensures r.scriptId == src.scriptId && r.iface == src.iface && r.scripted == src.scripted && r.loaded == src.loaded
  {
    dst.(scriptId := src.scriptId, iface := src.iface, scripted := src.scripted, loaded := src.loaded)
  }

  /** clearEvent: no script, no interface, not loaded; name, kind and text are kept. */
  function Cleared(e: EventRecord): (r: EventRecord)
    ensures r.name == e.name && r.kind == e.kind && r.scriptData == e.scriptData
    ensures r.scriptId == 0 && r.iface == null && r.scripted == ScriptFalse && !r.loaded
  {
    e.(scriptId := 0, iface := null, scripted := ScriptFalse, loaded := false)
  }

  /** Clearing forgets everything copying brings in, and clearing twice is clearing once. */
  lemma ClearForgetsCopy(dst: EventRecord, src: EventRecord)
    ensures Cleared(Copied(dst, src)) == Cleared(dst)
    ensures Cleared(Cleared(dst)) == Cleared(dst)
  {
  }

  /** The uint32 an execute operation returns for the script's boolean answer. */
  function Verdict(b: bool): (v: nat)
    ensures v <= 1 && (v == 1 <==> b)
  {
    if b then 1 else 0
  }

  /**
   * The effect of any execute operation of descriptor e on the runtime: when
   * no environment is free nothing happens and the answer is 0; otherwise
   * exactly one script operation runs between a reserve and a release, and
   * the environment count is back where it was.
   */
  function ExecuteSpec(e: EventRecord, engine: Engine, rt: Runtime, a: EventArgs): (res: (nat, Runtime))
    ensures res.0 <= 1
    ensures rt.envIndex >= engine.maxEnv ==> res == (0, rt)
    ensures rt.envIndex < engine.maxEnv ==>
      res.1.envIndex == rt.envIndex && |res.1.trace| == |rt.trace| + 3 &&
      res.1.trace[..|rt.trace|] == rt.trace &&
      res.1.trace[|rt.trace|] == Reserve && res.1.trace[|rt.trace| + 2] == Release
  {
    if rt.envIndex < engine.maxEnv then
      if e.scripted == ScriptBuffer then
        var script := BufferScript(BufferBindings(a), e.scriptData);
        var outcome := engine.runBuffer(script, rt.globals);
        var result := if outcome.0 then GlobalBool(outcome.1, "_result", true) else true;
        (Verdict(result), Runtime(rt.envIndex, outcome.1, rt.trace + [Reserve, Load(script), Release]))
      else
        var args := CompiledArgs(a);
        var outcome := engine.callFunction(e.scriptId, args, rt.globals);
        (Verdict(outcome.0), Runtime(rt.envIndex, outcome.1, rt.trace + [Reserve, Call(e.scriptId, args), Release]))
    else
      (0, rt)
  }

  /**
   * The two branches of the skeleton, both run in the globals earlier
   * scripts left: inline text is loaded behind the prologue of named
   * arguments, a failed load still answers 1, and a successful one answers
   * the global _result (true when unset), whoever set it; a compiled script
   * is called with the positional arguments and its boolean answer is the
   * verdict. Either way the globals the script leaves are kept.
   */
  lemma ExecuteBranches(e: EventRecord, engine: Engine, rt: Runtime, a: EventArgs)
    requires rt.envIndex < engine.maxEnv
    ensures var res := ExecuteSpec(e, engine, rt, a);
      var outcome := engine.runBuffer(BufferScript(BufferBindings(a), e.scriptData), rt.globals);
      e.scripted == ScriptBuffer ==>
        res.1.trace[|rt.trace| + 1] == Load(BufferScript(BufferBindings(a), e.scriptData)) &&
        res.1.globals == outcome.1 &&
        (!outcome.0 ==> res.0 == 1) &&
        (outcome.0 ==> res.0 == Verdict(GlobalBool(outcome.1, "_result", true)))
    ensures var res := ExecuteSpec(e, engine, rt, a);
      var outcome := engine.callFunction(e.scriptId, CompiledArgs(a), rt.globals);
      e.scripted != ScriptBuffer ==>
        res.1.trace[|rt.trace| + 1] == Call(e.scriptId, CompiledArgs(a)) &&
        res.1.globals == outcome.1 &&
        (res.0 == 1 <==> outcome.0)
  {
  }

  /**
   * The globals outlive a handler: a buffer that assigns nothing answers
   * the _result an earlier script left, and answers 1 only in a fresh state.
   */
  lemma StaleResultDecides(e: EventRecord, engine: Engine, rt: Runtime, a: EventArgs)
    requires rt.envIndex < engine.maxEnv && e.scripted == ScriptBuffer
    requires forall g :: engine.runBuffer(BufferScript(BufferBindings(a), e.scriptData), g) == (true, g)
    ensures rt.globals == map["_result" := false] ==> ExecuteSpec(e, engine, rt, a).0 == 0
    ensures rt.globals == map[] ==> ExecuteSpec(e, engine, rt, a).0 == 1
  {
    ExecuteBranches(e, engine, rt, a);
  }

  /**
   * After copyEvent a descriptor answers exactly as the source descriptor
   * would, unless the script is inline text: that text is not copied, so
   * the merged descriptor runs its own old text under the new mode.
   */
  lemma CopiedExecutesAsSource(dst: EventRecord, src: EventRecord, engine: Engine, rt: Runtime, a: EventArgs)
    ensures src.scripted != ScriptBuffer || dst.scriptData == src.scriptData ==>
      ExecuteSpec(Copied(dst, src), engine, rt, a) == ExecuteSpec(src, engine, rt, a)
    ensures src.scripted == ScriptBuffer && rt.envIndex < engine.maxEnv ==>
      ExecuteSpec(Copied(dst, src), engine, rt, a).1.trace[|rt.trace| + 1] == Load(BufferScript(BufferBindings(a), dst.scriptData))
  {
  }

  /** A creature event descriptor, updated in place by the registry. */
  class CreatureEvent {
    var name: string
    var kind: Kind
    var loaded: bool
    var scriptId: int
    var iface: ScriptInterface?
    var scripted: ScriptMode
    var scriptData: string

    function Record(): EventRecord
      reads this
    {
      EventRecord(name, kind, loaded, scriptId, iface, scripted, scriptData)
    }

    /** A fresh descriptor: no kind, not loaded, no script yet. */
    constructor (iface: ScriptInterface?)
      ensures Record() == EventRecord("", NoKind, false, 0, iface, ScriptFalse, "")
    {
      name := "";
      kind := NoKind;
      loaded := false;
      scriptId := 0;
      this.iface := iface;
      scripted := ScriptFalse;
      scriptData := "";
    }

    method ConfigureEvent(node: XmlNode) returns (ok: bool)
      modifies this
      ensures (Record(), ok) == Configure(old(Record()), node)
    {
      if node.nameAttr.None? {
        return false;
      }
      name := node.nameAttr.value;
      if node.typeAttr.None? {
        return false;
      }
      var parsed := ParseType(node.typeAttr.value);
      if parsed.None? {
        return false;
      }
      kind := parsed.value;
      loaded := true;
      ok := true;
    }

    method CopyEvent(other: CreatureEvent)
      modifies this
      ensures Record() == Copied(old(Record()), old(other.Record()))
    {
      scriptId := other.scriptId;
      iface := other.iface;
      scripted := other.scripted;
      loaded := other.loaded;
    }

    method ClearEvent()
      modifies this
      ensures Record() == Cleared(old(Record()))
    {
      scriptId := 0;
      iface := null;
      scripted := ScriptFalse;
      loaded := false;
    }

    /** The skeleton shared by every executeX operation, for the arguments of one kind. */
    method Execute(a: EventArgs) returns (verdict: nat)
      requires iface != null
      modifies iface
      ensures (verdict, iface.State()) == ExecuteSpec(Record(), iface.engine, old(iface.State()), a)
    {
      ghost var rt := iface.State();
      ghost var spec := ExecuteSpec(Record(), iface.engine, rt, a);
      var reserved := iface.ReserveEnv();
      if !reserved {
        return 0;
      }
      var result: bool;
      if scripted == ScriptBuffer {
        var bindings := MarshalBuffer(a);
        var script := BufferScript(bindings, scriptData);
        ghost var outcome := iface.engine.runBuffer(script, rt.globals);
        var ran := iface.LoadBuffer(script);
        result := true;
        if ran {
          result := GlobalBool(iface.globals, "_result", true);
        }
        iface.ReleaseEnv();
        assert iface.State() == Runtime(rt.envIndex, outcome.1, rt.trace + [Reserve, Load(script), Release]);
      } else {
        var args := MarshalCompiled(a);
        ghost var outcome := iface.engine.callFunction(scriptId, args, rt.globals);
        result := iface.CallFunction(scriptId, args);
        iface.ReleaseEnv();
        assert iface.State() == Runtime(rt.envIndex, outcome.1, rt.trace + [Reserve, Call(scriptId, args), Release]);
      }
      verdict := Verdict(result);
      assert spec == (verdict, iface.State());
    }
  }
}
