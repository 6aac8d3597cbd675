/**
 * The creature event registry: an ordered list of descriptors sharing one
 * scripting interface, name lookup, registration with reuse of a same-named
 * entry of the same kind, clearing for a reload, and the login and logout
 * broadcasts.
 */
module CreatureEventRegistry {
  import opened Wrappers
  import opened CreatureEventKinds
  import opened ScriptRuntime
  import opened CreatureEventArgs
  import opened CreatureEventDescriptor

  /** getEvent accepts these node names, compared after lower-casing. */
  predicate IsEventNode(nodeName: string)
  {
    var n := Lower(nodeName);
    n == "event" || n == "creaturevent" || n == "creatureevent" || n == "creaturescript"
  }

  /** Whether a node name is accepted does not depend on its case. */
  lemma IsEventNodeIgnoresCase(nodeName: string)
    ensures IsEventNode(nodeName) == IsEventNode(Lower(nodeName))
  {
    LowerIdempotent(nodeName);
  }

  /** The index of the first entry carrying the name, if any. */
  function FindByName(list: seq<EventRecord>, name: string): (r: Option<nat>)
    ensures r.Some? ==> r.value < |list| && list[r.value].name == name
    ensures r.Some? ==> forall j :: 0 <= j < r.value ==> list[j].name != name
    ensures r.None? ==> forall j :: 0 <= j < |list| ==> list[j].name != name
  {
    if list == [] then None
    else if list[0].name == name then Some(0)
    else
      match FindByName(list[1..], name)
      case None => None
      case Some(i) => Some(i + 1)
  }

  /** The entry registerEvent would reuse: the first same-named entry, when it has the same kind. */
  function MergeTarget(list: seq<EventRecord>, ev: EventRecord): (r: Option<nat>)
    ensures r.Some? ==> r.value < |list| && list[r.value].name == ev.name && list[r.value].kind == ev.kind
    ensures r.Some? <==> FindByName(list, ev.name).Some? && list[FindByName(list, ev.name).value].kind == ev.kind
  {
    match FindByName(list, ev.name)
    case None => None
    case Some(i) => if list[i].kind == ev.kind then Some(i) else None
  }

  /**
   * registerEvent on the list of records: a descriptor without a kind is
   * refused; one whose name first appears on an entry of the same kind is
   * copied into that entry when it is unloaded or override is set, and the
   * answer is override; any other descriptor is appended and accepted.
   */
  function Register(list: seq<EventRecord>, ev: EventRecord, override: bool): (res: (seq<EventRecord>, bool))
    ensures ev.kind == NoKind ==> res == (list, false)
    ensures ev.kind != NoKind && MergeTarget(list, ev).None? ==> res == (list + [ev], true)
    ensures ev.kind != NoKind && MergeTarget(list, ev).Some? ==>
      var i := MergeTarget(list, ev).value;
      res.1 == override && |res.0| == |list| &&
      res.0[i] == (if !list[i].loaded || override then Copied(list[i], ev) else list[i]) &&
      forall j :: 0 <= j < |list| && j != i ==> res.0[j] == list[j]
  {
    if ev.kind == NoKind then (list, false)
    else
      match MergeTarget(list, ev)
      case Some(i) =>
        if !list[i].loaded || override then (list[i := Copied(list[i], ev)], override) else (list, override)
      case None => (list + [ev], true)
  }

  /**
   * After a registration that was not refused, some entry carries the name
   * and the kind, and a lookup of the name succeeds; the lookup need not land
   * on that entry, since an earlier same-named entry of another kind wins.
   */
  lemma RegisterFindsName(list: seq<EventRecord>, ev: EventRecord, override: bool)
    requires ev.kind != NoKind
    ensures var res := Register(list, ev, override).0;
      FindByName(res, ev.name).Some? &&
      exists i :: 0 <= i < |res| && res[i].name == ev.name && res[i].kind == ev.kind
  {
    var res := Register(list, ev, override).0;
    match MergeTarget(list, ev)
    case None =>
      FindAppended(list, ev, ev.name);
      assert res[|list|] == ev;
    case Some(i) =>
      assert res[i].name == ev.name && res[i].kind == ev.kind;
  }

  /** Appending never changes where a name is first found, and a new name is found at the end. */
  lemma {:induction false} FindAppended(list: seq<EventRecord>, ev: EventRecord, name: string)
    ensures FindByName(list + [ev], name) ==
      if FindByName(list, name).Some? then FindByName(list, name)
      else if ev.name == name then Some(|list|) else None
    decreases |list|
  {
    if list != [] && list[0].name != name {
      assert (list + [ev])[1..] == list[1..] + [ev];
      FindAppended(list[1..], ev, name);
    }
  }

  /**
   * Registration never changes which entry a lookup of another name finds:
   * entries are appended after every existing one, and a merge keeps the
   * entry's name.
   */
  lemma RegisterKeepsOtherNames(list: seq<EventRecord>, ev: EventRecord, override: bool, name: string)
    requires name != ev.name
    ensures FindByName(Register(list, ev, override).0, name) == FindByName(list, name)
  {
    if ev.kind != NoKind {
      match MergeTarget(list, ev)
      case None =>
        FindAppended(list, ev, name);
      case Some(i) =>
        if !list[i].loaded || override {
          FindUpdated(list, i, Copied(list[i], ev), name);
        }
    }
  }

  /** Replacing an entry by one with the same name leaves every lookup as it was. */
  lemma {:induction false} FindUpdated(list: seq<EventRecord>, i: nat, e: EventRecord, name: string)
    requires i < |list| && e.name == list[i].name
    ensures FindByName(list[i := e], name) == FindByName(list, name)
    decreases |list|
  {
    if list[0].name != name && i > 0 {
      assert list[i := e][1..] == list[1..][i - 1 := e];
      FindUpdated(list[1..], i - 1, e, name);
    } else if list[0].name != name {
      assert list[i := e][1..] == list[1..];
    }
  }

  /** Registering the same loaded descriptor again without override changes nothing and is refused. */
  lemma ReRegisterRefused(list: seq<EventRecord>, ev: EventRecord)
    requires ev.kind != NoKind && ev.loaded && FindByName(list, ev.name).None?
    ensures Register(list, ev, false) == (list + [ev], true)
    ensures Register(list + [ev], ev, false) == (list + [ev], false)
  {
    FindAppended(list, ev, ev.name);
  }

  /**
   * The first same-named entry decides: when it has another kind, a
   * descriptor is appended even though a later entry has the same name and
   * kind and is loaded, so two loaded entries of one name and kind coexist.
   */
  lemma DuplicateActiveEntries(login: EventRecord, kill: EventRecord, again: EventRecord)
    requires login.name == "x" && login.kind == Login
    requires kill.name == "x" && kill.kind == Kill && kill.loaded
    requires again.name == "x" && again.kind == Kill && again.loaded
    ensures Register([login, kill], again, false) == ([login, kill, again], true)
    ensures var l := Register([login, kill], again, false).0;
      l[1].name == l[2].name && l[1].kind == l[2].kind && l[1].loaded && l[2].loaded
  {
    assert FindByName([login, kill], "x") == Some(0);
    assert MergeTarget([login, kill], again).None?;
    assert [login, kill] + [again] == [login, kill, again];
  }

  /** clear: every entry cleared, in place. */
  function ClearAll(list: seq<EventRecord>): (r: seq<EventRecord>)
    ensures |r| == |list|
    ensures forall i :: 0 <= i < |list| ==> r[i] == Cleared(list[i])
  {
    seq(|list|, i requires 0 <= i < |list| => Cleared(list[i]))
  }

  /** Clearing keeps names, so every lookup finds the same position as before. */
  lemma {:induction false} ClearKeepsLookup(list: seq<EventRecord>, name: string)
    ensures FindByName(ClearAll(list), name) == FindByName(list, name)
    decreases |list|
  {
    if list != [] && list[0].name != name {
      assert ClearAll(list)[1..] == ClearAll(list[1..]);
      ClearKeepsLookup(list[1..], name);
    }
  }

  /**
   * A reload: after clear, registering a descriptor with an existing entry's
   * name and kind (that entry being the first of that name) fills the cleared
   * entry in place, whatever override says; the list keeps its length.
   */
  lemma ReloadReusesEntry(list: seq<EventRecord>, ev: EventRecord, override: bool, i: nat)
    requires ev.kind != NoKind && FindByName(list, ev.name) == Some(i) && list[i].kind == ev.kind
    ensures Register(ClearAll(list), ev, override) == (ClearAll(list)[i := Copied(Cleared(list[i]), ev)], override)
  {
    ClearKeepsLookup(list, ev.name);
  }

  /** The entries a broadcast of kind k invokes: those of that kind that are loaded, in list order. */
  function Handlers(list: seq<EventRecord>, k: Kind): (r: seq<EventRecord>)
    ensures |r| <= |list|
    ensures forall e :: e in r ==> e in list && e.kind == k && e.loaded
  {
    if list == [] then []
    else
      var last := list[|list| - 1];
      Handlers(list[..|list| - 1], k) + (if last.kind == k && last.loaded then [last] else [])
  }

  /**
   * A broadcast: each entry in order whose kind is that of the arguments and
   * which is loaded is executed, threading the runtime; the verdicts are
   * collected in order.
   */
  function Fire(list: seq<EventRecord>, engine: Engine, rt: Runtime, a: EventArgs): (res: (seq<nat>, Runtime))
    ensures forall v :: v in res.0 ==> v <= 1
    ensures res.1.envIndex == rt.envIndex
    ensures |rt.trace| <= |res.1.trace| && res.1.trace[..|rt.trace|] == rt.trace
  {
    if list == [] then ([], rt)
    else
      var prev := Fire(list[..|list| - 1], engine, rt, a);
      var last := list[|list| - 1];
      if last.kind == ArgsKind(a) && last.loaded then
        var step := ExecuteSpec(last, engine, prev.1, a);
        (prev.0 + [step.0], step.1)
      else prev
  }

  /** The answer of a broadcast: the running conjunction of the loop, one verdict at a time. */
  predicate AllNonzero(verdicts: seq<nat>)
  {
    verdicts == [] || (AllNonzero(verdicts[..|verdicts| - 1]) && verdicts[|verdicts| - 1] != 0)
  }

  /** The running conjunction is true exactly when every invoked handler answered nonzero. */
  lemma {:induction false} AllNonzeroMeansEvery(verdicts: seq<nat>)
    ensures AllNonzero(verdicts) <==> forall i :: 0 <= i < |verdicts| ==> verdicts[i] != 0
    decreases |verdicts|
  {
    if verdicts != [] {
      var init := verdicts[..|verdicts| - 1];
      AllNonzeroMeansEvery(init);
      assert forall i :: 0 <= i < |init| ==> init[i] == verdicts[i];
    }
  }

  /** One more entry of a broadcast: executed after the earlier ones when it is a handler, skipped otherwise. */
  lemma FireStep(list: seq<EventRecord>, i: nat, engine: Engine, rt: Runtime, a: EventArgs)
    requires i < |list|
    ensures var p := Fire(list[..i], engine, rt, a);
      var step := ExecuteSpec(list[i], engine, p.1, a);
      Fire(list[..i + 1], engine, rt, a) ==
        if list[i].kind == ArgsKind(a) && list[i].loaded then (p.0 + [step.0], step.1) else p
  {
    assert list[..i + 1][..i] == list[..i];
  }

  lemma AllNonzeroAppend(verdicts: seq<nat>, v: nat)
    ensures AllNonzero(verdicts + [v]) == (AllNonzero(verdicts) && v != 0)
  {
    assert (verdicts + [v])[..|verdicts|] == verdicts;
  }

  /** A broadcast is the broadcast over its handlers alone: other entries are skipped without effect. */
  lemma {:induction false} FireOnlyHandlers(list: seq<EventRecord>, engine: Engine, rt: Runtime, a: EventArgs)
    ensures Fire(list, engine, rt, a) == Fire(Handlers(list, ArgsKind(a)), engine, rt, a)
    decreases |list|
  {
    if list != [] {
      var init := list[..|list| - 1];
      var last := list[|list| - 1];
      var hInit := Handlers(init, ArgsKind(a));
      FireOnlyHandlers(init, engine, rt, a);
      var p := Fire(init, engine, rt, a);
      if last.kind == ArgsKind(a) && last.loaded {
        var h := hInit + [last];
        var step := ExecuteSpec(last, engine, p.1, a);
        assert Handlers(list, ArgsKind(a)) == h;
        assert h[..|h| - 1] == hInit;
        assert h[|h| - 1] == last;
        assert Fire(list, engine, rt, a) == (p.0 + [step.0], step.1);
        assert Fire(h, engine, rt, a) == (p.0 + [step.0], step.1);
      } else {
        assert Handlers(list, ArgsKind(a)) == hInit + [] == hInit;
        assert Fire(list, engine, rt, a) == p;
      }
    }
  }

  /** Every handler runs, whatever earlier handlers answered: one verdict per handler. */
  lemma {:induction false} FireRunsEveryHandler(list: seq<EventRecord>, engine: Engine, rt: Runtime, a: EventArgs)
    ensures |Fire(list, engine, rt, a).0| == |Handlers(list, ArgsKind(a))|
    decreases |list|
  {
    if list != [] {
      FireRunsEveryHandler(list[..|list| - 1], engine, rt, a);
    }
  }

  /** Broadcasting over two lists in turn is broadcasting over their concatenation: list order is call order. */
  lemma {:induction false} FireAppend(l1: seq<EventRecord>, l2: seq<EventRecord>, engine: Engine, rt: Runtime, a: EventArgs)
    ensures var p := Fire(l1, engine, rt, a);
      var q := Fire(l2, engine, p.1, a);
      Fire(l1 + l2, engine, rt, a) == (p.0 + q.0, q.1)
    decreases |l2|
  {
    if l2 != [] {
      var init := l2[..|l2| - 1];
      var last := l2[|l2| - 1];
      assert (l1 + l2)[..|l1 + l2| - 1] == l1 + init;
      assert (l1 + l2)[|l1 + l2| - 1] == last;
      FireAppend(l1, init, engine, rt, a);
      var p := Fire(l1, engine, rt, a);
      var q := Fire(init, engine, p.1, a);
      if last.kind == ArgsKind(a) && last.loaded {
        var step := ExecuteSpec(last, engine, q.1, a);
        assert (p.0 + q.0) + [step.0] == p.0 + (q.0 + [step.0]);
      }
    } else {
      assert l1 + l2 == l1;
      assert Fire(l1, engine, rt, a).0 + [] == Fire(l1, engine, rt, a).0;
    }
  }

  /** When no environment is free, every handler answers 0 and the runtime is untouched. */
  lemma {:induction false} FireWithoutEnvironment(list: seq<EventRecord>, engine: Engine, rt: Runtime, a: EventArgs)
    requires rt.envIndex >= engine.maxEnv
    ensures Fire(list, engine, rt, a).1 == rt
    ensures forall v :: v in Fire(list, engine, rt, a).0 ==> v == 0
    decreases |list|
  {
    if list != [] {
      FireWithoutEnvironment(list[..|list| - 1], engine, rt, a);
    }
  }

  /** A broadcast with no handler answers true and does nothing; so does one right after clear. */
  lemma FireAfterClear(list: seq<EventRecord>, engine: Engine, rt: Runtime, a: EventArgs)
    ensures Handlers(ClearAll(list), ArgsKind(a)) == []
    ensures Fire(ClearAll(list), engine, rt, a) == ([], rt)
  {
    var cleared := ClearAll(list);
    assert forall e :: e in cleared ==> !e.loaded;
    FireOnlyHandlers(cleared, engine, rt, a);
  }

  /** The registry of one server: the descriptors, in registration order, and their shared interface. */
  class CreatureEvents {
    const iface: ScriptInterface
    var events: seq<CreatureEvent>

    /** Entries are distinct objects, and every loaded entry runs on the registry's interface. */
    ghost predicate Valid()
      reads this, events
    {
      (forall i, j :: 0 <= i < j < |events| ==> events[i] != events[j]) &&
      (forall i :: 0 <= i < |events| && events[i].loaded ==> events[i].iface == iface)
    }

    function Records(): (r: seq<EventRecord>)
      reads this, events
      ensures |r| == |events|
      ensures forall i :: 0 <= i < |events| ==> r[i] == events[i].Record()
    {
      seq(|events|, i reads this, events requires 0 <= i < |events| => events[i].Record())
    }

    constructor (engine: Engine)
      ensures Valid() && events == [] && iface.engine == engine && fresh(iface)
    {
      iface := new ScriptInterface(engine);
      events := [];
    }

    /** A new unconfigured descriptor on this registry's interface, for the accepted node names only. */
    method GetEvent(nodeName: string) returns (ev: CreatureEvent?)
      ensures (ev != null) == IsEventNode(nodeName)
      ensures ev != null ==> fresh(ev) && ev.Record() == EventRecord("", NoKind, false, 0, iface, ScriptFalse, "")
    {
      var n := Lower(nodeName);
      if n == "event" || n == "creaturevent" || n == "creatureevent" || n == "creaturescript" {
        ev := new CreatureEvent(iface);
      } else {
        ev := null;
      }
    }

    /** The first entry carrying the name, or null. */
    method GetEventByName(name: string) returns (ev: CreatureEvent?)
      ensures ev == null <==> FindByName(Records(), name).None?
      ensures ev != null ==> ev == events[FindByName(Records(), name).value]
    {
      var i := 0;
      while i < |events|
        invariant 0 <= i <= |events|
        invariant forall j :: 0 <= j < i ==> events[j].name != name
      {
        if events[i].name == name {
          assert Records()[i].name == name;
          return events[i];
        }
        i := i + 1;
      }
      return null;
    }

    method RegisterEvent(ev: CreatureEvent, override: bool) returns (ok: bool)
      requires Valid() && ev !in events && (ev.loaded ==> ev.iface == iface)
      modifies this, events
      ensures Valid()
      ensures events == old(events) || events == old(events) + [ev]
      ensures (Records(), ok) == Register(old(Records()), old(ev.Record()), override)
    {
      ghost var recs := Records();
      if ev.kind == NoKind {
        return false;
      }
      var existing := GetEventByName(ev.name);
      if existing != null && existing.kind == ev.kind {
        ghost var i := FindByName(recs, ev.name).value;
        if !existing.loaded || override {
          existing.CopyEvent(ev);
          assert Records() == recs[i := Copied(recs[i], ev.Record())];
        }
        return override;
      }
      Append(ev);
      return true;
    }

    /** push_back of a descriptor not yet in the list. */
    method Append(ev: CreatureEvent)
      requires Valid() && ev !in events && (ev.loaded ==> ev.iface == iface)
      modifies this
      ensures Valid()
      ensures events == old(events) + [ev]
      ensures Records() == old(Records()) + [ev.Record()]
    {
      ghost var recs := Records();
      events := events + [ev];
      assert Records() == recs + [ev.Record()];
    }

    /** clear: every entry cleared in place, then a fresh script state, so no global survives a reload. */
    method Clear()
      requires Valid()
      modifies events, iface
      ensures Valid() && events == old(events)
      ensures Records() == ClearAll(old(Records()))
      ensures iface.State() == Runtime(old(iface.envIndex), map[], old(iface.trace) + [Reinit])
    {
      ghost var recs := Records();
      for i := 0 to |events|
        invariant Valid()
        invariant iface.State() == old(iface.State())
        invariant forall j :: 0 <= j < i ==> events[j].Record() == Cleared(recs[j])
        invariant forall j :: i <= j < |events| ==> events[j].Record() == recs[j]
      {
        events[i].ClearEvent();
      }
      iface.ReInitState();
    }

    /** The loop of playerLogin and playerLogout, for the arguments of either broadcast. */
    method Broadcast(a: EventArgs) returns (result: bool)
      requires Valid()
      modifies iface
      ensures Records() == old(Records())
      ensures var f := Fire(old(Records()), iface.engine, old(iface.State()), a);
        result == AllNonzero(f.0) && iface.State() == f.1
    {
      ghost var recs := Records();
      ghost var rt := iface.State();
      ghost var verdicts: seq<nat> := [];
      result := true;
      for i := 0 to |events|
        invariant forall j :: 0 <= j < |recs| && recs[j].loaded ==> recs[j].iface == iface
        invariant Fire(recs[..i], iface.engine, rt, a) == (verdicts, iface.State())
        invariant result == AllNonzero(verdicts)
      {
        var ev := events[i];
        assert ev.Record() == recs[i];
        if ev.kind == ArgsKind(a) && ev.loaded {
          var verdict := ev.Execute(a);
          AllNonzeroAppend(verdicts, verdict);
          verdicts := verdicts + [verdict];
          if verdict == 0 && result {
            result := false;
          }
        }
        FireStep(recs, i, iface.engine, rt, a);
      }
      assert recs[..|events|] == recs;
    }

    method PlayerLogin(cid: Handle) returns (result: bool)
      requires Valid()
      modifies iface
      ensures Records() == old(Records())
      ensures var f := Fire(old(Records()), iface.engine, old(iface.State()), LoginArgs(cid));
        result == AllNonzero(f.0) && iface.State() == f.1
    {
      result := Broadcast(LoginArgs(cid));
    }

    method PlayerLogout(cid: Handle, forceLogout: bool) returns (result: bool)
      requires Valid()
      modifies iface
      ensures Records() == old(Records())
      ensures var f := Fire(old(Records()), iface.engine, old(iface.State()), LogoutArgs(cid, forceLogout));
        result == AllNonzero(f.0) && iface.State() == f.1
    {
      result := Broadcast(LogoutArgs(cid, forceLogout));
    }
  }
}
