/**
 * The argument tuple of each creature event kind, in the two shapes the
 * execute operations hand it to a script: the positional arguments of a call
 * to the compiled callback, and the named locals of a buffer prologue.
 * Handles are taken as already resolved by the caller.
 */
module CreatureEventArgs {
  import opened Wrappers
  import opened CreatureEventKinds
  import opened ScriptRuntime

  /** One entry of a death list: a killing creature, or only the killer's name. */
  datatype DeathEntry = CreatureKill(killer: Handle) | NamedKill(killerName: string)

  /** The arguments of one execute operation, one constructor per kind. */
  datatype EventArgs =
    | LoginArgs(cid: Handle)
    | LogoutArgs(cid: Handle, forceLogout: bool)
    | ChannelJoinArgs(cid: Handle, channelId: int, users: seq<Handle>)
    | ChannelLeaveArgs(cid: Handle, channelId: int, users: seq<Handle>)
    | AdvanceArgs(cid: Handle, skill: int, oldLevel: int, newLevel: int)
    | MailSendArgs(cid: Handle, receiver: Handle, item: Handle, openBox: bool)
    | MailReceiveArgs(cid: Handle, sender: Handle, item: Handle, openBox: bool)
    | TradeRequestArgs(cid: Handle, target: Handle, item: Handle)
    | TradeAcceptArgs(cid: Handle, target: Handle, item: Handle, targetItem: Handle)
    | TextEditArgs(cid: Handle, item: Handle, newText: string)
    | ReportBugArgs(cid: Handle, comment: string)
    | LookArgs(cid: Handle, thing: Handle, position: Position, stackpos: int, lookDistance: int)
    | ThinkArgs(cid: Handle, interval: int)
    | DirectionArgs(cid: Handle, oldDirection: int, newDirection: int)
    | OutfitArgs(cid: Handle, oldOutfit: OutfitLook, newOutfit: OutfitLook)
    | StatsChangeArgs(cid: Handle, attacker: Handle, changeType: int, combat: int, value: int)
    | CombatAreaArgs(cid: Handle, ground: Handle, position: Position, aggressive: bool)
    | PushArgs(cid: Handle, target: Handle)
    | TargetArgs(cid: Handle, target: Handle)
    | FollowArgs(cid: Handle, target: Handle)
    | CombatArgs(cid: Handle, target: Handle)
    | AttackArgs(cid: Handle, target: Handle)
    | CastArgs(cid: Handle, castTarget: Option<Handle>)
    | KillArgs(cid: Handle, target: Handle, damage: int, isLast: bool, isJustify: bool, isUnjustified: bool)
    | DeathArgs(cid: Handle, corpse: Handle, deathList: seq<DeathEntry>)
    | PrepareDeathArgs(cid: Handle, deathList: seq<DeathEntry>)
    | MoveArgs(cid: Handle, fromPosition: Position, toPosition: Position)
    | MoveItemArgs(cid: Handle, item: Handle, count: int, fromPosition: Position, toPosition: Position,
                   toContainer: Handle, fromContainer: Handle, fromStackpos: int)

  /** The kind whose execute operation takes these arguments. */
  function ArgsKind(a: EventArgs): (k: Kind)
    ensures k != NoKind
  {
    match a
    case LoginArgs(_) => Login
    case LogoutArgs(_, _) => Logout
    case ChannelJoinArgs(_, _, _) => ChannelJoin
    case ChannelLeaveArgs(_, _, _) => ChannelLeave
    case AdvanceArgs(_, _, _, _) => Advance
    case MailSendArgs(_, _, _, _) => MailSend
    case MailReceiveArgs(_, _, _, _) => MailReceive
    case TradeRequestArgs(_, _, _) => TradeRequest
    case TradeAcceptArgs(_, _, _, _) => TradeAccept
    case TextEditArgs(_, _, _) => TextEdit
    case ReportBugArgs(_, _) => ReportBug
    case LookArgs(_, _, _, _, _) => Look
    case ThinkArgs(_, _) => Think
    case DirectionArgs(_, _, _) => Direction
    case OutfitArgs(_, _, _) => Outfit
    case StatsChangeArgs(_, _, _, _, _) => StatsChange
    case CombatAreaArgs(_, _, _, _) => CombatArea
    case PushArgs(_, _) => Push
    case TargetArgs(_, _) => Target
    case FollowArgs(_, _) => Follow
    case CombatArgs(_, _) => Combat
    case AttackArgs(_, _) => Attack
    case CastArgs(_, _) => Cast
    case KillArgs(_, _, _, _, _, _) => Kill
    case DeathArgs(_, _, _) => Death
    case PrepareDeathArgs(_, _) => PrepareDeath
    case MoveArgs(_, _, _) => Move
    case MoveItemArgs(_, _, _, _, _, _, _, _) => MoveItem
  }

  /**
   * The flags argument of onKill: bit 1 when the kill was the last hit,
   * bit 2 when it was justified, bit 4 when it was unjustified, or-ed in
   * that order into an initially empty 32-bit word.
   */
  function KillFlags(isLast: bool, isJustify: bool, isUnjustified: bool): (flags: bv32)
    ensures flags as int == (if isLast then 1 else 0) + (if isJustify then 2 else 0) + (if isUnjustified then 4 else 0)
    ensures flags as int < 8
    ensures (flags & 1 != 0) == isLast && (flags & 2 != 0) == isJustify && (flags & 4 != 0) == isUnjustified
  {
    var f0: bv32 := 0;
    var f1 := if isLast then f0 | 1 else f0;
    var f2 := if isJustify then f1 | 2 else f1;
    if isUnjustified then f2 | 4 else f2
  }

  /** The table a list becomes: entry i (from 0) is stored under key i + 1. */
  function IndexedTable(values: seq<ScriptValue>): seq<TableEntry>
  {
    seq(|values|, i requires 0 <= i < |values| => TableEntry(i + 1, values[i]))
  }

  /**
   * The marshalling loop shared by the user lists and the death lists: a new
   * table, then one settable per element with the counter running from 1.
   */
  method BuildTable(values: seq<ScriptValue>) returns (entries: seq<TableEntry>)
    ensures |entries| == |values|
    ensures forall i :: 0 <= i < |values| ==> entries[i].key == i + 1 && entries[i].value == values[i]
    ensures entries == IndexedTable(values)
  {
    entries := [];
    var key := 1;
    while key <= |values|
      invariant 1 <= key <= |values| + 1
      invariant |entries| == key - 1
      invariant forall i :: 0 <= i < key - 1 ==> entries[i] == TableEntry(i + 1, values[i])
    {
      entries := entries + [TableEntry(key, values[key - 1])];
      key := key + 1;
    }
  }

  /** A script reading t[key] from a sequential table gets the element at key - 1, and nil outside 1..n. */
  lemma {:induction false} IndexedTableLookup(values: seq<ScriptValue>, key: int)
    ensures 1 <= key <= |values| ==> Lookup(IndexedTable(values), key) == Some(values[key - 1])
    ensures (key < 1 || key > |values|) ==> Lookup(IndexedTable(values), key) == None
    decreases |values|
  {
    var t := IndexedTable(values);
    if values != [] {
      var n := |values|;
      assert t[..n - 1] == IndexedTable(values[..n - 1]);
      IndexedTableLookup(values[..n - 1], key);
      if 1 <= key < n {
        assert values[..n - 1][key - 1] == values[key - 1];
      }
    }
  }

  function UserValues(users: seq<Handle>): (r: seq<ScriptValue>)
  {
    seq(|users|, i requires 0 <= i < |users| => Number(users[i]))
  }

  /** A death entry as the script sees it: the killer's handle, or the killer's name. */
  function DeathValue(d: DeathEntry): ScriptValue
  {
    match d
    case CreatureKill(h) => Number(h)
    case NamedKill(name) => Text(name)
  }

  function DeathValues(deathList: seq<DeathEntry>): (r: seq<ScriptValue>)
  {
    seq(|deathList|, i requires 0 <= i < |deathList| => DeathValue(deathList[i]))
  }

  /** A creature handle that may belong to no creature, as the compiled branch of executeCast pushes it. */
  function CreatureValue(h: Option<Handle>): ScriptValue
  {
    match h
    case Some(x) => Number(x)
    case None => NullThing
  }

  /**
   * The arguments the compiled branch pushes after the function, in order;
   * their number is the count passed to callFunction.
   */
  function CompiledArgs(a: EventArgs): (r: seq<ScriptValue>)
    ensures r != [] && r[0] == Number(a.cid)
  {
    match a
    case LoginArgs(cid) => [Number(cid)]
    case LogoutArgs(cid, forceLogout) => [Number(cid), Boolean(forceLogout)]
    case ChannelJoinArgs(cid, channelId, users) => [Number(cid), Number(channelId), Table(IndexedTable(UserValues(users)))]
    case ChannelLeaveArgs(cid, channelId, users) => [Number(cid), Number(channelId), Table(IndexedTable(UserValues(users)))]
    case AdvanceArgs(cid, skill, oldLevel, newLevel) => [Number(cid), Number(skill), Number(oldLevel), Number(newLevel)]
    case MailSendArgs(cid, receiver, item, openBox) => [Number(cid), Number(receiver), ThingTable(item), Boolean(openBox)]
    case MailReceiveArgs(cid, sender, item, openBox) => [Number(cid), Number(sender), ThingTable(item), Boolean(openBox)]
    case TradeRequestArgs(cid, target, item) => [Number(cid), Number(target), ThingTable(item)]
    case TradeAcceptArgs(cid, target, item, targetItem) => [Number(cid), Number(target), ThingTable(item), ThingTable(targetItem)]
    case TextEditArgs(cid, item, newText) => [Number(cid), ThingTable(item), Text(newText)]
    case ReportBugArgs(cid, comment) => [Number(cid), Text(comment)]
    case LookArgs(cid, thing, position, stackpos, lookDistance) => [Number(cid), ThingTable(thing), PositionTable(position, stackpos), Number(lookDistance)]
    case ThinkArgs(cid, interval) => [Number(cid), Number(interval)]
    case DirectionArgs(cid, oldDirection, newDirection) => [Number(cid), Number(oldDirection), Number(newDirection)]
    case OutfitArgs(cid, oldOutfit, newOutfit) => [Number(cid), OutfitTable(oldOutfit), OutfitTable(newOutfit)]
    case StatsChangeArgs(cid, attacker, changeType, combat, value) => [Number(cid), Number(attacker), Number(changeType), Number(combat), Number(value)]
    case CombatAreaArgs(cid, ground, position, aggressive) => [Number(cid), ThingTable(ground), PositionTable(position, 0), Boolean(aggressive)]
    case PushArgs(cid, target) => [Number(cid), Number(target)]
    case TargetArgs(cid, target) => [Number(cid), Number(target)]
    case FollowArgs(cid, target) => [Number(cid), Number(target)]
    case CombatArgs(cid, target) => [Number(cid), Number(target)]
    case AttackArgs(cid, target) => [Number(cid), Number(target)]
    case CastArgs(cid, castTarget) => [Number(cid), CreatureValue(castTarget)]
    case KillArgs(cid, target, damage, isLast, isJustify, isUnjustified) =>
      [Number(cid), Number(target), Number(damage), Number(KillFlags(isLast, isJustify, isUnjustified) as int)]
    case DeathArgs(cid, corpse, deathList) => [Number(cid), ThingTable(corpse), Table(IndexedTable(DeathValues(deathList)))]
    case PrepareDeathArgs(cid, deathList) => [Number(cid), Table(IndexedTable(DeathValues(deathList)))]
    case MoveArgs(cid, fromPosition, toPosition) => [Number(cid), PositionTable(fromPosition, 0), PositionTable(toPosition, 0)]
    case MoveItemArgs(cid, item, count, fromPosition, toPosition, toContainer, fromContainer, fromStackpos) =>
      [Number(cid), ThingTable(item), Number(count), ThingTable(toContainer), ThingTable(fromContainer),
       PositionTable(fromPosition, fromStackpos), PositionTable(toPosition, 0)]
  }

  function Names(bindings: seq<Binding>): seq<string>
  {
    seq(|bindings|, i requires 0 <= i < |bindings| => bindings[i].name)
  }

  function Values(bindings: seq<Binding>): seq<ScriptValue>
  {
    seq(|bindings|, i requires 0 <= i < |bindings| => bindings[i].value)
  }

  /**
   * The three kinds whose buffer prologue does not bind what the compiled
   * branch pushes: trade-accept leaves out the second item, look binds the
   * thing as a bare handle, and cast without a target binds nil.
   */
  predicate BuffersDiverge(a: EventArgs)
  {
    a.TradeAcceptArgs? || a.LookArgs? || (a.CastArgs? && a.castTarget.None?)
  }

  /** The locals a buffer prologue declares, in order, before the descriptor's own script text. */
  function BufferBindings(a: EventArgs): (r: seq<Binding>)
  {
    match a
    case LoginArgs(cid) => [Binding("cid", Number(cid))]
    case LogoutArgs(cid, forceLogout) => [Binding("cid", Number(cid)), Binding("forceLogout", Boolean(forceLogout))]
    case ChannelJoinArgs(cid, channelId, users) =>
      [Binding("cid", Number(cid)), Binding("channel", Number(channelId)), Binding("users", Table(IndexedTable(UserValues(users))))]
    case ChannelLeaveArgs(cid, channelId, users) =>
      [Binding("cid", Number(cid)), Binding("channel", Number(channelId)), Binding("users", Table(IndexedTable(UserValues(users))))]
    case AdvanceArgs(cid, skill, oldLevel, newLevel) =>
      [Binding("cid", Number(cid)), Binding("skill", Number(skill)), Binding("oldLevel", Number(oldLevel)), Binding("newLevel", Number(newLevel))]
    case MailSendArgs(cid, receiver, item, openBox) =>
      [Binding("cid", Number(cid)), Binding("receiver", Number(receiver)), Binding("item", ThingTable(item)), Binding("openBox", Boolean(openBox))]
    case MailReceiveArgs(cid, sender, item, openBox) =>
      [Binding("cid", Number(cid)), Binding("sender", Number(sender)), Binding("item", ThingTable(item)), Binding("openBox", Boolean(openBox))]
    case TradeRequestArgs(cid, target, item) =>
      [Binding("cid", Number(cid)), Binding("target", Number(target)), Binding("item", ThingTable(item))]
    case TradeAcceptArgs(cid, target, item, _) =>
      [Binding("cid", Number(cid)), Binding("target", Number(target)), Binding("item", ThingTable(item))]
    case TextEditArgs(cid, item, newText) =>
      [Binding("cid", Number(cid)), Binding("item", ThingTable(item)), Binding("newText", Text(newText))]
    case ReportBugArgs(cid, comment) => [Binding("cid", Number(cid)), Binding("comment", Text(comment))]
    case LookArgs(cid, thing, position, stackpos, lookDistance) =>
      [Binding("cid", Number(cid)), Binding("thing", Number(thing)), Binding("position", PositionTable(position, stackpos)),
       Binding("lookDistance", Number(lookDistance))]
    case ThinkArgs(cid, interval) => [Binding("cid", Number(cid)), Binding("interval", Number(interval))]
    case DirectionArgs(cid, oldDirection, newDirection) =>
      [Binding("cid", Number(cid)), Binding("old", Number(oldDirection)), Binding("current", Number(newDirection))]
    case OutfitArgs(cid, oldOutfit, newOutfit) =>
      [Binding("cid", Number(cid)), Binding("old", OutfitTable(oldOutfit)), Binding("current", OutfitTable(newOutfit))]
    case StatsChangeArgs(cid, attacker, changeType, combat, value) =>
      [Binding("cid", Number(cid)), Binding("attacker", Number(attacker)), Binding("type", Number(changeType)),
       Binding("combat", Number(combat)), Binding("value", Number(value))]
    case CombatAreaArgs(cid, ground, position, aggressive) =>
      [Binding("cid", Number(cid)), Binding("ground", ThingTable(ground)), Binding("position", PositionTable(position, 0)),
       Binding("aggressive", Boolean(aggressive))]
    case PushArgs(cid, target) => [Binding("cid", Number(cid)), Binding("target", Number(target))]
    case TargetArgs(cid, target) => [Binding("cid", Number(cid)), Binding("target", Number(target))]
    case FollowArgs(cid, target) => [Binding("cid", Number(cid)), Binding("target", Number(target))]
    case CombatArgs(cid, target) => [Binding("cid", Number(cid)), Binding("target", Number(target))]
    case AttackArgs(cid, target) => [Binding("cid", Number(cid)), Binding("target", Number(target))]
    case CastArgs(cid, castTarget) =>
      [Binding("cid", Number(cid)), Binding("target", if castTarget.Some? then Number(castTarget.value) else Nil)]
    case KillArgs(cid, target, damage, isLast, isJustify, isUnjustified) =>
      [Binding("cid", Number(cid)), Binding("target", Number(target)), Binding("damage", Number(damage)),
       Binding("flags", Number(KillFlags(isLast, isJustify, isUnjustified) as int))]
    case DeathArgs(cid, corpse, deathList) =>
      [Binding("cid", Number(cid)), Binding("corpse", ThingTable(corpse)), Binding("deathList", Table(IndexedTable(DeathValues(deathList))))]
    case PrepareDeathArgs(cid, deathList) =>
      [Binding("cid", Number(cid)), Binding("deathList", Table(IndexedTable(DeathValues(deathList))))]
    case MoveArgs(cid, fromPosition, toPosition) =>
      [Binding("cid", Number(cid)), Binding("fromPosition", PositionTable(fromPosition, 0)), Binding("toPosition", PositionTable(toPosition, 0))]
    case MoveItemArgs(cid, item, count, fromPosition, toPosition, toContainer, fromContainer, fromStackpos) =>
      [Binding("cid", Number(cid)), Binding("item", ThingTable(item)), Binding("count", Number(count)),
       Binding("toContainer", ThingTable(toContainer)), Binding("fromContainer", ThingTable(fromContainer)),
       Binding("fromPos", PositionTable(fromPosition, fromStackpos)), Binding("toPos", PositionTable(toPosition, 0))]
  }

  // The agreement below, two kinds at a time.

  lemma AgreesPart1(a: EventArgs)
    requires a.LoginArgs? || a.LogoutArgs?
    ensures Names(BufferBindings(a)) == ParamNames(ArgsKind(a))
    ensures !BuffersDiverge(a) ==> Values(BufferBindings(a)) == CompiledArgs(a)
  {
  }

  lemma AgreesPart2(a: EventArgs)
    requires a.ChannelJoinArgs? || a.ChannelLeaveArgs?
    ensures Names(BufferBindings(a)) == ParamNames(ArgsKind(a))
    ensures !BuffersDiverge(a) ==> Values(BufferBindings(a)) == CompiledArgs(a)
  {
  }

  lemma AgreesPart3(a: EventArgs)
    requires a.AdvanceArgs? || a.MailSendArgs?
    ensures Names(BufferBindings(a)) == ParamNames(ArgsKind(a))
    ensures !BuffersDiverge(a) ==> Values(BufferBindings(a)) == CompiledArgs(a)
  {
  }

  lemma AgreesPart4(a: EventArgs)
    requires a.MailReceiveArgs? || a.TradeRequestArgs?
    ensures Names(BufferBindings(a)) == ParamNames(ArgsKind(a))
    ensures !BuffersDiverge(a) ==> Values(BufferBindings(a)) == CompiledArgs(a)
  {
  }

  lemma AgreesPart5(a: EventArgs)
    requires a.TradeAcceptArgs? || a.LookArgs?
    ensures Names(BufferBindings(a)) == ParamNames(ArgsKind(a))
    ensures !BuffersDiverge(a) ==> Values(BufferBindings(a)) == CompiledArgs(a)
  {
  }

  lemma AgreesPart6(a: EventArgs)
    requires a.DirectionArgs? || a.OutfitArgs?
    ensures Names(BufferBindings(a)) == ParamNames(ArgsKind(a))
    ensures !BuffersDiverge(a) ==> Values(BufferBindings(a)) == CompiledArgs(a)
  {
  }

  lemma AgreesPart7(a: EventArgs)
    requires a.ThinkArgs? || a.StatsChangeArgs?
    ensures Names(BufferBindings(a)) == ParamNames(ArgsKind(a))
    ensures !BuffersDiverge(a) ==> Values(BufferBindings(a)) == CompiledArgs(a)
  {
  }

  lemma AgreesPart8(a: EventArgs)
    requires a.CombatAreaArgs? || a.CombatArgs?
    ensures Names(BufferBindings(a)) == ParamNames(ArgsKind(a))
    ensures !BuffersDiverge(a) ==> Values(BufferBindings(a)) == CompiledArgs(a)
  {
  }

  lemma AgreesPart9(a: EventArgs)
    requires a.AttackArgs? || a.CastArgs?
    ensures Names(BufferBindings(a)) == ParamNames(ArgsKind(a))
    ensures !BuffersDiverge(a) ==> Values(BufferBindings(a)) == CompiledArgs(a)
  {
  }

  lemma AgreesPart10(a: EventArgs)
    requires a.KillArgs? || a.DeathArgs?
    ensures Names(BufferBindings(a)) == ParamNames(ArgsKind(a))
    ensures !BuffersDiverge(a) ==> Values(BufferBindings(a)) == CompiledArgs(a)
  {
  }

  lemma AgreesPart11(a: EventArgs)
    requires a.PrepareDeathArgs? || a.MoveArgs?
    ensures Names(BufferBindings(a)) == ParamNames(ArgsKind(a))
    ensures !BuffersDiverge(a) ==> Values(BufferBindings(a)) == CompiledArgs(a)
  {
  }

  lemma AgreesPart12(a: EventArgs)
    requires a.MoveItemArgs? || a.TextEditArgs?
    ensures Names(BufferBindings(a)) == ParamNames(ArgsKind(a))
    ensures !BuffersDiverge(a) ==> Values(BufferBindings(a)) == CompiledArgs(a)
  {
  }

  lemma AgreesPart13(a: EventArgs)
    requires a.ReportBugArgs? || a.PushArgs?
    ensures Names(BufferBindings(a)) == ParamNames(ArgsKind(a))
    ensures !BuffersDiverge(a) ==> Values(BufferBindings(a)) == CompiledArgs(a)
  {
  }

  lemma AgreesPart14(a: EventArgs)
    requires a.TargetArgs? || a.FollowArgs?
    ensures Names(BufferBindings(a)) == ParamNames(ArgsKind(a))
    ensures !BuffersDiverge(a) ==> Values(BufferBindings(a)) == CompiledArgs(a)
  {
  }

  /**
   * The two branches of an execute operation hand the script the same
   * arguments under the names getScriptEventParams lists, except where
   * BuffersDiverge.
   */
  lemma BufferAgreesWithCompiled(a: EventArgs)
    ensures Names(BufferBindings(a)) == ParamNames(ArgsKind(a))
    ensures !BuffersDiverge(a) ==> Values(BufferBindings(a)) == CompiledArgs(a)
  {
    match a
    case LoginArgs(_) => AgreesPart1(a);
    case LogoutArgs(_, _) => AgreesPart1(a);
    case ChannelJoinArgs(_, _, _) => AgreesPart2(a);
    case ChannelLeaveArgs(_, _, _) => AgreesPart2(a);
    case AdvanceArgs(_, _, _, _) => AgreesPart3(a);
    case MailSendArgs(_, _, _, _) => AgreesPart3(a);
    case MailReceiveArgs(_, _, _, _) => AgreesPart4(a);
    case TradeRequestArgs(_, _, _) => AgreesPart4(a);
    case TradeAcceptArgs(_, _, _, _) => AgreesPart5(a);
    case LookArgs(_, _, _, _, _) => AgreesPart5(a);
    case DirectionArgs(_, _, _) => AgreesPart6(a);
    case OutfitArgs(_, _, _) => AgreesPart6(a);
    case ThinkArgs(_, _) => AgreesPart7(a);
    case StatsChangeArgs(_, _, _, _, _) => AgreesPart7(a);
    case CombatAreaArgs(_, _, _, _) => AgreesPart8(a);
    case CombatArgs(_, _) => AgreesPart8(a);
    case AttackArgs(_, _) => AgreesPart9(a);
    case CastArgs(_, _) => AgreesPart9(a);
    case KillArgs(_, _, _, _, _, _) => AgreesPart10(a);
    case DeathArgs(_, _, _) => AgreesPart10(a);
    case PrepareDeathArgs(_, _) => AgreesPart11(a);
    case MoveArgs(_, _, _) => AgreesPart11(a);
    case MoveItemArgs(_, _, _, _, _, _, _, _) => AgreesPart12(a);
    case TextEditArgs(_, _, _) => AgreesPart12(a);
    case ReportBugArgs(_, _) => AgreesPart13(a);
    case PushArgs(_, _) => AgreesPart13(a);
    case TargetArgs(_, _) => AgreesPart14(a);
    case FollowArgs(_, _) => AgreesPart14(a);
  }

  /**
   * The count passed to callFunction is the number of parameters
   * getScriptEventParams lists, except for trade-accept, which pushes the
   * second item as a fourth argument of a three-parameter callback.
   */
  lemma CompiledArity(a: EventArgs)
    ensures |CompiledArgs(a)| == |ParamNames(ArgsKind(a))| + (if a.TradeAcceptArgs? then 1 else 0)
  {
    BufferAgreesWithCompiled(a);
    if BuffersDiverge(a) {
      BufferDivergence(a);
    }
  }

  /** Where the two branches part: the values the buffer binds against the values the compiled branch pushes. */
  lemma BufferDivergence(a: EventArgs)
    requires BuffersDiverge(a)
    ensures a.TradeAcceptArgs? ==> |CompiledArgs(a)| == 4 && Values(BufferBindings(a)) == CompiledArgs(a)[..3]
    ensures a.LookArgs? ==> CompiledArgs(a)[1] == ThingTable(a.thing) && Values(BufferBindings(a)) == CompiledArgs(a)[1 := Number(a.thing)]
    ensures a.CastArgs? ==> CompiledArgs(a)[1] == NullThing && Values(BufferBindings(a)) == CompiledArgs(a)[1 := Nil]
  {
  }

  /** The compiled branch's argument list, built as executeX builds it, with the table loop where the kind has one. */
  method MarshalCompiled(a: EventArgs) returns (values: seq<ScriptValue>)
    ensures values == CompiledArgs(a)
  {
    match a
    case ChannelJoinArgs(cid, channelId, users) =>
      var users' := BuildTable(UserValues(users));
      values := [Number(cid), Number(channelId), Table(users')];
    case ChannelLeaveArgs(cid, channelId, users) =>
      var users' := BuildTable(UserValues(users));
      values := [Number(cid), Number(channelId), Table(users')];
    case DeathArgs(cid, corpse, deathList) =>
      var deaths := BuildTable(DeathValues(deathList));
      values := [Number(cid), ThingTable(corpse), Table(deaths)];
    case PrepareDeathArgs(cid, deathList) =>
      var deaths := BuildTable(DeathValues(deathList));
      values := [Number(cid), Table(deaths)];
    case _ =>
      values := CompiledArgs(a);
  }

  /** The buffer prologue's bindings, with the list loops of the user and death lists. */
  method MarshalBuffer(a: EventArgs) returns (bindings: seq<Binding>)
    ensures bindings == BufferBindings(a)
  {
    match a
    case ChannelJoinArgs(cid, channelId, users) =>
      var users' := BuildTable(UserValues(users));
      bindings := [Binding("cid", Number(cid)), Binding("channel", Number(channelId)), Binding("users", Table(users'))];
    case ChannelLeaveArgs(cid, channelId, users) =>
      var users' := BuildTable(UserValues(users));
      bindings := [Binding("cid", Number(cid)), Binding("channel", Number(channelId)), Binding("users", Table(users'))];
    case DeathArgs(cid, corpse, deathList) =>
      var deaths := BuildTable(DeathValues(deathList));
      bindings := [Binding("cid", Number(cid)), Binding("corpse", ThingTable(corpse)), Binding("deathList", Table(deaths))];
    case PrepareDeathArgs(cid, deathList) =>
      var deaths := BuildTable(DeathValues(deathList));
      bindings := [Binding("cid", Number(cid)), Binding("deathList", Table(deaths))];
    case _ =>
      bindings := BufferBindings(a);
  }
}
