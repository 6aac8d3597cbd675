/**
 * The creature event kinds and the pure tables attached to them: the
 * case-insensitive descriptor tag that selects a kind, the name of the script
 * callback a kind calls, and the parameter list of that callback.
 */
module CreatureEventKinds {
  import opened Wrappers

  /** CreatureEventType_t; NoKind is CREATURE_EVENT_NONE, the type of a descriptor not yet configured. */
  datatype Kind =
    | NoKind
    | Login | Logout | ChannelJoin | ChannelLeave | Advance | MailSend | MailReceive
    | TradeRequest | TradeAccept | TextEdit | ReportBug | Look | Think | Direction
    | Outfit | StatsChange | CombatArea | Push | Target | Follow | Combat | Attack
    | Cast | Kill | Death | PrepareDeath | Move | MoveItem

  /** tolower in the C locale: only 'A'..'Z' change. */
  function LowerChar(c: char): char {
    if 'A' <= c <= 'Z' then (c as int + 32) as char else c
  }

  /** asLowerCaseString. */
  function Lower(s: string): (r: string)
    ensures |r| == |s|
    ensures forall i :: 0 <= i < |s| ==> r[i] == LowerChar(s[i])
  {
    if s == [] then [] else [LowerChar(s[0])] + Lower(s[1..])
  }

  lemma LowerIdempotent(s: string)
    ensures Lower(Lower(s)) == Lower(s)
  {
    var once := Lower(s);
    assert forall i :: 0 <= i < |s| ==> LowerChar(once[i]) == once[i];
  }

  /** The exact lower-case tag that selects kind k in a descriptor's type attribute ("" for NoKind). */
  function Tag(k: Kind): (r: string)
    ensures r == "" <==> k == NoKind
  {
    match k
    case NoKind => ""
    case Login => "login"
    case Logout => "logout"
    case ChannelJoin => "joinchannel"
    case ChannelLeave => "leavechannel"
    case Advance => "advance"
    case MailSend => "sendmail"
    case MailReceive => "receivemail"
    case TradeRequest => "traderequest"
    case TradeAccept => "tradeaccept"
    case TextEdit => "textedit"
    case ReportBug => "reportbug"
    case Look => "look"
    case Think => "think"
    case Direction => "direction"
    case Outfit => "outfit"
    case StatsChange => "statschange"
    case CombatArea => "areacombat"
    case Push => "push"
    case Target => "target"
    case Follow => "follow"
    case Combat => "combat"
    case Attack => "attack"
    case Cast => "cast"
    case Kill => "kill"
    case Death => "death"
    case PrepareDeath => "preparedeath"
    case Move => "move"
    case MoveItem => "moveitem"
  }

  /** The kinds in the order configureEvent compares their tags. */
  const TagOrder: seq<Kind> := [
    Login, Logout, ChannelJoin, ChannelLeave, Advance, MailSend, MailReceive, TradeRequest, TradeAccept, TextEdit, ReportBug, Look, Think, Direction, Outfit, StatsChange, CombatArea, Push, Target, Follow, Combat, Attack, Cast, Kill, Death, PrepareDeath, Move, MoveItem]

  /** The comparison chain of configureEvent: the first kind of ks, in order, whose tag is t. */
  function FirstWithTag(ks: seq<Kind>, t: string): (r: Option<Kind>)
    ensures r.Some? ==> r.value in ks && Tag(r.value) == t
  {
    if ks == [] then None
    else if t == Tag(ks[0]) then Some(ks[0])
    else FirstWithTag(ks[1..], t)
  }

  /**
   * The kind selected by a type attribute: the attribute is lower-cased and
   * compared with each of the 28 tags in turn; anything else selects nothing.
   */
  function ParseType(typeAttr: string): (r: Option<Kind>)
    ensures r.Some? ==> r.value != NoKind && Lower(typeAttr) == Tag(r.value)
  {
    TagOrderHasNoNoKind();
    FirstWithTag(TagOrder, Lower(typeAttr))
  }

  /** Every kind in the comparison order has a tag of its own. */
  lemma TagOrderHasNoNoKind()
    ensures NoKind !in TagOrder
  {
  }

  /** A reference decoding of tags: the length and first letter of a tag already single out its kind. */
  function KindOfTagKey(n: int, c: char): Kind
  {
    if n == 5 && c == 'l' then Login
    else if n == 6 && c == 'l' then Logout
    else if n == 11 && c == 'j' then ChannelJoin
    else if n == 12 && c == 'l' then ChannelLeave
    else if n == 7 && c == 'a' then Advance
    else if n == 8 && c == 's' then MailSend
    else if n == 11 && c == 'r' then MailReceive
    else if n == 12 && c == 't' then TradeRequest
    else if n == 11 && c == 't' then TradeAccept
    else if n == 8 && c == 't' then TextEdit
    else if n == 9 && c == 'r' then ReportBug
    else if n == 4 && c == 'l' then Look
    else if n == 5 && c == 't' then Think
    else if n == 9 && c == 'd' then Direction
    else if n == 6 && c == 'o' then Outfit
    else if n == 11 && c == 's' then StatsChange
    else if n == 10 && c == 'a' then CombatArea
    else if n == 4 && c == 'p' then Push
    else if n == 6 && c == 't' then Target
    else if n == 6 && c == 'f' then Follow
    else if n == 6 && c == 'c' then Combat
    else if n == 6 && c == 'a' then Attack
    else if n == 4 && c == 'c' then Cast
    else if n == 4 && c == 'k' then Kill
    else if n == 5 && c == 'd' then Death
    else if n == 12 && c == 'p' then PrepareDeath
    else if n == 4 && c == 'm' then Move
    else if n == 8 && c == 'm' then MoveItem
    else NoKind
  }

  lemma TagKeyIdentifiesKind(k: Kind)
    ensures k != NoKind ==> |Tag(k)| > 0 && KindOfTagKey(|Tag(k)|, Tag(k)[0]) == k
  {
  }

  /** Distinct kinds have distinct tags, so no tag of the chain shadows another. */
  lemma TagsDistinct(k1: Kind, k2: Kind)
    ensures Tag(k1) == Tag(k2) <==> k1 == k2
  {
    TagKeyIdentifiesKind(k1);
    TagKeyIdentifiesKind(k2);
  }

  /** A search finds a kind present in its list by the kind's own tag. */
  lemma {:induction false} FirstWithTagFinds(ks: seq<Kind>, k: Kind)
    requires k in ks
    ensures FirstWithTag(ks, Tag(k)) == Some(k)
    decreases |ks|
  {
    TagsDistinct(ks[0], k);
    if ks[0] != k {
      FirstWithTagFinds(ks[1..], k);
    }
  }

  /** Every kind but NoKind is selected by its own tag, written in any letter case. */
  lemma ParseTypeOfTag(k: Kind, typeAttr: string)
    requires k != NoKind && Lower(typeAttr) == Tag(k)
    ensures ParseType(typeAttr) == Some(k)
  {
    assert k in TagOrder;
    FirstWithTagFinds(TagOrder, k);
  }

  /** Parsing ignores letter case: a type attribute and its lower-case form select the same kind. */
  lemma ParseTypeIgnoresCase(typeAttr: string)
    ensures ParseType(typeAttr) == ParseType(Lower(typeAttr))
  {
    LowerIdempotent(typeAttr);
  }

  /** getScriptEventName: the script callback a kind calls, "" for NoKind. */
  function ScriptEventName(k: Kind): (r: string)
    ensures r == "" <==> k == NoKind
    ensures k != NoKind ==> |r| > 2 && r[..2] == "on"
  {
    match k
    case NoKind => ""
    case Login => "onLogin"
    case Logout => "onLogout"
    case ChannelJoin => "onJoinChannel"
    case ChannelLeave => "onLeaveChannel"
    case Think => "onThink"
    case Advance => "onAdvance"
    case Look => "onLook"
    case Direction => "onDirection"
    case Outfit => "onOutfit"
    case MailSend => "onSendMail"
    case MailReceive => "onReceiveMail"
    case TradeRequest => "onTradeRequest"
    case TradeAccept => "onTradeAccept"
    case TextEdit => "onTextEdit"
    case ReportBug => "onReportBug"
    case StatsChange => "onStatsChange"
    case CombatArea => "onAreaCombat"
    case Push => "onPush"
    case Target => "onTarget"
    case Follow => "onFollow"
    case Combat => "onCombat"
    case Attack => "onAttack"
    case Cast => "onCast"
    case Kill => "onKill"
    case Death => "onDeath"
    case PrepareDeath => "onPrepareDeath"
    case Move => "onMove"
    case MoveItem => "onMoveItem"
  }

  /** A reference decoding of callback names: the length and the letter after "on" single out the kind. */
  function KindOfEventNameKey(n: int, c: char): Kind
  {
    if n == 7 && c == 'L' then Login
    else if n == 8 && c == 'L' then Logout
    else if n == 13 && c == 'J' then ChannelJoin
    else if n == 14 && c == 'L' then ChannelLeave
    else if n == 7 && c == 'T' then Think
    else if n == 9 && c == 'A' then Advance
    else if n == 6 && c == 'L' then Look
    else if n == 11 && c == 'D' then Direction
    else if n == 8 && c == 'O' then Outfit
    else if n == 10 && c == 'S' then MailSend
    else if n == 13 && c == 'R' then MailReceive
    else if n == 14 && c == 'T' then TradeRequest
    else if n == 13 && c == 'T' then TradeAccept
    else if n == 10 && c == 'T' then TextEdit
    else if n == 11 && c == 'R' then ReportBug
    else if n == 13 && c == 'S' then StatsChange
    else if n == 12 && c == 'A' then CombatArea
    else if n == 6 && c == 'P' then Push
    else if n == 8 && c == 'T' then Target
    else if n == 8 && c == 'F' then Follow
    else if n == 8 && c == 'C' then Combat
    else if n == 8 && c == 'A' then Attack
    else if n == 6 && c == 'C' then Cast
    else if n == 6 && c == 'K' then Kill
    else if n == 7 && c == 'D' then Death
    else if n == 14 && c == 'P' then PrepareDeath
    else if n == 6 && c == 'M' then Move
    else if n == 10 && c == 'M' then MoveItem
    else NoKind
  }

  lemma EventNameKeyIdentifiesKind(k: Kind)
    ensures k != NoKind ==> |ScriptEventName(k)| > 2 && KindOfEventNameKey(|ScriptEventName(k)|, ScriptEventName(k)[2]) == k
  {
  }

  /** Distinct kinds call distinct script callbacks. */
  lemma ScriptEventNamesDistinct(k1: Kind, k2: Kind)
    ensures ScriptEventName(k1) == ScriptEventName(k2) <==> k1 == k2
  {
    EventNameKeyIdentifiesKind(k1);
    EventNameKeyIdentifiesKind(k2);
  }

  /**
   * getScriptEventParams: the parameter list of a kind's callback, "" for
   * NoKind; it is the kind's parameter names separated by ", ".
   */
  function ScriptEventParams(k: Kind): (r: string)
    ensures r == "" <==> k == NoKind
    ensures k != NoKind ==> |r| >= 3 && r[..3] == "cid"
  {
    JoinStartsWithFirst(ParamNames(k));
    Join(ParamNames(k))
  }

  /** The parameter names of a kind's callback, one by one; every callback takes the acting creature first. */
  function ParamNames(k: Kind): (r: seq<string>)
    ensures r == [] <==> k == NoKind
    ensures k != NoKind ==> r[0] == "cid"
  {
    match k
    case NoKind => []
    case Login => ["cid"]
    case Logout => ["cid", "forceLogout"]
    case ChannelJoin | ChannelLeave => ["cid", "channel", "users"]
    case Advance => ["cid", "skill", "oldLevel", "newLevel"]
    case Look => ["cid", "thing", "position", "lookDistance"]
    case MailSend => ["cid", "receiver", "item", "openBox"]
    case MailReceive => ["cid", "sender", "item", "openBox"]
    case TradeRequest | TradeAccept => ["cid", "target", "item"]
    case TextEdit => ["cid", "item", "newText"]
    case ReportBug => ["cid", "comment"]
    case Think => ["cid", "interval"]
    case Direction | Outfit => ["cid", "old", "current"]
    case StatsChange => ["cid", "attacker", "type", "combat", "value"]
    case CombatArea => ["cid", "ground", "position", "aggressive"]
    case Push | Target | Follow | Combat | Attack | Cast => ["cid", "target"]
    case Kill => ["cid", "target", "damage", "flags"]
    case Death => ["cid", "corpse", "deathList"]
    case PrepareDeath => ["cid", "deathList"]
    case Move => ["cid", "fromPosition", "toPosition"]
    case MoveItem => ["cid", "item", "count", "toContainer", "fromContainer", "fromPos", "toPos"]
  }

  /** Names separated by ", ". */
  function Join(names: seq<string>): string {
    if |names| == 0 then ""
    else if |names| == 1 then names[0]
    else names[0] + ", " + Join(names[1..])
  }

  lemma JoinStartsWithFirst(names: seq<string>)
    ensures names == [] ==> Join(names) == ""
    ensures names != [] ==> |Join(names)| >= |names[0]| && Join(names)[..|names[0]|] == names[0]
  {
  }
}
