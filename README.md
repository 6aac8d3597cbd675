# Creature events of an OpenTibia server, modelled in Dafny

Creature events are the server's hooks into Lua scripts. A creature event descriptor has:

- a name;
- a kind (login, logout, channel join, kill, death, move, and so on);
- a script, held either as inline text (a "buffer") or as a compiled callback.

The registry `CreatureEvents` keeps the descriptors in registration order. It builds new descriptors for accepted XML node names and registers configured descriptors. A same-named entry of the same kind is reused rather than duplicated. The registry clears every descriptor before a reload and broadcasts login and logout to every loaded handler.

Every `executeX` operation of a descriptor follows the same skeleton:

1. Reserve a script environment, or answer 0 when none is free.
2. Either load the inline buffer behind a prologue of `local` bindings and read the global `_result`, or push the compiled function with its positional arguments and call it.
3. Release the environment and answer the script's boolean as 1 or 0.

The project has six modules:

- `Wrappers`: the `Option` type.
- `CreatureEventKinds`: the 28 kinds, the case-insensitive parsing of the `type` attribute, the callback names and the parameter lists.
- `ScriptRuntime`: the part of the Lua interface a creature event uses. It covers the environment counter, buffer loading, function calls, the global booleans and the reset of the script state. Buffers and compiled callbacks run in one shared script state: each sees the globals earlier scripts left and hands back the globals it leaves. What a script does is an oracle inside an `Engine` value. Every runtime operation is appended to a trace.
- `CreatureEventArgs`: the argument tuple of each kind, in both shapes a script receives it: compiled arguments and buffer bindings. It also holds the 1-based list tables and the kill flags.
- `CreatureEventDescriptor`: one descriptor. The class `CreatureEvent` performs configure, copy, clear and the shared execute skeleton, each proved against a function on an `EventRecord` value.
- `CreatureEventRegistry`: the registry. The class `CreatureEvents` performs getEvent, registerEvent, getEventByName, clear, playerLogin and playerLogout, each proved against a function on the list of records. Lemmas about those functions state what registration, lookup, clearing and broadcasting guarantee.

Where the code departs from what one would expect of a creature event registry, the model follows the code:

- **Kinds.** The code accepts 28 type tags, in the order of lines 139-194, not a shorter list of 26.
- **Uniqueness.** One might expect at most one loaded descriptor per (name, kind). The code does not guarantee this. `registerEvent` looks only at the first entry with the name. If that entry has a different kind, a second loaded entry of an existing (name, kind) pair is appended. `DuplicateActiveEntries` exhibits this.
- **registerEvent's answer.** On a merge, `registerEvent` answers `override`, so a reused entry answers `true` when `override` is set. Without `override` it answers `false` even when the unloaded entry was filled in.
- **copyEvent.** It does not copy the inline script text. A merged buffer descriptor therefore runs the old entry's text under the new mode (`CopiedExecutesAsSource`).
- **Buffer versus compiled arguments.** Among the recorded buffer bindings (see "## Left out" for what the prologue text does beyond them), the two branches hand different values in three places, stated in `BufferDivergence`:
  - trade-accept binds three locals but calls the compiled callback with four arguments;
  - look binds the thing as a number but pushes a thing table;
  - a cast with no target binds `nil` but pushes the number for a null thing.

## Model

| member | source | states |
|---|---|---|
| CreatureEventKinds.Lower | src/creatureevent.cpp:138 | lower-casing keeps the length and maps each character through ASCII `tolower` |
| CreatureEventKinds.LowerIdempotent | src/creatureevent.cpp:138 | lower-casing an already lower-cased string changes nothing |
| CreatureEventKinds.Tag | src/creatureevent.cpp:139-194 | the lower-case tag each kind is selected by (with `TagOrder`, the 28 kinds in the order they are compared); empty exactly for NONE |
| CreatureEventKinds.FirstWithTag | src/creatureevent.cpp:139-196 | the if/else-if chain: a kind it returns is one of the candidates, and its tag equals the string compared |
| CreatureEventKinds.ParseType | src/creatureevent.cpp:138-196 | a type attribute is accepted only as a real kind (never NONE) whose tag is the lower-cased attribute |
| CreatureEventKinds.TagsDistinct | src/creatureevent.cpp:139-195 | no two kinds share a tag (both directions), so the order of the comparisons cannot matter |
| CreatureEventKinds.FirstWithTagFinds | src/creatureevent.cpp:139-196 | the chain selects a kind whenever it is given that kind's tag |
| CreatureEventKinds.ParseTypeOfTag | src/creatureevent.cpp:137-197 | every one of the 28 kinds is reachable: any spelling whose lower-case form is its tag selects exactly that kind |
| CreatureEventKinds.ParseTypeIgnoresCase | src/creatureevent.cpp:138 | parsing depends only on the lower-cased attribute |
| CreatureEventKinds.ScriptEventName | src/creatureevent.cpp:204-324 | the callback name is empty exactly for NONE, and otherwise starts with "on" |
| CreatureEventKinds.ScriptEventNamesDistinct | src/creatureevent.cpp:204-324 | two kinds call the same callback name exactly when they are the same kind |
| CreatureEventKinds.ScriptEventParams | src/creatureevent.cpp:326-426 | the parameter text is empty exactly for NONE, and otherwise starts with "cid" |
| CreatureEventKinds.ParamNames | src/creatureevent.cpp:326-426 | the parameter list is empty exactly for NONE, and otherwise its first name is "cid" |
| CreatureEventKinds.JoinStartsWithFirst | src/creatureevent.cpp:326-426 | a joined parameter list begins with its first parameter, and an empty list joins to "" |
| CreatureEventArgs.KillFlags | src/creatureevent.cpp:1415-1426 | the flags of onKill are 1 for the last hit, plus 2 for justified, plus 4 for unjustified: below 8, each bit set exactly when its condition holds |
| CreatureEventArgs.BuildTable | src/creatureevent.cpp:577-583 | the table loop stores element i under key i + 1, for every element and nothing more |
| CreatureEventArgs.IndexedTableLookup | src/creatureevent.cpp:577-583 | a script reading t[k] from such a table gets element k - 1 for 1 <= k <= n and nil otherwise |
| CreatureEventArgs.CompiledArgs | src/creatureevent.cpp:442-1991 | the positional arguments each of the 28 execute operations pushes before callFunction, in push order; never empty, and the first is always the creature's handle |
| CreatureEventArgs.BufferBindings | src/creatureevent.cpp:442-1991 | the `local` bindings each of the 28 execute operations writes into its buffer prologue, in order; BufferAgreesWithCompiled states that their names are the kind's parameter list |
| CreatureEventArgs.BufferAgreesWithCompiled | src/creatureevent.cpp:326-426 | for every kind, the buffer prologue binds exactly the parameter names getScriptEventParams lists, in order, and outside the three divergent cases binds the values the compiled branch pushes |
| CreatureEventArgs.CompiledArity | src/creatureevent.cpp:877-928 | the count passed to callFunction equals the number of listed parameters, except trade-accept, which passes one more |
| CreatureEventArgs.BufferDivergence | src/creatureevent.cpp:877-987 | the three cases where the buffer and compiled branches hand different values: trade-accept drops the fourth argument, look binds a number for a thing table, a cast without target binds nil for a null thing |
| CreatureEventArgs.MarshalCompiled | src/creatureevent.cpp:570-583 | the compiled branch's arguments, with the list tables built by the loop, are the kind's compiled argument list |
| CreatureEventArgs.MarshalBuffer | src/creatureevent.cpp:541-550 | the buffer branch's bindings, with the list tables built by the loop, are the kind's prologue bindings |
| CreatureEventDescriptor.Configure | src/creatureevent.cpp:125-201 | success exactly when a name, a type and a known tag are present; the name is stored whenever present, even when the type then fails; the kind changes only on success and is then never NONE; only success sets loaded; nothing else changes |
| CreatureEventDescriptor.ConfigureWithTag | src/creatureevent.cpp:125-201 | a node with a name and any spelling of a kind's tag configures that name and kind and marks the descriptor loaded |
| CreatureEventDescriptor.ConfigureIgnoresTypeCase | src/creatureevent.cpp:137-138 | a node configures exactly as its twin with a lower-cased type |
| CreatureEventDescriptor.Copied | src/creatureevent.cpp:428-433 | copyEvent takes the script id, interface, mode and loaded flag from the source and keeps the destination's name, kind and script text |
| CreatureEventDescriptor.Cleared | src/creatureevent.cpp:435-440 | clearEvent leaves no script id, no interface, mode FALSE and not loaded, keeping name, kind and text |
| CreatureEventDescriptor.ClearForgetsCopy | src/creatureevent.cpp:428-440 | clearing after a copy is clearing the original, and clearing twice is clearing once |
| CreatureEventDescriptor.Verdict | src/creatureevent.cpp:457-458 | the uint32 answer is 1 for true and 0 for false |
| CreatureEventDescriptor.ExecuteSpec | src/creatureevent.cpp:442-481 | with no free environment the answer is 0 and nothing happens; otherwise exactly reserve, one script operation and release happen, the environment count is restored and the answer is 0 or 1 |
| CreatureEventDescriptor.ExecuteBranches | src/creatureevent.cpp:446-476 | both branches run in the globals earlier scripts left and keep the globals the script leaves; buffer mode loads the prologue and script text, answers 1 when the load fails and otherwise the global `_result` (true when unset); compiled mode calls the script id with the positional arguments and answers 1 exactly when the callback returns true |
| CreatureEventDescriptor.StaleResultDecides | src/creatureevent.cpp:452-456 | a buffer that assigns nothing answers the `_result` an earlier script left (0 after a false), and 1 in a fresh script state |
| CreatureEventDescriptor.CopiedExecutesAsSource | src/creatureevent.cpp:428-433 | after copyEvent a descriptor executes as its source unless the source is a buffer with other text, in which case the destination's own text is loaded |
| CreatureEventDescriptor.CreatureEvent.constructor | src/creatureevent.cpp:119-123 | a new descriptor has no kind, is not loaded and is bound to the given interface |
| CreatureEventDescriptor.CreatureEvent.ConfigureEvent | src/creatureevent.cpp:125-201 | updates the descriptor and answers exactly as Configure |
| CreatureEventDescriptor.CreatureEvent.CopyEvent | src/creatureevent.cpp:428-433 | the new state is Copied of the old states |
| CreatureEventDescriptor.CreatureEvent.ClearEvent | src/creatureevent.cpp:435-440 | the new state is Cleared of the old state |
| CreatureEventDescriptor.CreatureEvent.Execute | src/creatureevent.cpp:442-481 | the answer and the new runtime state are those of ExecuteSpec on the descriptor and the old runtime state |
| CreatureEventRegistry.IsEventNode | src/creatureevent.cpp:47-53 | the node names getEvent accepts: event, creaturevent, creatureevent and creaturescript, compared after lower-casing |
| CreatureEventRegistry.IsEventNodeIgnoresCase | src/creatureevent.cpp:47-53 | whether getEvent accepts a node name does not depend on its case |
| CreatureEventRegistry.FindByName | src/creatureevent.cpp:84-92 | the index found holds the name and no earlier entry does; no index means no entry holds it |
| CreatureEventRegistry.MergeTarget | src/creatureevent.cpp:72-79 | an entry is reused exactly when the first entry with the name has the same kind |
| CreatureEventRegistry.Register | src/creatureevent.cpp:55-82 | NONE is refused with the list unchanged; with no merge target the descriptor is appended and accepted; on a merge the answer is override, the length is kept, the target is copied into when unloaded or overridden, and every other entry is unchanged |
| CreatureEventRegistry.RegisterFindsName | src/creatureevent.cpp:55-82 | after a registration that is not refused, the name is found and some entry carries that name and kind |
| CreatureEventRegistry.FindAppended | src/creatureevent.cpp:80-81 | appending never moves an existing first match, and a new name is found at the end |
| CreatureEventRegistry.RegisterKeepsOtherNames | src/creatureevent.cpp:55-82 | registration never changes which entry a lookup of another name finds |
| CreatureEventRegistry.FindUpdated | src/creatureevent.cpp:74-76 | copying into an entry keeps its name, so no lookup changes |
| CreatureEventRegistry.ReRegisterRefused | src/creatureevent.cpp:72-79 | registering a loaded descriptor appends it the first time; the second time, without override, changes nothing and answers false |
| CreatureEventRegistry.DuplicateActiveEntries | src/creatureevent.cpp:72-81 | when the first same-named entry has another kind, a descriptor is appended beside a loaded entry of its own name and kind |
| CreatureEventRegistry.ClearAll | src/creatureevent.cpp:40-45 | clear keeps the length and clears every entry in place |
| CreatureEventRegistry.ClearKeepsLookup | src/creatureevent.cpp:40-45 | clearing keeps names, so every name lookup gives the same index as before |
| CreatureEventRegistry.ReloadReusesEntry | src/creatureevent.cpp:73-78 | after clear, registering a descriptor of an existing first-found name and kind fills that entry in place, whatever override says |
| CreatureEventRegistry.Handlers | src/creatureevent.cpp:98-100 | the entries a broadcast invokes are entries of the list, of the arguments' kind and loaded |
| CreatureEventRegistry.Fire | src/creatureevent.cpp:94-117 | a broadcast answers only 0 or 1 per handler, restores the environment count and only extends the trace |
| CreatureEventRegistry.AllNonzero | src/creatureevent.cpp:96-101 | the `result` accumulator of the broadcast loop, updated one verdict at a time; AllNonzeroMeansEvery characterises it |
| CreatureEventRegistry.AllNonzeroMeansEvery | src/creatureevent.cpp:96-102 | the loop's running result is true exactly when every invoked handler answered nonzero |
| CreatureEventRegistry.FireStep | src/creatureevent.cpp:97-101 | one loop iteration executes the entry after the earlier ones when it is a loaded handler and otherwise skips it |
| CreatureEventRegistry.FireOnlyHandlers | src/creatureevent.cpp:98 | entries of other kinds or not loaded are skipped without any effect |
| CreatureEventRegistry.FireRunsEveryHandler | src/creatureevent.cpp:98 | execute is called before `result` is tested, so every handler runs even after a refusal: one verdict per handler |
| CreatureEventRegistry.FireAppend | src/creatureevent.cpp:97 | handlers run in list order: a broadcast over a concatenation is the broadcast over the first part followed by the second |
| CreatureEventRegistry.FireWithoutEnvironment | src/creatureevent.cpp:477-480 | with no free environment every handler answers 0 and the runtime is untouched |
| CreatureEventRegistry.FireAfterClear | src/creatureevent.cpp:40-45 | right after clear no entry is a handler, so a broadcast does nothing and answers true |
| CreatureEventRegistry.CreatureEvents.constructor | src/creatureevent.cpp:28-31 | a new registry is empty and owns a fresh interface on the given engine |
| CreatureEventRegistry.CreatureEvents.GetEvent | src/creatureevent.cpp:47-53 | a fresh unconfigured descriptor on the registry's interface is returned exactly for the accepted node names |
| CreatureEventRegistry.CreatureEvents.GetEventByName | src/creatureevent.cpp:84-92 | the result is the entry at FindByName's index, or null exactly when no entry holds the name |
| CreatureEventRegistry.CreatureEvents.RegisterEvent | src/creatureevent.cpp:55-82 | the new records and the answer are those of Register; the registry invariant is kept |
| CreatureEventRegistry.CreatureEvents.Append | src/creatureevent.cpp:80-81 | push_back adds the descriptor's record at the end and keeps the registry invariant |
| CreatureEventRegistry.CreatureEvents.Clear | src/creatureevent.cpp:40-45 | the new records are ClearAll of the old ones and the list itself is unchanged; the script state is then reset, so no global (a stale `_result` included) survives, and the reset is recorded in the trace |
| CreatureEventRegistry.CreatureEvents.Broadcast | src/creatureevent.cpp:94-117 | records are unchanged; the answer is the conjunction of Fire's verdicts and the new runtime state is Fire's |
| CreatureEventRegistry.CreatureEvents.PlayerLogin | src/creatureevent.cpp:94-103 | playerLogin is the broadcast of the login arguments |
| CreatureEventRegistry.CreatureEvents.PlayerLogout | src/creatureevent.cpp:105-117 | playerLogout is the broadcast of the logout arguments with the force flag |

## Left out

- The Lua interpreter is left out. What a buffer or a callback does is an oracle in `ScriptRuntime.Engine`. Given the globals before the run, it returns whether the buffer loaded (or the callback's boolean) and the globals after it. Only boolean globals are modelled, since `_result` is the one a creature event reads.
- LuaInterface, ScriptEnviroment and the Event base class are not part of this model. `ScriptRuntime.ScriptInterface` stands in for the part that is used: reserveEnv, releaseEnv, loadBuffer, callFunction and getGlobalBool.
- ScriptRuntime.ScriptInterface.ReInitState models reInitState only as the loss of every global. Reloading the script files and the effect on compiled functions are not modelled. The initState of the registry constructor is the empty state `ScriptInterface` starts in.
- addThing, which turns game objects into script handles, is left out. Arguments arrive as already resolved handles. The one null case the model distinguishes is a cast without a target, which the compiled branch pushes as `NullThing`. Other creatures that may be null, such as the stats-change attacker, are plain handles, as both branches pass addThing's result alike.
- setRealPos, setScriptId and setEvent are left out. They touch only debugging and position state of the script environment.
- Logging to `std::clog` and the `__DEBUG_LUASCRIPTS__` debugging code are left out.
- The model is the build without `__WAR_SYSTEM__`. There, onKill's parameters are `cid, target, damage, flags`; the war build adds `war` (src/creatureevent.cpp:397-401).
- The prologue is modelled as a list of (name, value) bindings, not as text. The model records the values the prologue is evidently meant to bind, so these textual details are not captured:
  - lists are filled with `users:insert(...)` / `deathList:insert(...)` calls on plain tables (lines 548-550, 610-612, 1500-1508, 1570-1578);
  - killer names are written unquoted;
  - the text-edit `newText` and the report-bug `comment` are written unquoted (lines 1759, 1809), where the model binds `Text(newText)` and `Text(comment)`;
  - the move-item `count` is a `uint8_t` streamed as a character (line 1698), where the model binds `Number(count)`.
- The layout of pushed thing, position and outfit tables is abstracted to `ThingTable`, `PositionTable` and `OutfitTable`. pushPosition called without a stackpos is taken to push 0.
- Reading the XML file and choosing between buffer and compiled mode belong to the Event base class and are left out. The descriptor's mode, script id and text are fields set from outside.
- The order of a users map is its iteration order, taken as the given list.
- Integer widths are left out: channel ids, skill levels and damages are unbounded `int`. Only the kill flags are a 32-bit word, as in the source.
- `dynamic_cast` of the registered Event is left out; only creature event descriptors are registered. Deleting descriptors in the destructor is left out too.
- A nested execute is left out: a script that itself fires another creature event while its environment is reserved.
- CreatureEventDescriptor.CreatureEvent.Execute covers all 28 `executeX` operations with one method over an argument datatype. The kind-specific part of each operation, its arguments, lives in CreatureEventArgs.
