/**
 * The slice of the scripting runtime that creature events rely on: a bounded
 * pool of execution environments (reserveEnv / releaseEnv), one-shot buffer
 * execution with global variables, and calls of compiled script functions.
 * What a script does is not modelled: an Engine value supplies it as oracle
 * functions. Every runtime operation is appended to a trace so that contracts
 * can say which operations a creature event performed, and in what order.
 */
module ScriptRuntime {
  import opened Wrappers

  /** An object handle, as ScriptEnviroment::addThing hands it out. */
  type Handle = nat

  datatype Position = Position(x: int, y: int, z: int)

  datatype OutfitLook = OutfitLook(lookType: int, lookHead: int, lookBody: int, lookLegs: int, lookFeet: int, lookAddons: int)

  /** A value as a script sees it. */
  datatype ScriptValue =
    | Number(n: int)                                 // lua_pushnumber
    | Boolean(b: bool)                               // lua_pushboolean
    | Text(s: string)                                // lua_pushstring
    | Nil                                            // the literal nil
    | NullThing                                      // the number addThing gives a null creature
    | ThingTable(thing: Handle)                      // pushThing / streamThing: a table describing an item
    | PositionTable(pos: Position, stackpos: int)    // pushPosition / streamPosition
    | OutfitTable(outfit: OutfitLook)                // pushOutfit / streamOutfit
    | Table(entries: seq<TableEntry>)                // lua_newtable followed by lua_settable calls

  datatype TableEntry = TableEntry(key: int, value: ScriptValue)

  /** What a script reads as t[key]: the last entry stored under key, as lua_settable overwrites. */
  function Lookup(entries: seq<TableEntry>, key: int): Option<ScriptValue>
  {
    if entries == [] then None
    else if entries[|entries| - 1].key == key then Some(entries[|entries| - 1].value)
    else Lookup(entries[..|entries| - 1], key)
  }

  /** One "local name = value" line of a buffer prologue. */
  datatype Binding = Binding(name: string, value: ScriptValue)

  /** A buffer as it is handed to loadBuffer: the prologue followed by the descriptor's script text. */
  datatype BufferScript = BufferScript(prologue: seq<Binding>, body: string)

  /** The observable runtime operations. */
  datatype EnvOp =
    | Reserve
    | Release
    | Load(script: BufferScript)
    | Call(scriptId: int, args: seq<ScriptValue>)
    | Reinit

  /** The runtime state a creature event changes: environments in use, script globals, and the trace. */
  datatype Runtime = Runtime(envIndex: nat, globals: map<string, bool>, trace: seq<EnvOp>)

  /**
   * The fixed behaviour of the scripting engine: how many environments may be
   * reserved at once, what running a buffer does, and what calling a compiled
   * function does. Both run in the one script state the interface keeps, so
   * both see the globals left by earlier scripts and both hand back the
   * globals as they leave them: a buffer answers whether it loaded and ran,
   * a compiled function answers its boolean result.
   */
  datatype Engine = Engine(
    maxEnv: nat,
    runBuffer: (BufferScript, map<string, bool>) -> (bool, map<string, bool>),
    callFunction: (int, seq<ScriptValue>, map<string, bool>) -> (bool, map<string, bool>))

  /** The value getGlobalBool reads: the global if it holds a boolean, otherwise the default. */
  function GlobalBool(globals: map<string, bool>, name: string, default: bool): bool
  {
    if name in globals then globals[name] else default
  }

  /** The scripting interface shared by every creature event of one registry. */
  class ScriptInterface {
    const engine: Engine
    var envIndex: nat
    var globals: map<string, bool>
    var trace: seq<EnvOp>

    function State(): Runtime
      reads this
    {
      Runtime(envIndex, globals, trace)
    }

    constructor (engine: Engine)
      ensures this.engine == engine
      ensures State() == Runtime(0, map[], [])
    {
      this.engine := engine;
      envIndex := 0;
      globals := map[];
      trace := [];
    }

    /** Takes an environment if one is free; never blocks. */
    method ReserveEnv() returns (ok: bool)
      modifies this
      ensures ok == (old(envIndex) < engine.maxEnv)
      ensures envIndex == if ok then old(envIndex) + 1 else old(envIndex)
      ensures trace == if ok then old(trace) + [Reserve] else old(trace)
      ensures globals == old(globals)
    {
      ok := envIndex < engine.maxEnv;
      if ok {
        envIndex := envIndex + 1;
        trace := trace + [Reserve];
      }
    }

    /** Gives back the most recently reserved environment. */
    method ReleaseEnv()
      requires envIndex > 0
      modifies this
      ensures envIndex == old(envIndex) - 1
      ensures trace == old(trace) + [Release]
      ensures globals == old(globals)
    {
      envIndex := envIndex - 1;
      trace := trace + [Release];
    }

    /** Loads and runs a buffer in the shared state; the globals it leaves stay set afterwards. */
    method LoadBuffer(script: BufferScript) returns (ok: bool)
      modifies this
      ensures ok == engine.runBuffer(script, old(globals)).0
      ensures globals == engine.runBuffer(script, old(globals)).1
      ensures trace == old(trace) + [Load(script)]
      ensures envIndex == old(envIndex)
    {
      var outcome := engine.runBuffer(script, globals);
      ok := outcome.0;
      globals := outcome.1;
      trace := trace + [Load(script)];
    }

    /** Pushes the compiled function scriptId and the arguments, calls it in the shared state, and returns its boolean result. */
    method CallFunction(scriptId: int, args: seq<ScriptValue>) returns (result: bool)
      modifies this
      ensures result == engine.callFunction(scriptId, args, old(globals)).0
      ensures globals == engine.callFunction(scriptId, args, old(globals)).1
      ensures trace == old(trace) + [Call(scriptId, args)]
      ensures envIndex == old(envIndex)
    {
      var outcome := engine.callFunction(scriptId, args, globals);
      result := outcome.0;
      globals := outcome.1;
      trace := trace + [Call(scriptId, args)];
    }

    /** Replaces the script state by a fresh one: no global survives. */
    method ReInitState()
      modifies this
      ensures globals == map[]
      ensures trace == old(trace) + [Reinit]
      ensures envIndex == old(envIndex)
    {
      globals := map[];
      trace := trace + [Reinit];
    }
  }
}
