/**
 * The agent's start-up: it registers its container with the controller and then, depending on
 * the reply, restores a migrated container, builds a fresh overlay, or stacks new layers and
 * ships each one. The program's effects are recorded as a sequence of actions. Encoding, the
 * TCP connection and the file transfer are abstracted: the connection's outcomes are a
 * `Network` value, the decoded reply is an input, and every `filepath.Glob` a layer operation
 * performs is given by `globAt`, the result seen by the k-th layer operation.
 */
module Agent {

  import opened Wrappers
  import opened GoStrings
  import Layers

  /** The registration record the agent sends and the reply it reads back. */
  datatype Message = Message(podName: string, podAddress: string, isNew: bool, isMig: bool)

  const MasterAddress := "localhost:3333"

  /** How the connection to the controller behaves: a dial error text, or write/read failures. */
  datatype Network = Network(dialError: Option<string>, writeFails: bool, readFails: bool)

  datatype Action =
    | ArgsPanic                                     // os.Args has no root directory or count
    | DialMaster(address: string)
    | WriteMessage(message: Message)
    | ReadReply
    | Exit(reason: string)                          // log.Fatal
    | ReceiveData                                   // utils.ReceiveData
    | LayerInitRan(ok: bool, issued: seq<Layers.Command>)
    | LayerCreated(ok: bool, issued: seq<Layers.Command>)
    | SendFile(dir: string, address: string, num: int)

  /** os.Getenv: the variable's value, or "" when it is unset. */
  function Getenv(env: map<string, string>, key: string): string {
    if key in env then env[key] else ""
  }

  /** The registration message built from the environment. */
  function Outgoing(env: map<string, string>): (m: Message)
    ensures m.isNew && !m.isMig
    ensures m.podName == Getenv(env, "name") && m.podAddress == Getenv(env, "ip")
  {
    Message(Getenv(env, "name"), Getenv(env, "ip"), true, false)
  }

  // ---------------------------------------------------------------------------------------
  // What the layer operations do, as their contracts in Layers state it

  /** The outcome of Layer.Init on `l` when the glob gives `glob`. */
  function InitStep(l: Layers.Layer, glob: Layers.GlobResult): Action {
    if glob.GlobFailed? then LayerInitRan(false, [])
    else LayerInitRan(true, Layers.InitPlan(glob.matches, |glob.matches| + 1))
  }

  /** The outcome of Layer.CreateLayer on `l` when the glob gives `glob`. */
  function CreateStep(l: Layers.Layer, glob: Layers.GlobResult): Action {
    if glob.GlobFailed? then LayerCreated(false, [])
    else LayerCreated(true, Layers.CreateLayerPlan(glob.matches, l.level + 1, l.RootDir))
  }

  // ---------------------------------------------------------------------------------------
  // range over a string

  /** The byte offset at which the k-th code point of `s` starts in its UTF-8 encoding. */
  function RuneStart(s: string, k: nat): nat
    requires k <= |s|
  {
    Utf8Len(s[..k])
  }

  lemma {:induction false} Utf8LenAppend(a: string, b: string)
    ensures Utf8Len(a + b) == Utf8Len(a) + Utf8Len(b)
    decreases |a|
  {
    if a != [] {
      assert (a + b)[1..] == a[1..] + b;
      Utf8LenAppend(a[1..], b);
    } else {
      assert a + b == b;
    }
  }

  /** Each code point moves the offset on by its UTF-8 width, which is at least one byte. */
  lemma RuneStartStep(s: string, k: nat)
    requires k < |s|
    ensures RuneStart(s, k + 1) == RuneStart(s, k) + Utf8Width(s[k])
    ensures RuneStart(s, k) < RuneStart(s, k + 1) <= Utf8Len(s)
  {
    assert s[..k + 1] == s[..k] + [s[k]];
    Utf8LenAppend(s[..k], [s[k]]);
    assert s == s[..k + 1] + s[k + 1..];
    Utf8LenAppend(s[..k + 1], s[k + 1..]);
  }

  /** Loop indices strictly increase: the k-th iteration sees a larger offset than every earlier one. */
  lemma {:induction false} RuneStartsIncrease(s: string, j: nat, k: nat)
    requires j < k < |s|
    ensures RuneStart(s, j) < RuneStart(s, k) < Utf8Len(s)
    decreases k - j
  {
    RuneStartStep(s, k);
    if j + 1 < k {
      RuneStartsIncrease(s, j + 1, k);
    }
    RuneStartStep(s, j);
  }

  /** For an ASCII string the offsets are just 0, 1, 2, … */
  lemma {:induction false} AsciiRuneStart(s: string, k: nat)
    requires IsAscii(s) && k <= |s|
    ensures RuneStart(s, k) == k
    decreases k
  {
    if k > 0 {
      AsciiRuneStart(s, k - 1);
      RuneStartStep(s, k - 1);
    }
  }

  // ---------------------------------------------------------------------------------------
  // The dispatch on the reply (main.go lines 63-75)

  /** The actions of the first `k` iterations of the layer loop. */
  function Iterations(rootDir: string, address: string, layerCount: string,
                      globAt: nat -> Layers.GlobResult, k: nat): (r: seq<Action>)
    requires k <= |layerCount|
    ensures |r| == 2 * k
    decreases k
  {
    if k == 0 then []
    else Iterations(rootDir, address, layerCount, globAt, k - 1)
         + [CreateStep(Layers.Layer(0, rootDir, 0), globAt(k - 1)),
            SendFile(rootDir, address, RuneStart(layerCount, k - 1))]
  }

  /** What the agent does once it holds a reply `message`. */
  function DispatchPlan(rootDir: string, layerCount: string, message: Message,
                        globAt: nat -> Layers.GlobResult): seq<Action>
  {
    var ovLayer := Layers.Layer(0, rootDir, 0);
    if message.isMig then [ReceiveData, InitStep(ovLayer, globAt(0))]
    else if message.isNew then [InitStep(ovLayer, globAt(0))]
    else Iterations(rootDir, message.podAddress, layerCount, globAt, |layerCount|)
  }

  /**
   * The reply-driven dispatch. `range layerCount` runs once per code point of the string and
   * binds `num` to that code point's byte offset; every iteration calls CreateLayer on the same
   * level-0 Layer, whose value receiver discards the level it computes.
   */
  method Dispatch(rootDir: string, layerCount: string, message: Message,
                  globAt: nat -> Layers.GlobResult) returns (actions: seq<Action>)
    ensures actions == DispatchPlan(rootDir, layerCount, message, globAt)
  {
    var ovLayer := Layers.Layer(0, rootDir, 0);
    if message.isMig {
      actions := [ReceiveData];
      var ok, issued := Layers.Init(ovLayer, globAt(0));
      actions := actions + [LayerInitRan(ok, issued)];
    } else if message.isNew {
      var ok, issued := Layers.Init(ovLayer, globAt(0));
      actions := [LayerInitRan(ok, issued)];
    } else {
      actions := [];
      var num := 0;
      var k := 0;
      while k < |layerCount|
        invariant 0 <= k <= |layerCount|
        invariant num == RuneStart(layerCount, k)
        invariant actions == Iterations(rootDir, message.podAddress, layerCount, globAt, k)
      {
        var ok, issued := Layers.CreateLayer(ovLayer, globAt(k));
        actions := actions + [LayerCreated(ok, issued), SendFile(rootDir, message.podAddress, num)];
        RuneStartStep(layerCount, k);
        num := num + Utf8Width(layerCount[k]);
        k := k + 1;
      }
    }
  }

  // ---------------------------------------------------------------------------------------
  // Start-up (main.go lines 21-75)

  /** Everything the agent does, from reading its arguments to the end of the dispatch. */
  function StartPlan(args: seq<string>, env: map<string, string>, net: Network, reply: Message,
                     globAt: nat -> Layers.GlobResult): seq<Action>
  {
    if |args| < 3 then [ArgsPanic]
    else
      var handshake := [DialMaster(MasterAddress), WriteMessage(Outgoing(env)), ReadReply];
      if net.dialError.Some? then handshake[..1] + [Exit(net.dialError.value)]
      else if net.writeFails then handshake[..2] + [Exit("Failed to Write Message")]
      else if net.readFails then handshake + [Exit("Failed to read response")]
      else handshake + DispatchPlan(args[1], args[2], reply, globAt)
  }

  /**
   * main: takes the root directory and the layer count from its arguments, registers with the
   * controller and dispatches on the reply. A failed dial, write or read ends the program.
   */
  method Start(args: seq<string>, env: map<string, string>, net: Network, reply: Message,
               globAt: nat -> Layers.GlobResult) returns (actions: seq<Action>)
    ensures actions == StartPlan(args, env, net, reply, globAt)
  {
    if |args| < 3 {
      return [ArgsPanic];
    }
    var rootDir := args[1];
    var layerCount := args[2];
    var message := Outgoing(env);
    actions := [DialMaster(MasterAddress)];
    if net.dialError.Some? {
      return actions + [Exit(net.dialError.value)];
    }
    actions := actions + [WriteMessage(message)];
    if net.writeFails {
      return actions + [Exit("Failed to Write Message")];
    }
    actions := actions + [ReadReply];
    if net.readFails {
      return actions + [Exit("Failed to read response")];
    }
    var rest := Dispatch(rootDir, layerCount, reply, globAt);
    actions := actions + rest;
  }

  // ---------------------------------------------------------------------------------------
  // Properties

  predicate LayerAction(a: Action) {
    a.ReceiveData? || a.LayerInitRan? || a.LayerCreated? || a.SendFile?
  }

  /** A migrated container is restored and initialised; no layer is created or sent. */
  lemma MigratedReceivesThenInits(rootDir: string, layerCount: string, message: Message,
                                  globAt: nat -> Layers.GlobResult)
    requires message.isMig
    ensures var plan := DispatchPlan(rootDir, layerCount, message, globAt);
            && plan == [ReceiveData, InitStep(Layers.Layer(0, rootDir, 0), globAt(0))]
            && forall i :: 0 <= i < |plan| ==> !plan[i].LayerCreated? && !plan[i].SendFile?
  {
  }

  /** A new container only gets its overlay initialised. */
  lemma NewOnlyInits(rootDir: string, layerCount: string, message: Message,
                     globAt: nat -> Layers.GlobResult)
    requires !message.isMig && message.isNew
    ensures DispatchPlan(rootDir, layerCount, message, globAt) == [InitStep(Layers.Layer(0, rootDir, 0), globAt(0))]
  {
  }

  /**
   * With both flags clear, iteration k creates a layer and then sends it with num set to the
   * k-th code point's byte offset; every CreateLayer works from level 0 and so builds level 1.
   */
  lemma {:induction false} IterationShape(rootDir: string, address: string, layerCount: string,
                                          globAt: nat -> Layers.GlobResult, n: nat, k: nat)
    requires k < n <= |layerCount|
    ensures var plan := Iterations(rootDir, address, layerCount, globAt, n);
            && plan[2 * k] == CreateStep(Layers.Layer(0, rootDir, 0), globAt(k))
            && plan[2 * k + 1] == SendFile(rootDir, address, RuneStart(layerCount, k))
    decreases n
  {
    if k < n - 1 {
      IterationShape(rootDir, address, layerCount, globAt, n - 1, k);
    }
  }

  /** A successful CreateLayer in the loop always issues the plan for level 1 on the root directory. */
  lemma LoopBuildsLevelOne(rootDir: string, address: string, layerCount: string,
                           globAt: nat -> Layers.GlobResult, k: nat)
    requires k < |layerCount| && globAt(k).Globbed?
    ensures Iterations(rootDir, address, layerCount, globAt, |layerCount|)[2 * k]
         == LayerCreated(true, Layers.CreateLayerPlan(globAt(k).matches, 1, rootDir))
  {
    IterationShape(rootDir, address, layerCount, globAt, |layerCount|, k);
  }

  /**
   * The loop runs once per character of the count, not as many times as the count says: an
   * ASCII count of length n yields n CreateLayer/SendFile pairs numbered 0 … n-1.
   */
  lemma AsciiCountLoops(rootDir: string, layerCount: string, message: Message,
                        globAt: nat -> Layers.GlobResult, k: nat)
    requires !message.isMig && !message.isNew && IsAscii(layerCount) && k < |layerCount|
    ensures var plan := DispatchPlan(rootDir, layerCount, message, globAt);
            && |plan| == 2 * |layerCount|
            && plan[2 * k + 1] == SendFile(rootDir, message.podAddress, k)
  {
    IterationShape(rootDir, message.podAddress, layerCount, globAt, |layerCount|, k);
    AsciiRuneStart(layerCount, k);
  }

  /** A layer count of "3" creates and sends a single layer; "10" does it twice. */
  lemma CountIsNotParsed(rootDir: string, message: Message, globAt: nat -> Layers.GlobResult)
    requires !message.isMig && !message.isNew
    ensures |DispatchPlan(rootDir, "3", message, globAt)| == 2
    ensures |DispatchPlan(rootDir, "10", message, globAt)| == 4
  {
  }

  /** The sent numbers are distinct and increasing byte offsets, all inside the count string. */
  lemma LoopNumbersIncrease(rootDir: string, address: string, layerCount: string,
                            globAt: nat -> Layers.GlobResult, j: nat, k: nat)
    requires j < k < |layerCount|
    ensures var plan := Iterations(rootDir, address, layerCount, globAt, |layerCount|);
            && plan[2 * j + 1].SendFile? && plan[2 * k + 1].SendFile?
            && plan[2 * j + 1].num < plan[2 * k + 1].num < Utf8Len(layerCount)
  {
    IterationShape(rootDir, address, layerCount, globAt, |layerCount|, j);
    IterationShape(rootDir, address, layerCount, globAt, |layerCount|, k);
    RuneStartsIncrease(layerCount, j, k);
  }

  /** The registration message carries the environment's name and ip and asks to be new. */
  lemma RegistrationMessage(args: seq<string>, env: map<string, string>, net: Network, reply: Message,
                            globAt: nat -> Layers.GlobResult)
    requires |args| >= 3 && net.dialError.None?
    ensures StartPlan(args, env, net, reply, globAt)[1]
         == WriteMessage(Message(Getenv(env, "name"), Getenv(env, "ip"), true, false))
  {
  }

  /** A failed dial, write or read ends the program before any layer action. */
  lemma FatalBeforeLayers(args: seq<string>, env: map<string, string>, net: Network, reply: Message,
                          globAt: nat -> Layers.GlobResult)
    requires net.dialError.Some? || net.writeFails || net.readFails || |args| < 3
    ensures var plan := StartPlan(args, env, net, reply, globAt);
            && (forall i :: 0 <= i < |plan| ==> !LayerAction(plan[i]))
            && (|args| >= 3 ==> plan[|plan| - 1].Exit?)
  {
  }

  /**
   * The reply is decoded into a Message whose fields are all unexported, so decoding leaves
   * the outgoing record in place; with that reply the agent only initialises its overlay.
   */
  lemma EchoedReplyOnlyInits(args: seq<string>, env: map<string, string>, globAt: nat -> Layers.GlobResult)
    requires |args| >= 3
    ensures StartPlan(args, env, Network(None, false, false), Outgoing(env), globAt)
         == [DialMaster(MasterAddress), WriteMessage(Outgoing(env)), ReadReply,
             InitStep(Layers.Layer(0, args[1], 0), globAt(0))]
  {
  }
}
