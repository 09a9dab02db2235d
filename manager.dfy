/**
 * The controller's HTTP handlers: a pod registry kept in a global slice, and the migration
 * handler with the fixed sequence of cluster operations it performs.
 */
module Manager {

  import opened Wrappers
  import GoStrings
  import opened Kub

  /** A registered pod. */
  datatype Pod = Pod(mig: bool, metaData: string, podName: string, podAddress: string)

  /** The registration request and reply body. */
  datatype Message = Message(podName: string, podAddress: string, isNew: bool, isMig: bool)

  /** What binding the request body produced: a message, or an error (gin then answers 400). */
  datatype BindResult = Bound(message: Message) | BindFailed

  /** RegisterPod's answer. */
  datatype RegisterReply =
    | BadRequest                   // 400, written by BindJSON itself
    | Known(message: Message)      // 200 with the echoed request and the stored migration flag
    | Created(pod: Pod)            // 201 with the record just appended

  /** MigratePod's answer. */
  datatype MigrateReply =
    | NotFound(body: string)       // 404
    | Migrated(result: bool)       // 200
    | Recovered                    // 500: gin's recovery middleware catches a panic in migrate

  /** At most one record per pod name. */
  predicate UniqueNames(pods: seq<Pod>) {
    forall i, j :: 0 <= i < j < |pods| ==> pods[i].podName != pods[j].podName
  }

  /** The index of the first record with this name. */
  function Lookup(pods: seq<Pod>, name: string): (r: Option<nat>)
    ensures r.Some? ==> r.value < |pods| && pods[r.value].podName == name
    ensures r.Some? ==> forall j :: 0 <= j < r.value ==> pods[j].podName != name
    ensures r.None? <==> forall j :: 0 <= j < |pods| ==> pods[j].podName != name
    decreases |pods|
  {
    if pods == [] then None
    else if pods[0].podName == name then Some(0)
    else
      match Lookup(pods[1..], name)
      case None => None
      case Some(k) => Some(k + 1)
  }

  /** The record RegisterPod appends for a new name. */
  function NewPod(m: Message): Pod {
    Pod(false, "", m.podName, m.podAddress)
  }

  /** The registry after RegisterPod. */
  function Registered(pods: seq<Pod>, bind: BindResult): seq<Pod> {
    if bind.BindFailed? then pods
    else if Lookup(pods, bind.message.podName).Some? then pods
    else pods + [NewPod(bind.message)]
  }

  /** RegisterPod's reply. */
  function RegisterAnswer(pods: seq<Pod>, bind: BindResult): RegisterReply {
    if bind.BindFailed? then BadRequest
    else
      var m := bind.message;
      match Lookup(pods, m.podName)
      case Some(i) => Known(Message(m.podName, m.podAddress, false, pods[i].mig))
      case None => Created(NewPod(m))
  }

  /** Every record with this name marked as migrating. */
  function MarkMigrating(pods: seq<Pod>, name: string): (r: seq<Pod>)
    ensures |r| == |pods|
    ensures forall i :: 0 <= i < |pods| ==>
              r[i] == if pods[i].podName == name then pods[i].(mig := true) else pods[i]
  {
    seq(|pods|, i requires 0 <= i < |pods| => if pods[i].podName == name then pods[i].(mig := true) else pods[i])
  }

  // ---------------------------------------------------------------------------------------
  // Registration properties

  /** A known name leaves the registry as it is and answers 200, not new, with the stored flag. */
  lemma RegisterKnown(pods: seq<Pod>, m: Message, i: nat)
    requires i < |pods| && pods[i].podName == m.podName
    requires forall j :: 0 <= j < i ==> pods[j].podName != m.podName
    ensures Registered(pods, Bound(m)) == pods
    ensures RegisterAnswer(pods, Bound(m)) == Known(Message(m.podName, m.podAddress, false, pods[i].mig))
  {
    LookupFirst(pods, m.podName, i);
  }

  lemma {:induction false} LookupFirst(pods: seq<Pod>, name: string, i: nat)
    requires i < |pods| && pods[i].podName == name
    requires forall j :: 0 <= j < i ==> pods[j].podName != name
    ensures Lookup(pods, name) == Some(i)
    decreases i
  {
    if i > 0 {
      assert pods[0].podName != name;
      forall j | 0 <= j < i - 1 ensures pods[1..][j].podName != name {
        assert pods[1..][j] == pods[j + 1];
      }
      LookupFirst(pods[1..], name, i - 1);
    }
  }

  /** A new name appends exactly one fresh record at the end and answers 201 with it. */
  lemma RegisterFresh(pods: seq<Pod>, m: Message)
    requires forall j :: 0 <= j < |pods| ==> pods[j].podName != m.podName
    ensures Registered(pods, Bound(m)) == pods + [Pod(false, "", m.podName, m.podAddress)]
    ensures RegisterAnswer(pods, Bound(m)) == Created(Pod(false, "", m.podName, m.podAddress))
  {
  }

  /** A failed bind changes nothing and answers 400. */
  lemma RegisterBindFailed(pods: seq<Pod>)
    ensures Registered(pods, BindFailed) == pods && RegisterAnswer(pods, BindFailed) == BadRequest
  {
  }

  /** Registration keeps at most one record per pod name. */
  lemma RegisterKeepsUnique(pods: seq<Pod>, bind: BindResult)
    requires UniqueNames(pods)
    ensures UniqueNames(Registered(pods, bind))
  {
    var r := Registered(pods, bind);
    if bind.Bound? && Lookup(pods, bind.message.podName).None? {
      forall i, j | 0 <= i < j < |r| ensures r[i].podName != r[j].podName {
        if j == |pods| {
          assert r[j] == NewPod(bind.message);
        }
      }
    }
  }

  /** Registering the same request twice: the second answers 200, not new, and appends nothing. */
  lemma RegisterTwice(pods: seq<Pod>, m: Message)
    ensures var once := Registered(pods, Bound(m));
            && Registered(once, Bound(m)) == once
            && RegisterAnswer(once, Bound(m)).Known?
            && !RegisterAnswer(once, Bound(m)).message.isNew
  {
    var once := Registered(pods, Bound(m));
    if Lookup(pods, m.podName).None? {
      assert once[|pods|].podName == m.podName;
    }
    assert Lookup(once, m.podName).Some?;
  }

  /** Marking a registered name makes a later registration report the pod as migrating. */
  lemma MarkThenRegister(pods: seq<Pod>, m: Message)
    requires Lookup(pods, m.podName).Some?
    ensures RegisterAnswer(MarkMigrating(pods, m.podName), Bound(m))
              == Known(Message(m.podName, m.podAddress, false, true))
  {
    var marked := MarkMigrating(pods, m.podName);
    var i := Lookup(pods, m.podName).value;
    assert marked[i].podName == m.podName;
    forall j | 0 <= j < i ensures marked[j].podName != m.podName {
      assert marked[j] == pods[j];
    }
    RegisterKnown(marked, m, i);
  }

  /**
   * As written, MigratePod leaves the registry unchanged, so a pod registered and then migrated
   * is still reported as not migrating when it registers again.
   */
  lemma MigrationNotReported()
    ensures var pods := Registered([], Bound(Message("web", "10.0.0.7", true, false)));
            RegisterAnswer(pods, Bound(Message("web", "10.0.0.7", true, false)))
              == Known(Message("web", "10.0.0.7", false, false))
  {
    var m := Message("web", "10.0.0.7", true, false);
    RegisterFresh([], m);
    RegisterKnown([NewPod(m)], m, 0);
  }

  // ---------------------------------------------------------------------------------------
  // The migration sequence

  /** One thing migrate does, in the order it does it. */
  datatype Step =
    | LogError(text: string)
    | LogInfo(text: string)
    | FetchNode(node: string)
    | WriteLabels(node: string, entries: map<string, string>, result: LabelState)
    | ScaleUpStep(deployment: string, replicas: int32, failed: bool)
    | DeletePodStep(pod: string, failed: bool)
    | Panic(reason: string)

  /** The node as FindNode hands it to AddNodeLabels. */
  function Fetched(clientset: Cluster, node: string): LabelState {
    var r := if node in clientset.nodes then clientset.nodes[node] else NodeRecord(None, None);
    LabelState(r.labels, r.annotations, false)
  }

  /** The error migrate logs when a parameter is empty. */
  function MissingParameters(deployment: string, nodeLabel: string, currentNode: string, destNode: string): string {
    "Missing parameters: " + deployment + " " + nodeLabel + " " + currentNode + " " + destNode + "\n"
  }

  const LabelFormatError := "incorrect label format. Use: label:content"
  const NilMapPanic := "assignment to entry in nil map"
  const IndexPanic := "index out of range"

  /** The error logged when a parameter is empty, or nothing. */
  function ParameterCheck(deployment: string, nodeLabel: string, currentNode: string, destNode: string): seq<Step> {
    if "" in [deployment, nodeLabel, currentNode, destNode]
    then [LogError(MissingParameters(deployment, nodeLabel, currentNode, destNode))] else []
  }

  /** The error logged when the label does not split into two pieces, or nothing. */
  function FormatCheck(parts: seq<string>): seq<Step> {
    if |parts| != 2 then [LogError(LabelFormatError)] else []
  }

  /** The scale-up and the deletion, each followed by the log line its (inverted) result selects. */
  function ScaleAndDelete(clientset: Cluster, deployment: string): seq<Step> {
    var up := deployment in clientset.updateFails;
    var del := deployment in clientset.deleteFails;
    [ScaleUpStep(deployment, Wrap32(clientset.FetchedReplicas(deployment) as int + 1), up),
     if up then LogInfo("Scale up executed") else LogError("scale up error"),
     DeletePodStep(deployment, del),
     if del then LogInfo("Delete pod executed") else LogError("delete pod error")]
  }

  /** The destination label write, then, unless it panicked, the scale-up and the deletion. */
  function DestinationOnward(clientset: Cluster, deployment: string, key: string, value: string,
                             destNode: string): seq<Step> {
    var put := WriteEntry(Fetched(clientset, destNode), key, value);
    [WriteLabels(destNode, map[key := value], put)]
    + (if put.panicked then [Panic(NilMapPanic)] else ScaleAndDelete(clientset, deployment))
  }

  /** The origin label write, then the indexing of the second piece, then the rest. */
  function OriginOnward(clientset: Cluster, deployment: string, parts: seq<string>,
                        currentNode: string, destNode: string): seq<Step>
    requires |parts| >= 1
  {
    var cut := WriteEntry(Fetched(clientset, currentNode), parts[0], "");
    [WriteLabels(currentNode, map[parts[0] := ""], cut)]
    + (if cut.panicked then [Panic(NilMapPanic)]
       else if |parts| < 2 then [Panic(IndexPanic)]
       else DestinationOnward(clientset, deployment, parts[0], parts[1], destNode))
  }

  /**
   * migrate: the two validation logs, the two node fetches, the label writes on the origin and
   * the destination, the scale-up and the pod deletion, each followed by its log line. Nothing
   * stops at a validation failure; only a panic (a nil map, a label without ':') cuts it short.
   */
  function MigrateTrace(clientset: Cluster, deployment: string, nodeLabel: string, currentNode: string,
                        destNode: string): seq<Step>
  {
    var parts := GoStrings.Split(nodeLabel, ':');
    ParameterCheck(deployment, nodeLabel, currentNode, destNode)
    + [FetchNode(currentNode), FetchNode(destNode)]
    + FormatCheck(parts)
    + OriginOnward(clientset, deployment, parts, currentNode, destNode)
  }

  /** Whether migrate gets past both label writes to the scale-up. */
  predicate ReachesScaling(clientset: Cluster, nodeLabel: string, currentNode: string, destNode: string) {
    var parts := GoStrings.Split(nodeLabel, ':');
    && |parts| >= 2
    && !WriteEntry(Fetched(clientset, currentNode), parts[0], "").panicked
    && !WriteEntry(Fetched(clientset, destNode), parts[0], parts[1]).panicked
  }

  /** The requests migrate sends: the two node fetches, then the scale and delete requests if reached. */
  function MigrateRequests(clientset: Cluster, deployment: string, nodeLabel: string, currentNode: string,
                           destNode: string): seq<Call>
  {
    [GetNode(currentNode), GetNode(destNode)]
    + if ReachesScaling(clientset, nodeLabel, currentNode, destNode)
      then [GetScale(Namespace, deployment),
            UpdateScale(Namespace, deployment, Wrap32(clientset.FetchedReplicas(deployment) as int + 1)),
            DeletePodCall(Namespace, deployment)]
      else []
  }

  /** Every namespaced request migrate sends goes to the `mig-ready` namespace. */
  lemma MigrateRequestsInNamespace(clientset: Cluster, deployment: string, nodeLabel: string,
                                   currentNode: string, destNode: string)
    ensures AllInNamespace(MigrateRequests(clientset, deployment, nodeLabel, currentNode, destNode))
  {
  }

  /** migrate runs to its end exactly when it reaches the scale-up. */
  lemma ReachesScalingIffNoPanic(clientset: Cluster, deployment: string, nodeLabel: string,
                                 currentNode: string, destNode: string)
    ensures ReachesScaling(clientset, nodeLabel, currentNode, destNode)
            <==> !Panicked(MigrateTrace(clientset, deployment, nodeLabel, currentNode, destNode))
  {
    var parts := GoStrings.Split(nodeLabel, ':');
    var tail := OriginOnward(clientset, deployment, parts, currentNode, destNode);
    var head := ParameterCheck(deployment, nodeLabel, currentNode, destNode)
                + [FetchNode(currentNode), FetchNode(destNode)] + FormatCheck(parts);
    assert MigrateTrace(clientset, deployment, nodeLabel, currentNode, destNode) == head + tail;
    assert (head + tail)[|head + tail| - 1] == tail[|tail| - 1];
  }

  /** Whether the trace ends in a panic. */
  predicate Panicked(trace: seq<Step>) {
    trace != [] && trace[|trace| - 1].Panic?
  }

  /** The cluster operations of a trace, without its log lines. */
  function Operations(trace: seq<Step>): (r: seq<Step>)
    ensures forall i :: 0 <= i < |r| ==> !r[i].LogError? && !r[i].LogInfo?
    decreases |trace|
  {
    if trace == [] then []
    else
      var last := trace[|trace| - 1];
      Operations(trace[..|trace| - 1]) + (if last.LogError? || last.LogInfo? then [] else [last])
  }

  lemma {:induction false} OperationsAppend(a: seq<Step>, b: seq<Step>)
    ensures Operations(a + b) == Operations(a) + Operations(b)
    decreases |b|
  {
    if b == [] {
      assert a + b == a;
    } else {
      var b' := b[..|b| - 1];
      assert (a + b)[..|a + b| - 1] == a + b';
      assert (a + b)[|a + b| - 1] == b[|b| - 1];
      OperationsAppend(a, b');
    }
  }

  lemma {:induction false} OperationsOfLogs(t: seq<Step>)
    requires forall i :: 0 <= i < |t| ==> t[i].LogError? || t[i].LogInfo?
    ensures Operations(t) == []
    decreases |t|
  {
    if t != [] {
      OperationsOfLogs(t[..|t| - 1]);
    }
  }

  lemma {:induction false} OperationsOfOps(t: seq<Step>)
    requires forall i :: 0 <= i < |t| ==> !t[i].LogError? && !t[i].LogInfo?
    ensures Operations(t) == t
    decreases |t|
  {
    if t != [] {
      OperationsOfOps(t[..|t| - 1]);
      assert t[..|t| - 1] + [t[|t| - 1]] == t;
    }
  }

  /** A node whose label and annotation maps both exist. */
  predicate Writable(clientset: Cluster, node: string) {
    node in clientset.nodes && clientset.nodes[node].labels.Some? && clientset.nodes[node].annotations.Some?
  }

  /** A label with exactly one ':' splits into the pieces around it. */
  lemma SplitLabel(key: string, value: string)
    requires ':' !in key && ':' !in value
    ensures GoStrings.Split(key + ":" + value, ':') == [key, value]
  {
    GoStrings.SplitJoin([key, value], ':');
    assert GoStrings.Join([key, value], ':') == key + ":" + value;
  }

  /** The scaling steps without their log lines. */
  lemma ScaleOperations(clientset: Cluster, deployment: string)
    ensures Operations(ScaleAndDelete(clientset, deployment)) ==
              [ScaleUpStep(deployment, Wrap32(clientset.FetchedReplicas(deployment) as int + 1),
                           deployment in clientset.updateFails),
               DeletePodStep(deployment, deployment in clientset.deleteFails)]
  {
    var t := ScaleAndDelete(clientset, deployment);
    assert t == [t[0]] + [t[1]] + [t[2]] + [t[3]];
    OperationsOfOps([t[0]]);
    OperationsOfLogs([t[1]]);
    OperationsOfOps([t[2]]);
    OperationsOfLogs([t[3]]);
    OperationsAppend([t[0]], [t[1]]);
    OperationsAppend([t[0]] + [t[1]], [t[2]]);
    OperationsAppend([t[0]] + [t[1]] + [t[2]], [t[3]]);
  }

  /** Without a nil map, the steps after the origin write are the destination write and the scaling. */
  lemma OnwardOperations(clientset: Cluster, deployment: string, key: string, value: string,
                         currentNode: string, destNode: string)
    requires Writable(clientset, currentNode) && Writable(clientset, destNode)
    ensures var tail := OriginOnward(clientset, deployment, [key, value], currentNode, destNode);
            && !Panicked(tail)
            && Operations(tail) ==
                 [WriteLabels(currentNode, map[key := ""], WriteEntry(Fetched(clientset, currentNode), key, "")),
                  WriteLabels(destNode, map[key := value], WriteEntry(Fetched(clientset, destNode), key, value)),
                  ScaleUpStep(deployment, Wrap32(clientset.FetchedReplicas(deployment) as int + 1),
                              deployment in clientset.updateFails),
                  DeletePodStep(deployment, deployment in clientset.deleteFails)]
  {
    var cutStep := WriteLabels(currentNode, map[key := ""], WriteEntry(Fetched(clientset, currentNode), key, ""));
    var putStep := WriteLabels(destNode, map[key := value], WriteEntry(Fetched(clientset, destNode), key, value));
    var scaling := ScaleAndDelete(clientset, deployment);
    var rest := DestinationOnward(clientset, deployment, key, value, destNode);
    assert rest == [putStep] + scaling;
    var tail := OriginOnward(clientset, deployment, [key, value], currentNode, destNode);
    assert tail == [cutStep] + rest;
    assert tail[|tail| - 1] == scaling[3];
    ScaleOperations(clientset, deployment);
    OperationsOfOps([putStep]);
    OperationsOfOps([cutStep]);
    OperationsAppend([putStep], scaling);
    OperationsAppend([cutStep], rest);
    assert Operations(tail) == [cutStep] + ([putStep] + Operations(scaling));
  }

  /**
   * With writable nodes and a label with exactly one ':', migrate performs, in order: fetch the
   * origin and the destination, blank the label on the origin, set it on the destination, scale
   * up, delete the pod; whatever the validation logged.
   */
  lemma MigrateOrder(clientset: Cluster, deployment: string, key: string, value: string,
                     currentNode: string, destNode: string)
    requires ':' !in key && ':' !in value
    requires Writable(clientset, currentNode) && Writable(clientset, destNode)
    ensures var trace := MigrateTrace(clientset, deployment, key + ":" + value, currentNode, destNode);
            && !Panicked(trace)
            && Operations(trace) ==
                 [FetchNode(currentNode), FetchNode(destNode),
                  WriteLabels(currentNode, map[key := ""], WriteEntry(Fetched(clientset, currentNode), key, "")),
                  WriteLabels(destNode, map[key := value], WriteEntry(Fetched(clientset, destNode), key, value)),
                  ScaleUpStep(deployment, Wrap32(clientset.FetchedReplicas(deployment) as int + 1),
                              deployment in clientset.updateFails),
                  DeletePodStep(deployment, deployment in clientset.deleteFails)]
  {
    var check := ParameterCheck(deployment, key + ":" + value, currentNode, destNode);
    var fetches := [FetchNode(currentNode), FetchNode(destNode)];
    var tail := OriginOnward(clientset, deployment, [key, value], currentNode, destNode);
    LabelledTrace(clientset, deployment, key, value, currentNode, destNode);
    OnwardOperations(clientset, deployment, key, value, currentNode, destNode);
    TraceAfterChecks(check, fetches, tail);
    var ops := Operations(tail);
    assert fetches + ops == [fetches[0], fetches[1], ops[0], ops[1], ops[2], ops[3]];
  }

  /** Log lines before the operations of a trace drop out of its operations and do not end it. */
  lemma TraceAfterChecks(logs: seq<Step>, ops: seq<Step>, tail: seq<Step>)
    requires forall i :: 0 <= i < |logs| ==> logs[i].LogError? || logs[i].LogInfo?
    requires forall i :: 0 <= i < |ops| ==> !ops[i].LogError? && !ops[i].LogInfo?
    requires tail != []
    ensures Operations(logs + ops + tail) == ops + Operations(tail)
    ensures Panicked(logs + ops + tail) == Panicked(tail)
  {
    PanickedAppend(logs + ops, tail);
    OperationsOfLogs(logs);
    OperationsOfOps(ops);
    OperationsAppend(logs, ops);
    assert Operations(logs + ops) == [] + ops == ops;
    OperationsAppend(logs + ops, tail);
  }

  /** With a label "key:value", the trace is the checks, the fetches and the writes onward. */
  lemma LabelledTrace(clientset: Cluster, deployment: string, key: string, value: string,
                      currentNode: string, destNode: string)
    requires ':' !in key && ':' !in value
    ensures MigrateTrace(clientset, deployment, key + ":" + value, currentNode, destNode)
            == ParameterCheck(deployment, key + ":" + value, currentNode, destNode)
               + [FetchNode(currentNode), FetchNode(destNode)]
               + OriginOnward(clientset, deployment, [key, value], currentNode, destNode)
  {
    SplitLabel(key, value);
    assert FormatCheck([key, value]) == [];
  }

  /** Whether a trace ends in a panic depends only on a non-empty suffix. */
  lemma PanickedAppend(a: seq<Step>, b: seq<Step>)
    requires b != []
    ensures Panicked(a + b) == Panicked(b)
  {
    assert (a + b)[|a + b| - 1] == b[|b| - 1];
  }

  /** The label check passes exactly for labels with one ':'. */
  lemma LabelCheckPasses(nodeLabel: string)
    ensures |GoStrings.Split(nodeLabel, ':')| == 2 <==> GoStrings.Count(nodeLabel, ':') == 1
  {
    GoStrings.SplitCount(nodeLabel, ':');
  }

  /**
   * As MigratePod calls it, with the label "mig-ready": the format check logs, the origin label
   * is blanked, then indexing the missing second piece panics. No scale-up and no deletion
   * request is ever sent.
   */
  lemma MigrateAsCalledPanics(clientset: Cluster, deployment: string, currentNode: string, destNode: string)
    ensures var trace := MigrateTrace(clientset, deployment, Namespace, currentNode, destNode);
            && Panicked(trace)
            && LogError(LabelFormatError) in trace
            && !ReachesScaling(clientset, Namespace, currentNode, destNode)
            && MigrateRequests(clientset, deployment, Namespace, currentNode, destNode)
               == [GetNode(currentNode), GetNode(destNode)]
  {
    GoStrings.SplitCount(Namespace, ':');
    assert GoStrings.Count(Namespace, ':') == 0;
    var parts := GoStrings.Split(Namespace, ':');
    assert |parts| == 1;
    MigrateStopsAtOrigin(clientset, deployment, Namespace, currentNode, destNode);
    var check := ParameterCheck(deployment, Namespace, currentNode, destNode);
    assert MigrateHead(deployment, Namespace, currentNode, destNode)
           == check + [FetchNode(currentNode), FetchNode(destNode), LogError(LabelFormatError)];
    assert MigrateTrace(clientset, deployment, Namespace, currentNode, destNode)[|check| + 2] == LogError(LabelFormatError);
  }

  /** The result of ScaleUp is inverted: migrate logs "Scale up executed" exactly when the update failed. */
  lemma ScaleUpLogInverted(clientset: Cluster, deployment: string, key: string, value: string,
                           currentNode: string, destNode: string)
    requires ':' !in key && ':' !in value
    requires Writable(clientset, currentNode) && Writable(clientset, destNode)
    ensures var trace := MigrateTrace(clientset, deployment, key + ":" + value, currentNode, destNode);
            (LogInfo("Scale up executed") in trace <==> deployment in clientset.updateFails)
  {
    var nodeLabel := key + ":" + value;
    SplitLabel(key, value);
    var check := ParameterCheck(deployment, nodeLabel, currentNode, destNode);
    var fetches := [FetchNode(currentNode), FetchNode(destNode)];
    var tail := OriginOnward(clientset, deployment, [key, value], currentNode, destNode);
    assert FormatCheck([key, value]) == [];
    var trace := check + fetches + tail;
    assert MigrateTrace(clientset, deployment, nodeLabel, currentNode, destNode) == trace;
    var up := deployment in clientset.updateFails;
    assert tail[3] == (if up then LogInfo("Scale up executed") else LogError("scale up error"));
    if up {
      assert trace[|check| + 2 + 3] == LogInfo("Scale up executed");
    } else {
      forall i | 0 <= i < |trace| ensures trace[i] != LogInfo("Scale up executed") {
        if i >= |check| + 2 { assert trace[i] == tail[i - |check| - 2]; }
      }
    }
  }

  // ---------------------------------------------------------------------------------------
  // Imperative operations

  /** containsEmpty: whether any argument is the empty string. */
  method ContainsEmpty(ss: seq<string>) returns (r: bool)
    ensures r <==> exists i :: 0 <= i < |ss| && ss[i] == ""
  {
    for i := 0 to |ss|
      invariant forall j :: 0 <= j < i ==> ss[j] != ""
    {
      if ss[i] == "" {
        return true;
      }
    }
    return false;
  }

  /** AddNodeLabels on a one-entry map performs exactly one iteration. */
  lemma SingleWrite(s: LabelState, name: string, value: string, order: seq<string>)
    requires Visits(order, map[name := value])
    ensures WriteAll(s, map[name := value], order) == WriteEntry(s, name, value)
  {
    VisitsSingle(order, name, value);
    assert order[..0] == [];
  }

  /** What migrate does before its first label write. */
  function MigrateHead(deployment: string, nodeLabel: string, currentNode: string, destNode: string): seq<Step> {
    ParameterCheck(deployment, nodeLabel, currentNode, destNode)
    + [FetchNode(currentNode), FetchNode(destNode)]
    + FormatCheck(GoStrings.Split(nodeLabel, ':'))
  }

  /** migrate stopped by the origin write or the missing second piece. */
  lemma MigrateStopsAtOrigin(clientset: Cluster, deployment: string, nodeLabel: string,
                             currentNode: string, destNode: string)
    requires var parts := GoStrings.Split(nodeLabel, ':');
             WriteEntry(Fetched(clientset, currentNode), parts[0], "").panicked || |parts| < 2
    ensures var parts := GoStrings.Split(nodeLabel, ':');
            var cut := WriteEntry(Fetched(clientset, currentNode), parts[0], "");
            && MigrateTrace(clientset, deployment, nodeLabel, currentNode, destNode)
               == MigrateHead(deployment, nodeLabel, currentNode, destNode)
                  + [WriteLabels(currentNode, map[parts[0] := ""], cut),
                     if cut.panicked then Panic(NilMapPanic) else Panic(IndexPanic)]
            && MigrateRequests(clientset, deployment, nodeLabel, currentNode, destNode)
               == [GetNode(currentNode), GetNode(destNode)]
  {
  }

  /** migrate stopped by the destination write. */
  lemma MigrateStopsAtDestination(clientset: Cluster, deployment: string, nodeLabel: string,
                                  currentNode: string, destNode: string)
    requires var parts := GoStrings.Split(nodeLabel, ':');
             && |parts| >= 2
             && !WriteEntry(Fetched(clientset, currentNode), parts[0], "").panicked
             && WriteEntry(Fetched(clientset, destNode), parts[0], parts[1]).panicked
    ensures var parts := GoStrings.Split(nodeLabel, ':');
            && MigrateTrace(clientset, deployment, nodeLabel, currentNode, destNode)
               == MigrateHead(deployment, nodeLabel, currentNode, destNode)
                  + [WriteLabels(currentNode, map[parts[0] := ""], WriteEntry(Fetched(clientset, currentNode), parts[0], "")),
                     WriteLabels(destNode, map[parts[0] := parts[1]],
                                 WriteEntry(Fetched(clientset, destNode), parts[0], parts[1])),
                     Panic(NilMapPanic)]
            && MigrateRequests(clientset, deployment, nodeLabel, currentNode, destNode)
               == [GetNode(currentNode), GetNode(destNode)]
  {
  }

  /** migrate run to its end. */
  lemma MigrateCompletes(clientset: Cluster, deployment: string, nodeLabel: string,
                         currentNode: string, destNode: string)
    requires ReachesScaling(clientset, nodeLabel, currentNode, destNode)
    ensures var parts := GoStrings.Split(nodeLabel, ':');
            && MigrateTrace(clientset, deployment, nodeLabel, currentNode, destNode)
               == MigrateHead(deployment, nodeLabel, currentNode, destNode)
                  + [WriteLabels(currentNode, map[parts[0] := ""], WriteEntry(Fetched(clientset, currentNode), parts[0], "")),
                     WriteLabels(destNode, map[parts[0] := parts[1]],
                                 WriteEntry(Fetched(clientset, destNode), parts[0], parts[1]))]
                  + ScaleAndDelete(clientset, deployment)
    ensures MigrateRequests(clientset, deployment, nodeLabel, currentNode, destNode)
            == [GetNode(currentNode), GetNode(destNode)]
               + [GetScale(Namespace, deployment),
                  UpdateScale(Namespace, deployment, Wrap32(clientset.FetchedReplicas(deployment) as int + 1)),
                  DeletePodCall(Namespace, deployment)]
  {
  }

  /** Regroups the request log as Migrate appends it into the shape MigrateRequests gives. */
  lemma CallsRegroup(calls: seq<Call>, a: Call, b: Call, c: Call, d: Call, e: Call)
    ensures calls + [a] + [b] + [c, d] + [e] == calls + ([a, b] + [c, d, e])
  {
  }

  /** migrate, against a clientset oracle. */
  method Migrate(clientset: Cluster, deployment: string, nodeLabel: string, currentNode: string, destNode: string)
    returns (trace: seq<Step>)
    modifies clientset
    ensures trace == MigrateTrace(clientset, deployment, nodeLabel, currentNode, destNode)
    ensures clientset.calls == old(clientset.calls) + MigrateRequests(clientset, deployment, nodeLabel, currentNode, destNode)
  {
    var check := [];
    var missing := ContainsEmpty([deployment, nodeLabel, currentNode, destNode]);
    assert missing <==> "" in [deployment, nodeLabel, currentNode, destNode];
    if missing {
      check := [LogError(MissingParameters(deployment, nodeLabel, currentNode, destNode))];
    }
    var cNode := FindNode(clientset, currentNode);
    var dNode := FindNode(clientset, destNode);
    var parts := GoStrings.Split(nodeLabel, ':');
    var format := [];
    if |parts| != 2 {
      format := [LogError(LabelFormatError)];
    }
    var head := check + [FetchNode(currentNode), FetchNode(destNode)] + format;
    assert head == MigrateHead(deployment, nodeLabel, currentNode, destNode);

    var origin := map[parts[0] := ""];
    var panicked;
    ghost var order;
    panicked, order := AddNodeLabels(cNode, origin);
    SingleWrite(Fetched(clientset, currentNode), parts[0], "", order);
    var cut := LabelState(cNode.labels, cNode.annotations, panicked);
    if panicked || |parts| < 2 {
      trace := head + [WriteLabels(currentNode, origin, cut), if panicked then Panic(NilMapPanic) else Panic(IndexPanic)];
      MigrateStopsAtOrigin(clientset, deployment, nodeLabel, currentNode, destNode);
      return;
    }
    var dest := map[parts[0] := parts[1]];
    ghost var order2;
    panicked, order2 := AddNodeLabels(dNode, dest);
    SingleWrite(Fetched(clientset, destNode), parts[0], parts[1], order2);
    var put := LabelState(dNode.labels, dNode.annotations, panicked);
    if panicked {
      trace := head + [WriteLabels(currentNode, origin, cut), WriteLabels(destNode, dest, put), Panic(NilMapPanic)];
      MigrateStopsAtDestination(clientset, deployment, nodeLabel, currentNode, destNode);
      return;
    }
    var replicas := Wrap32(clientset.FetchedReplicas(deployment) as int + 1);
    var up := ScaleUp(clientset, deployment);
    var upLog := if up then LogInfo("Scale up executed") else LogError("scale up error");
    var del := DeletePod(clientset, deployment);
    var delLog := if del then LogInfo("Delete pod executed") else LogError("delete pod error");
    trace := head + [WriteLabels(currentNode, origin, cut), WriteLabels(destNode, dest, put)]
             + [ScaleUpStep(deployment, replicas, up), upLog, DeletePodStep(deployment, del), delLog];
    MigrateCompletes(clientset, deployment, nodeLabel, currentNode, destNode);
    CallsRegroup(old(clientset.calls), GetNode(currentNode), GetNode(destNode), GetScale(Namespace, deployment),
                 UpdateScale(Namespace, deployment, replicas), DeletePodCall(Namespace, deployment));
  }

  /** The panic of a method call through a nil interface or a field read through a nil pointer. */
  const NilPointerPanic := "invalid memory address or nil pointer dereference"

  /** c.Param: the value of a path parameter, or "" when the matched route declares none of that name. */
  function Param(params: map<string, string>, name: string): string {
    if name in params then params[name] else ""
  }

  /** The path parameters of the route go-server/main.go registers for MigratePod: "/migrate" has none. */
  const MigrateRoute: map<string, string> := map[]

  /**
   * On the registered route all three parameters MigratePod reads are empty, so a migrate it
   * reached would log "Missing parameters" before anything else.
   */
  lemma MigrateRouteParametersEmpty(clientset: Cluster)
    ensures Param(MigrateRoute, "deployment") == Param(MigrateRoute, "originNode") == Param(MigrateRoute, "destNode") == ""
    ensures MigrateTrace(clientset, "", Namespace, "", "")[0] == LogError(MissingParameters("", Namespace, "", ""))
  {
    assert ParameterCheck("", Namespace, "", "") == [LogError(MissingParameters("", Namespace, "", ""))];
  }

  /** The package state of manager.go: the global slice of registered pods and the global clientset. */
  class Registry {
    var pods: seq<Pod>
    /** The package-level clientset: nil until migrate assigns it. */
    var clientset: Cluster?

    constructor ()
      ensures pods == [] && clientset == null
    {
      pods := [];
      clientset := null;
    }

    /** RegisterPod: answers a known name from its record, or appends a fresh record. */
    method RegisterPod(bind: BindResult) returns (reply: RegisterReply)
      modifies this
      ensures pods == Registered(old(pods), bind)
      ensures reply == RegisterAnswer(old(pods), bind)
      ensures clientset == old(clientset)
    {
      if bind.BindFailed? {
        return BadRequest;
      }
      var message := bind.message;
      for i := 0 to |pods|
        invariant forall j :: 0 <= j < i ==> pods[j].podName != message.podName
      {
        var a := pods[i];
        if a.podName == message.podName {
          reply := Known(Message(message.podName, message.podAddress, false, a.mig));
          return;
        }
      }
      var newPod := Pod(false, "", message.podName, message.podAddress);
      pods := pods + [newPod];
      reply := Created(newPod);
    }

    /**
     * MigratePod, the whole handler. `params` are the matched route's parameters, `interOk` says
     * whether expK8sClient built a client, and `made` is the clientset kubernetes.NewForConfig
     * makes inside migrate. Listing the pods through a nil `inter`, or through the package
     * clientset before migrate has assigned it, dereferences nil; gin's recovery answers 500.
     */
    method MigratePod(params: map<string, string>, interOk: bool, made: Cluster)
      returns (reply: MigrateReply, trace: seq<Step>)
      modifies this, made
      ensures pods == old(pods)
      ensures !interOk || old(clientset) == null ==>
                && reply == Recovered && trace == [Panic(NilPointerPanic)]
                && clientset == old(clientset) && made.calls == old(made.calls)
      ensures interOk && old(clientset) != null ==>
                var deployment := Param(params, "deployment");
                var originNode := Param(params, "originNode");
                var destNode := Param(params, "destNode");
                && (reply.NotFound? <==> Lookup(pods, deployment).None?)
                && (reply.NotFound? ==>
                      && reply.body == "Pod doesn't exist" && trace == []
                      && clientset == old(clientset) && made.calls == old(made.calls))
                && (!reply.NotFound? ==>
                      && clientset == made
                      && trace == MigrateTrace(made, deployment, Namespace, originNode, destNode)
                      && made.calls == old(made.calls) + MigrateRequests(made, deployment, Namespace, originNode, destNode)
                      && (reply == if Panicked(trace) then Recovered else Migrated(true)))
    {
      var podName := Param(params, "deployment");
      var origin := Param(params, "originNode");
      var dest := Param(params, "destNode");
      if !interOk {
        return Recovered, [Panic(NilPointerPanic)];
      }
      if clientset == null {
        return Recovered, [Panic(NilPointerPanic)];
      }
      reply, trace := LookupAndMigrate(podName, origin, dest, made);
    }

    /** MigratePod with the package clientset assigned before the pods are listed, as evidently intended. */
    method MigratePodWithClient(params: map<string, string>, interOk: bool, made: Cluster)
      returns (reply: MigrateReply, trace: seq<Step>)
      modifies this, made
      ensures pods == old(pods)
      ensures !interOk ==>
                && reply == Recovered && trace == [Panic(NilPointerPanic)]
                && clientset == old(clientset) && made.calls == old(made.calls)
      ensures interOk ==>
                var deployment := Param(params, "deployment");
                var originNode := Param(params, "originNode");
                var destNode := Param(params, "destNode");
                && clientset == made
                && (reply.NotFound? <==> Lookup(pods, deployment).None?)
                && (reply.NotFound? ==> reply.body == "Pod doesn't exist" && trace == [] && made.calls == old(made.calls))
                && (!reply.NotFound? ==>
                      && trace == MigrateTrace(made, deployment, Namespace, originNode, destNode)
                      && made.calls == old(made.calls) + MigrateRequests(made, deployment, Namespace, originNode, destNode)
                      && (reply == if Panicked(trace) then Recovered else Migrated(true)))
    {
      var podName := Param(params, "deployment");
      var origin := Param(params, "originNode");
      var dest := Param(params, "destNode");
      if !interOk {
        return Recovered, [Panic(NilPointerPanic)];
      }
      clientset := made;
      reply, trace := LookupAndMigrate(podName, origin, dest, made);
    }

    /**
     * The handler from the lookup on, as written: the loop sets the flag on its per-iteration copy
     * only, so the registry is left untouched; an unknown name answers 404 without migrating;
     * otherwise migrate assigns the package clientset and runs with the label "mig-ready".
     */
    method LookupAndMigrate(deployment: string, originNode: string, destNode: string, made: Cluster)
      returns (reply: MigrateReply, trace: seq<Step>)
      modifies this, made
      ensures pods == old(pods)
      ensures reply.NotFound? <==> Lookup(pods, deployment).None?
      ensures reply.NotFound? ==>
                reply.body == "Pod doesn't exist" && trace == [] && clientset == old(clientset) && made.calls == old(made.calls)
      ensures !reply.NotFound? ==>
                && clientset == made
                && trace == MigrateTrace(made, deployment, Namespace, originNode, destNode)
                && made.calls == old(made.calls) + MigrateRequests(made, deployment, Namespace, originNode, destNode)
                && (reply == if Panicked(trace) then Recovered else Migrated(true))
    {
      var podExist := false;
      for i := 0 to |pods|
        invariant podExist <==> exists j :: 0 <= j < i && pods[j].podName == deployment
      {
        var a := pods[i];
        if a.podName == deployment {
          a, podExist := a.(mig := true), true;
        }
      }
      if !podExist {
        return NotFound("Pod doesn't exist"), [];
      }
      clientset := made;
      trace := Migrate(made, deployment, Namespace, originNode, destNode);
      reply := if Panicked(trace) then Recovered else Migrated(true);
    }

    /** LookupAndMigrate with the flag set on the stored records, as the loop evidently intends. */
    method LookupAndMigrateMarked(deployment: string, originNode: string, destNode: string, made: Cluster)
      returns (reply: MigrateReply, trace: seq<Step>)
      modifies this, made
      ensures pods == MarkMigrating(old(pods), deployment)
      ensures reply.NotFound? <==> Lookup(old(pods), deployment).None?
      ensures reply.NotFound? ==>
                reply.body == "Pod doesn't exist" && trace == [] && clientset == old(clientset) && made.calls == old(made.calls)
      ensures !reply.NotFound? ==>
                && clientset == made
                && trace == MigrateTrace(made, deployment, Namespace, originNode, destNode)
                && made.calls == old(made.calls) + MigrateRequests(made, deployment, Namespace, originNode, destNode)
                && (reply == if Panicked(trace) then Recovered else Migrated(true))
    {
      var podExist := false;
      ghost var original := pods;
      for i := 0 to |pods|
        invariant |pods| == |original| && made.calls == old(made.calls) && clientset == old(clientset)
        invariant forall j :: 0 <= j < |pods| ==> pods[j].podName == original[j].podName
        invariant forall j :: 0 <= j < i ==> pods[j] == MarkMigrating(original, deployment)[j]
        invariant forall j :: i <= j < |pods| ==> pods[j] == original[j]
        invariant podExist <==> exists j :: 0 <= j < i && pods[j].podName == deployment
      {
        if pods[i].podName == deployment {
          pods := pods[i := pods[i].(mig := true)];
          podExist := true;
        }
      }
      assert pods == MarkMigrating(original, deployment);
      if !podExist {
        return NotFound("Pod doesn't exist"), [];
      }
      clientset := made;
      trace := Migrate(made, deployment, Namespace, originNode, destNode);
      reply := if Panicked(trace) then Recovered else Migrated(true);
    }
  }

  /**
   * On a server as started, the package clientset is nil whatever has been registered, so every
   * migration request panics at the pod listing and is answered 500 without reaching the cluster.
   */
  method FreshServerRecovers(binds: seq<BindResult>, params: map<string, string>, interOk: bool, made: Cluster)
    returns (reply: MigrateReply)
    modifies made
    ensures reply == Recovered
    ensures made.calls == old(made.calls)
  {
    var registry := new Registry();
    for i := 0 to |binds|
      invariant fresh(registry) && registry.clientset == null && made.calls == old(made.calls)
    {
      var _ := registry.RegisterPod(binds[i]);
    }
    var trace;
    reply, trace := registry.MigratePod(params, interOk, made);
  }
}
