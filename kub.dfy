/**
 * The controller's cluster-mutation helpers. The Kubernetes clientset is an oracle: a `Cluster`
 * fixes what each request returns and records every request it receives, in order.
 */
module Kub {

  import opened Wrappers

  /** The namespace every namespaced request goes to, and the prefix of every label key. */
  const Namespace := "mig-ready"

  newtype int32 = x: int | -0x8000_0000 <= x < 0x8000_0000

  /** Go's int32 addition: the exact sum, wrapped into the 32-bit two's-complement range. */
  function Wrap32(x: int): (r: int32)
    ensures (r as int - x) % 0x1_0000_0000 == 0
    ensures -0x8000_0000 <= x < 0x8000_0000 ==> r as int == x
  {
    ((x + 0x8000_0000) % 0x1_0000_0000 - 0x8000_0000) as int32
  }

  /** A node as the API server returns it; `None` stands for a nil Go map. */
  datatype NodeRecord = NodeRecord(labels: Option<map<string, string>>, annotations: Option<map<string, string>>)

  /** The requests the clientset receives. */
  datatype Call =
    | GetNode(node: string)
    | GetScale(namespace: string, deployment: string)
    | UpdateScale(namespace: string, deployment: string, replicas: int32)
    | DeletePodCall(namespace: string, pod: string)

  /** A node object in the controller's memory. */
  class Node {
    var labels: Option<map<string, string>>
    var annotations: Option<map<string, string>>

    constructor (r: NodeRecord)
      ensures labels == r.labels && annotations == r.annotations
    {
      labels, annotations := r.labels, r.annotations;
    }
  }

  /**
   * The clientset. A node or scale absent from `nodes` or `scales` makes the Get fail; the
   * deployments in `updateFails` and the pods in `deleteFails` make those requests fail.
   */
  class Cluster {
    const nodes: map<string, NodeRecord>
    const scales: map<string, int32>
    const updateFails: set<string>
    const deleteFails: set<string>
    var calls: seq<Call>

    constructor (nodes: map<string, NodeRecord>, scales: map<string, int32>,
                 updateFails: set<string>, deleteFails: set<string>)
      ensures this.nodes == nodes && this.scales == scales
      ensures this.updateFails == updateFails && this.deleteFails == deleteFails
      ensures calls == []
    {
      this.nodes, this.scales := nodes, scales;
      this.updateFails, this.deleteFails := updateFails, deleteFails;
      calls := [];
    }

    /**
     * The replica count GetScale hands back: the stored one, or 0 from the zero-valued Scale
     * the client returns alongside an error.
     */
    function FetchedReplicas(deployment: string): int32 {
      if deployment in scales then scales[deployment] else 0
    }
  }

  /** Every namespaced request in `calls` goes to `Namespace`. */
  predicate AllInNamespace(calls: seq<Call>) {
    forall i :: 0 <= i < |calls| ==> (calls[i].GetNode? || calls[i].namespace == Namespace)
  }

  lemma AllInNamespaceAppend(calls: seq<Call>, more: seq<Call>)
    requires AllInNamespace(calls) && AllInNamespace(more)
    ensures AllInNamespace(calls + more)
  {
    forall i | 0 <= i < |calls + more|
      ensures (calls + more)[i].GetNode? || (calls + more)[i].namespace == Namespace
    {
      if i >= |calls| { assert (calls + more)[i] == more[i - |calls|]; }
    }
  }

  // ---------------------------------------------------------------------------------------
  // Requests

  /** DeletePod: deletes the pod; the result is true exactly when the client reported an error. */
  method DeletePod(clientset: Cluster, podName: string) returns (failed: bool)
    modifies clientset
    ensures clientset.calls == old(clientset.calls) + [DeletePodCall(Namespace, podName)]
    ensures failed <==> podName in clientset.deleteFails
  {
    clientset.calls := clientset.calls + [DeletePodCall(Namespace, podName)];
    failed := podName in clientset.deleteFails;
  }

  /**
   * ScaleUp: fetches the deployment's scale, writes it back with one more replica (int32, no
   * bound check); true exactly when the update reported an error. A failed fetch is only logged.
   */
  method ScaleUp(clientset: Cluster, deployName: string) returns (failed: bool)
    modifies clientset
    ensures clientset.calls == old(clientset.calls)
              + [GetScale(Namespace, deployName),
                 UpdateScale(Namespace, deployName, Wrap32(clientset.FetchedReplicas(deployName) as int + 1))]
    ensures failed <==> deployName in clientset.updateFails
  {
    clientset.calls := clientset.calls + [GetScale(Namespace, deployName)];
    var replicas := clientset.FetchedReplicas(deployName);
    replicas := Wrap32(replicas as int + 1);
    clientset.calls := clientset.calls + [UpdateScale(Namespace, deployName, replicas)];
    failed := deployName in clientset.updateFails;
  }

  /** ScaleDown: as ScaleUp with one replica fewer; nothing stops the count going below zero. */
  method ScaleDown(clientset: Cluster, deployName: string) returns (failed: bool)
    modifies clientset
    ensures clientset.calls == old(clientset.calls)
              + [GetScale(Namespace, deployName),
                 UpdateScale(Namespace, deployName, Wrap32(clientset.FetchedReplicas(deployName) as int - 1))]
    ensures failed <==> deployName in clientset.updateFails
  {
    clientset.calls := clientset.calls + [GetScale(Namespace, deployName)];
    var replicas := clientset.FetchedReplicas(deployName);
    replicas := Wrap32(replicas as int - 1);
    clientset.calls := clientset.calls + [UpdateScale(Namespace, deployName, replicas)];
    failed := deployName in clientset.updateFails;
  }

  /** ScaleDown's replica arithmetic undoes ScaleUp's, wrap-around included. */
  lemma ScaleDownUndoesScaleUp(replicas: int32)
    ensures Wrap32(Wrap32(replicas as int + 1) as int - 1) == replicas
  {
    if replicas == 0x7fff_ffff {
      assert Wrap32(replicas as int + 1) == -0x8000_0000;
    }
  }

  /**
   * Nothing bounds the count: scaling down a deployment with no replicas writes -1, and scaling
   * up the largest int32 count wraps to the smallest.
   */
  lemma NoReplicaBounds()
    ensures Wrap32(0 - 1) == -1
    ensures Wrap32(0x7fff_ffff + 1) == -0x8000_0000
  {
  }

  /**
   * FindNode: fetches the node. On an error the client still returns a node object, the zero
   * one, whose label and annotation maps are nil.
   */
  method FindNode(clientset: Cluster, nodeName: string) returns (node: Node)
    modifies clientset
    ensures fresh(node)
    ensures clientset.calls == old(clientset.calls) + [GetNode(nodeName)]
    ensures nodeName in clientset.nodes ==>
              node.labels == clientset.nodes[nodeName].labels && node.annotations == clientset.nodes[nodeName].annotations
    ensures nodeName !in clientset.nodes ==> node.labels.None? && node.annotations.None?
  {
    clientset.calls := clientset.calls + [GetNode(nodeName)];
    var record := if nodeName in clientset.nodes then clientset.nodes[nodeName] else NodeRecord(None, None);
    node := new Node(record);
  }

  // ---------------------------------------------------------------------------------------
  // Node labels

  /** The label key AddNodeLabels writes for `name`. */
  function LabelKey(name: string): string { Namespace + name }

  /** The annotation key AddNodeLabels writes for `name`. */
  function AnnotationKey(name: string): string { Namespace + "-" + Namespace + name }

  lemma PrefixInjective(p: string, a: string, b: string)
    requires p + a == p + b
    ensures a == b
  {
    assert a == (p + a)[|p|..];
    assert b == (p + b)[|p|..];
  }

  /** The labels and annotations of a node as AddNodeLabels leaves them, and whether it panicked. */
  datatype LabelState = LabelState(labels: Option<map<string, string>>, annotations: Option<map<string, string>>,
                                   panicked: bool)

  /**
   * One iteration of AddNodeLabels' loop: the label write, then the annotation write. Writing into
   * a nil map panics, and after a panic nothing more happens.
   */
  function WriteEntry(s: LabelState, name: string, value: string): LabelState {
    if s.panicked then s
    else if s.labels.None? then s.(panicked := true)
    else
      var labels := Some(s.labels.value[LabelKey(name) := value]);
      if s.annotations.None? then LabelState(labels, s.annotations, true)
      else LabelState(labels, Some(s.annotations.value[AnnotationKey(name) := value]), false)
  }

  /** The loop run over the keys of `entries` in the order `order`. */
  function WriteAll(s: LabelState, entries: map<string, string>, order: seq<string>): LabelState
    requires forall i :: 0 <= i < |order| ==> order[i] in entries
    decreases |order|
  {
    if order == [] then s
    else
      var last := order[|order| - 1];
      WriteEntry(WriteAll(s, entries, order[..|order| - 1]), last, entries[last])
  }

  /** `order` visits every key of `entries` exactly once: an order Go's range may choose. */
  predicate Visits(order: seq<string>, entries: map<string, string>) {
    && (forall i :: 0 <= i < |order| ==> order[i] in entries)
    && (forall k :: k in entries ==> k in order)
    && (forall i, j :: 0 <= i < j < |order| ==> order[i] != order[j])
  }

  /** Some order of the elements of `s`. */
  ghost function Enumerate(s: set<string>): (r: seq<string>)
    ensures forall i :: 0 <= i < |r| ==> r[i] in s
    ensures forall k :: k in s ==> k in r
    ensures forall i, j :: 0 <= i < j < |r| ==> r[i] != r[j]
    decreases s
  {
    if s == {} then []
    else
      var x :| x in s;
      var rest := Enumerate(s - {x});
      assert forall k :: k in s ==> k == x || k in rest;
      [x] + rest
  }

  lemma {:induction false} WriteAllPanicked(s: LabelState, entries: map<string, string>, order: seq<string>)
    requires forall i :: 0 <= i < |order| ==> order[i] in entries
    requires s.panicked
    ensures WriteAll(s, entries, order) == s
    decreases |order|
  {
    if order != [] {
      WriteAllPanicked(s, entries, order[..|order| - 1]);
    }
  }

  lemma {:induction false} WriteAllSnoc(s: LabelState, entries: map<string, string>, order: seq<string>, name: string)
    requires forall i :: 0 <= i < |order| ==> order[i] in entries
    requires name in entries
    ensures WriteAll(s, entries, order + [name]) == WriteEntry(WriteAll(s, entries, order), name, entries[name])
  {
    assert (order + [name])[..|order|] == order;
  }

  lemma {:induction false} WriteAllAppend(s: LabelState, entries: map<string, string>, a: seq<string>, b: seq<string>)
    requires forall i :: 0 <= i < |a| ==> a[i] in entries
    requires forall i :: 0 <= i < |b| ==> b[i] in entries
    ensures forall i :: 0 <= i < |a + b| ==> (a + b)[i] in entries
    ensures WriteAll(s, entries, a + b) == WriteAll(WriteAll(s, entries, a), entries, b)
    decreases |b|
  {
    if b != [] {
      var b' := b[..|b| - 1];
      assert (a + b)[..|a + b| - 1] == a + b';
      WriteAllAppend(s, entries, a, b');
    } else {
      assert a + b == a;
    }
  }

  /**
   * AddNodeLabels: for each entry writes the value under its prefixed key into the node's labels
   * and under the doubly prefixed key into its annotations. Only the node object in memory
   * changes; no request reaches the clientset. Go visits a map in no fixed order: the model picks
   * any remaining key, and the result is that of some visiting order.
   */
  method AddNodeLabels(node: Node, labels: map<string, string>) returns (panicked: bool, ghost order: seq<string>)
    modifies node
    ensures Visits(order, labels)
    ensures LabelState(node.labels, node.annotations, panicked)
              == WriteAll(LabelState(old(node.labels), old(node.annotations), false), labels, order)
  {
    ghost var start := LabelState(node.labels, node.annotations, false);
    var remaining := labels.Keys;
    ghost var visited: seq<string> := [];
    while remaining != {}
      invariant forall i :: 0 <= i < |visited| ==> visited[i] in labels && visited[i] !in remaining
      invariant forall k :: k in labels ==> k in remaining || k in visited
      invariant remaining <= labels.Keys
      invariant forall i, j :: 0 <= i < j < |visited| ==> visited[i] != visited[j]
      invariant LabelState(node.labels, node.annotations, false) == WriteAll(start, labels, visited)
      decreases remaining
    {
      var name :| name in remaining;
      WriteAllSnoc(start, labels, visited, name);
      ghost var rest := Enumerate(remaining - {name});
      if node.labels.None? {
        VisitsCompleted(labels, visited, name, remaining, rest);
        WriteAllAppend(start, labels, visited + [name], rest);
        WriteAllPanicked(WriteAll(start, labels, visited + [name]), labels, rest);
        return true, visited + [name] + rest;
      }
      node.labels := Some(node.labels.value[LabelKey(name) := labels[name]]);
      if node.annotations.None? {
        VisitsCompleted(labels, visited, name, remaining, rest);
        WriteAllAppend(start, labels, visited + [name], rest);
        WriteAllPanicked(WriteAll(start, labels, visited + [name]), labels, rest);
        return true, visited + [name] + rest;
      }
      node.annotations := Some(node.annotations.value[AnnotationKey(name) := labels[name]]);
      remaining := remaining - {name};
      visited := visited + [name];
    }
    VisitsCompleted(labels, visited, "", {}, []);
    return false, visited;
  }

  /** The keys visited so far, then `name`, then the rest in any order, visit every key once. */
  lemma VisitsCompleted(entries: map<string, string>, visited: seq<string>, name: string,
                        remaining: set<string>, rest: seq<string>)
    requires forall i :: 0 <= i < |visited| ==> visited[i] in entries && visited[i] !in remaining
    requires forall k :: k in entries ==> k in remaining || k in visited
    requires remaining <= entries.Keys
    requires forall i, j :: 0 <= i < j < |visited| ==> visited[i] != visited[j]
    requires remaining == {} || name in remaining
    requires forall i :: 0 <= i < |rest| ==> rest[i] in remaining - {name}
    requires forall k :: k in remaining - {name} ==> k in rest
    requires forall i, j :: 0 <= i < j < |rest| ==> rest[i] != rest[j]
    ensures remaining == {} ==> Visits(visited, entries)
    ensures remaining != {} ==> Visits(visited + [name] + rest, entries)
  {
    if remaining != {} {
      var order := visited + [name] + rest;
      forall i, j | 0 <= i < j < |order| ensures order[i] != order[j] {
        if j < |visited| {
        } else if i < |visited| {
          assert order[i] == visited[i];
          if j == |visited| { assert order[j] == name; } else { assert order[j] == rest[j - |visited| - 1]; }
        } else if i == |visited| {
          assert order[j] == rest[j - |visited| - 1];
        } else {
          assert order[i] == rest[i - |visited| - 1] && order[j] == rest[j - |visited| - 1];
        }
      }
      forall k | k in entries ensures k in order {
        if k in visited {
          var i :| 0 <= i < |visited| && visited[i] == k;
          assert order[i] == k;
        } else if k == name {
          assert order[|visited|] == k;
        } else {
          assert k in remaining - {name};
          assert k in rest;
          var i :| 0 <= i < |rest| && rest[i] == k;
          assert order[|visited| + 1 + i] == k;
        }
      }
      forall i | 0 <= i < |order| ensures order[i] in entries {
        if i < |visited| { assert order[i] == visited[i]; }
        else if i > |visited| { assert order[i] == rest[i - |visited| - 1]; }
      }
    }
  }

  // ---------------------------------------------------------------------------------------
  // Properties of the label writes

  lemma LabelKeyInjective(a: string, b: string)
    ensures LabelKey(a) == LabelKey(b) ==> a == b
    ensures AnnotationKey(a) == AnnotationKey(b) ==> a == b
  {
    if LabelKey(a) == LabelKey(b) { PrefixInjective(Namespace, a, b); }
    if AnnotationKey(a) == AnnotationKey(b) { PrefixInjective(Namespace + "-" + Namespace, a, b); }
  }

  /** A node with both maps present never panics, and keeps both maps present. */
  lemma {:induction false} WriteAllStaysOpen(s: LabelState, entries: map<string, string>, order: seq<string>)
    requires forall i :: 0 <= i < |order| ==> order[i] in entries
    requires !s.panicked && s.labels.Some? && s.annotations.Some?
    ensures var r := WriteAll(s, entries, order); !r.panicked && r.labels.Some? && r.annotations.Some?
    decreases |order|
  {
    if order != [] {
      WriteAllStaysOpen(s, entries, order[..|order| - 1]);
    }
  }

  /**
   * When a map is nil the loop panics on its first iteration: a nil label map is left as it is
   * with the annotations; with labels present and nil annotations, exactly the first visited
   * entry has been written into the labels.
   */
  lemma {:induction false} WriteAllNilMap(l: Option<map<string, string>>, a: Option<map<string, string>>,
                                          entries: map<string, string>, order: seq<string>)
    requires forall i :: 0 <= i < |order| ==> order[i] in entries
    requires l.None? || a.None?
    ensures var r := WriteAll(LabelState(l, a, false), entries, order);
            && (r.panicked <==> order != [])
            && r.annotations == a
            && (l.None? ==> r.labels == l)
            && (l.Some? && order != [] ==> r.labels == Some(l.value[LabelKey(order[0]) := entries[order[0]]]))
    decreases |order|
  {
    if |order| == 1 {
      assert order[..0] == [];
    } else if |order| > 1 {
      var prefix := order[..|order| - 1];
      WriteAllNilMap(l, a, entries, prefix);
      assert prefix[0] == order[0];
    }
  }

  /** Every visited entry ends up under its label key and its annotation key. */
  lemma {:induction false} WriteAllHas(s: LabelState, entries: map<string, string>, order: seq<string>, name: string)
    requires forall i :: 0 <= i < |order| ==> order[i] in entries
    requires !s.panicked && s.labels.Some? && s.annotations.Some?
    requires name in order
    ensures var r := WriteAll(s, entries, order);
            && r.labels.Some? && LabelKey(name) in r.labels.value && r.labels.value[LabelKey(name)] == entries[name]
            && r.annotations.Some? && AnnotationKey(name) in r.annotations.value
            && r.annotations.value[AnnotationKey(name)] == entries[name]
    decreases |order|
  {
    var prefix, last := order[..|order| - 1], order[|order| - 1];
    WriteAllStaysOpen(s, entries, prefix);
    if name != last {
      assert order == prefix + [last];
      assert name in prefix;
      WriteAllHas(s, entries, prefix, name);
      LabelKeyInjective(name, last);
    }
  }

  /** A label key no visited entry maps to keeps its original presence and value. */
  lemma {:induction false} WriteAllKeepsLabel(s: LabelState, entries: map<string, string>, order: seq<string>, k: string)
    requires forall i :: 0 <= i < |order| ==> order[i] in entries
    requires !s.panicked && s.labels.Some? && s.annotations.Some?
    requires forall i :: 0 <= i < |order| ==> LabelKey(order[i]) != k
    ensures var r := WriteAll(s, entries, order);
            && r.labels.Some? && (k in r.labels.value <==> k in s.labels.value)
            && (k in s.labels.value ==> r.labels.value[k] == s.labels.value[k])
    decreases |order|
  {
    if order != [] {
      WriteAllKeepsLabel(s, entries, order[..|order| - 1], k);
      WriteAllStaysOpen(s, entries, order[..|order| - 1]);
    }
  }

  /** An annotation key no visited entry maps to keeps its original presence and value. */
  lemma {:induction false} WriteAllKeepsAnnotation(s: LabelState, entries: map<string, string>, order: seq<string>, k: string)
    requires forall i :: 0 <= i < |order| ==> order[i] in entries
    requires !s.panicked && s.labels.Some? && s.annotations.Some?
    requires forall i :: 0 <= i < |order| ==> AnnotationKey(order[i]) != k
    ensures var r := WriteAll(s, entries, order);
            && r.annotations.Some? && (k in r.annotations.value <==> k in s.annotations.value)
            && (k in s.annotations.value ==> r.annotations.value[k] == s.annotations.value[k])
    decreases |order|
  {
    if order != [] {
      WriteAllKeepsAnnotation(s, entries, order[..|order| - 1], k);
      WriteAllStaysOpen(s, entries, order[..|order| - 1]);
    }
  }

  /** On a node with both maps present the outcome does not depend on the visiting order. */
  lemma WriteAllOrderIrrelevant(s: LabelState, entries: map<string, string>, o1: seq<string>, o2: seq<string>)
    requires Visits(o1, entries) && Visits(o2, entries)
    requires !s.panicked && s.labels.Some? && s.annotations.Some?
    ensures WriteAll(s, entries, o1) == WriteAll(s, entries, o2)
  {
    var r1, r2 := WriteAll(s, entries, o1), WriteAll(s, entries, o2);
    WriteAllStaysOpen(s, entries, o1);
    WriteAllStaysOpen(s, entries, o2);
    forall k | true
      ensures (k in r1.labels.value <==> k in r2.labels.value)
      ensures k in r1.labels.value ==> r1.labels.value[k] == r2.labels.value[k]
    {
      if n :| n in entries && k == LabelKey(n) {
        WriteAllHas(s, entries, o1, n);
        WriteAllHas(s, entries, o2, n);
      } else {
        WriteAllKeepsLabel(s, entries, o1, k);
        WriteAllKeepsLabel(s, entries, o2, k);
      }
    }
    forall k | true
      ensures (k in r1.annotations.value <==> k in r2.annotations.value)
      ensures k in r1.annotations.value ==> r1.annotations.value[k] == r2.annotations.value[k]
    {
      if n :| n in entries && k == AnnotationKey(n) {
        WriteAllHas(s, entries, o1, n);
        WriteAllHas(s, entries, o2, n);
      } else {
        WriteAllKeepsAnnotation(s, entries, o1, k);
        WriteAllKeepsAnnotation(s, entries, o2, k);
      }
    }
    assert r1.labels.value == r2.labels.value;
    assert r1.annotations.value == r2.annotations.value;
  }

  /** A one-entry map has a single visiting order. */
  lemma VisitsSingle(order: seq<string>, name: string, value: string)
    requires Visits(order, map[name := value])
    ensures order == [name]
  {
    assert name in order;
    FirstTwo(order);
  }

  /** The first two elements of a sequence are members of it. */
  lemma FirstTwo(order: seq<string>)
    ensures |order| > 1 ==> order[0] in order && order[1] in order
  {
  }
}
