/** The API server: clusters behind admission, versions, finalizers and deletion marks; the other
    objects; pods; and the controller's watch cache, which lags behind the stored clusters. */
module ApiServer {
  import opened Wrappers
  import opened Kube
  import opened Objects
  import opened Operators
  import Policies

  /** A watch event: the cluster of a key as of one write, or nothing once it is gone. */
  datatype Change = Change(key: Key, now: Option<RayCluster>)

  /** A pod with the three labels the controller selects on. A deleted pod stays listed, marked
      terminating, until it is removed. */
  datatype Pod = Pod(namespace: string, name: string, cluster: Option<string>, nodeType: Option<string>,
                     component: Option<string>, pullSecrets: seq<string>, terminating: bool)

  datatype World = World(
    clusters: map<Key, RayCluster>,
    cache: map<Key, RayCluster>,
    pending: seq<Change>,
    nextUid: nat,
    nextVersion: nat,
    objects: map<ObjectKey, Object>,
    pods: seq<Pod>,
    applicationsNamespace: Option<string>)

  const HEAD_NODE := "head"

  // ---------------------------------------------------------------- writing clusters

  function PutCluster(w: World, c: RayCluster): World {
    var stored := c.(meta := c.meta.(resourceVersion := w.nextVersion));
    w.(clusters := w.clusters[c.Id() := stored], nextVersion := w.nextVersion + 1,
       pending := w.pending + [Change(c.Id(), Some(stored))])
  }

  function DropCluster(w: World, k: Key): World {
    w.(clusters := w.clusters - {k}, pending := w.pending + [Change(k, None)])
  }

  /** Defaulting, then validation of the defaulted object. */
  function AdmitCreate(op: Operator, c: RayCluster): Option<RayCluster> {
    var d := op.defaulter(c);
    if d.Some? && op.createErrors(d.value) == [] then d else None
  }

  function AdmitUpdate(op: Operator, c: RayCluster): Option<RayCluster> {
    var d := op.defaulter(c);
    if d.Some? && op.updateErrors(d.value) == Some([]) then d else None
  }

  /** A creation gets a fresh uid; it is refused when the name is taken or admission says no. */
  function Create(op: Operator, w: World, c: RayCluster): World {
    var d := AdmitCreate(op, c.(meta := c.meta.(uid := w.nextUid, deleting := false)));
    if c.Id() in w.clusters || d.None? then w
    else PutCluster(w.(nextUid := w.nextUid + 1), d.value)
  }

  /** An update is refused when the object is gone, when its version is stale, when it adds a
      finalizer to an object being deleted, or by admission. The deletion mark is not the
      client's to change. Removing the last finalizer of a marked object removes the object. */
  function Update(op: Operator, w: World, c: RayCluster): (World, Option<RayCluster>) {
    var k := c.Id();
    if k !in w.clusters then (w, None)
    else
      var cur := w.clusters[k];
      if c.meta.resourceVersion != cur.meta.resourceVersion || c.meta.uid != cur.meta.uid then (w, None)
      else if cur.meta.deleting && exists f | f in c.meta.finalizers :: f !in cur.meta.finalizers then (w, None)
      else
        var d := AdmitUpdate(op, c.(meta := c.meta.(deleting := cur.meta.deleting)));
        if d.None? then (w, None)
        else if cur.meta.deleting && d.value.meta.finalizers == [] then (DropCluster(w, k), d)
        else
          var w' := PutCluster(w, d.value);
          (w', Some(d.value.(meta := d.value.meta.(resourceVersion := w.nextVersion))))
  }

  /** Deletion marks an object that has finalizers and removes one that has none. */
  function RequestDelete(w: World, k: Key): World {
    if k !in w.clusters then w
    else
      var c := w.clusters[k];
      if c.meta.finalizers == [] then DropCluster(w, k)
      else if c.meta.deleting then w
      else PutCluster(w, c.(meta := c.meta.(deleting := true)))
  }

  // ---------------------------------------------------------------- the watch cache

  function Deliver(w: World): World {
    if w.pending == [] then w
    else
      var change := w.pending[0];
      w.(pending := w.pending[1..],
         cache := if change.now.Some? then w.cache[change.key := change.now.value] else w.cache - {change.key})
  }

  /** A restarted controller lists the clusters anew. */
  function Relist(w: World): World {
    w.(cache := w.clusters, pending := [])
  }

  // ---------------------------------------------------------------- requests of the controller

  datatype Call =
    | UpdateCluster(cluster: RayCluster)
    | GetObject(key: ObjectKey)
    | DeleteObject(key: ObjectKey)
    | ApplyObject(key: ObjectKey, fields: Applied)
    | ListHeadPods(owner: Key)
    | DeletePod(namespace: string, name: string)
    | ListOperatorPods
    | GetApplications

  datatype Reply =
    | Done
    | Updated(cluster: RayCluster)
    | Found(found: Object)
    | Listed(pods: seq<Pod>)
    | Applications(namespace: string)
    | NotFound
    | Failed

  /** Server-side apply: the applied fields are replaced, the fields of others and a deletion mark
      are kept. */
  function ApplyTo(objects: map<ObjectKey, Object>, key: ObjectKey, fields: Applied): map<ObjectKey, Object> {
    objects[key := if key in objects then objects[key].(applied := fields) else Object(fields, [], map[], false)]
  }

  /** Foreground deletion marks the object; removing it is left to the garbage collector. */
  function MarkObject(objects: map<ObjectKey, Object>, key: ObjectKey): map<ObjectKey, Object> {
    if key in objects then objects[key := objects[key].(deleting := true)] else objects
  }

  predicate HeadPodOf(p: Pod, k: Key) {
    p.namespace == k.namespace && p.nodeType == Some(HEAD_NODE) && p.cluster == Some(k.name)
  }

  function HeadPods(pods: seq<Pod>, k: Key): seq<Pod> {
    if pods == [] then []
    else (if HeadPodOf(pods[0], k) then [pods[0]] else []) + HeadPods(pods[1..], k)
  }

  function OperatorPods(pods: seq<Pod>): seq<Pod> {
    if pods == [] then []
    else (if pods[0].component == Some(Policies.KUBERAY_OPERATOR) then [pods[0]] else []) + OperatorPods(pods[1..])
  }

  predicate IsPod(p: Pod, namespace: string, name: string) {
    p.namespace == namespace && p.name == name
  }

  function Terminate(pods: seq<Pod>, namespace: string, name: string): (r: seq<Pod>)
    ensures |r| == |pods|
    ensures forall i | 0 <= i < |pods| ::
              r[i] == if IsPod(pods[i], namespace, name) then pods[i].(terminating := true) else pods[i]
  {
    seq(|pods|, i requires 0 <= i < |pods| =>
      if IsPod(pods[i], namespace, name) then pods[i].(terminating := true) else pods[i])
  }

  function Perform(op: Operator, w: World, call: Call): (World, Reply) {
    match call
    case UpdateCluster(c) =>
      var (w', r) := Update(op, w, c);
      (w', if r.Some? then Updated(r.value) else Failed)
    case GetObject(k) => (w, if k in w.objects then Found(w.objects[k]) else NotFound)
    case DeleteObject(k) =>
      if k in w.objects then (w.(objects := MarkObject(w.objects, k)), Done) else (w, NotFound)
    case ApplyObject(k, fields) => (w.(objects := ApplyTo(w.objects, k, fields)), Done)
    case ListHeadPods(k) => (w, Listed(HeadPods(w.pods, k)))
    case DeletePod(ns, name) =>
      if exists p | p in w.pods :: IsPod(p, ns, name)
      then (w.(pods := Terminate(w.pods, ns, name)), Done) else (w, NotFound)
    case ListOperatorPods => (w, Listed(OperatorPods(w.pods)))
    case GetApplications =>
      (w, if w.applicationsNamespace.Some? then Applications(w.applicationsNamespace.value) else NotFound)
  }

  /** A call is served, refused without effect, or served with its response lost. */
  datatype Outcome = Served | Refused | Lost

  function Serve(op: Operator, w: World, call: Call, outcome: Outcome): (World, Reply) {
    match outcome
    case Served => Perform(op, w, call)
    case Refused => (w, Failed)
    case Lost => (Perform(op, w, call).0, Failed)
  }
}
