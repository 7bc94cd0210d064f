# Verification of the RayCluster operator

A Dafny model of the controller and the admission webhook of the RayCluster operator, with proofs
of what they keep in every run. `dafny verify dfyconfig.toml` checks everything.

## What is modelled

The webhook (`Support`, `Derivative`, `Items`, `Defaulting`, `Validation`, `Webhook`, `Admission`,
`Acceptance`).
`Webhook.RayClusterWebhook.Default` updates a cluster object in place, loop by loop; the validators
loop over items and worker groups and collect errors. Each method is proved equal to a function on
values, and the laws are proved of those functions: defaulting is idempotent and conservative, a
defaulted cluster passes both validators but for `enableIngress`, and the update validator reports
one error for each violated pair of location and item. The comparison of expected and actual items
ignores what the expected side leaves empty and matches lists by prefix; this is what makes the case
work in which the first container is the oauth-proxy and gains the TLS variables and mounts.
`Acceptance` says what acceptance means field by field, without the comparison.

Names and objects (`Naming`, `Policies`, `Objects`). The hash is an arbitrary function to eight
characters. `Policies` gives the two network policies a meaning, selectors, peers and ports, and
proves that meaning equal to a closed form.

The protocol (`Operators`, `ApiServer`, `Protocol`). The API server stores clusters with uid,
resource version, finalizers and a deletion mark, behind defaulting and validation; other objects,
of which server-side apply replaces the controller's fields and keeps the rest, and which foreground
deletion only marks, until somebody removes them; and pods. The controller reads clusters from a
watch cache that lags behind. A pass is a program counter with the values obtained so far; each of
its calls is served, refused, or served with its response lost. In between, users create, edit and
delete clusters, others write objects, pods come and go, the cache advances, passes for other keys
run, and the process restarts with another cookie salt. `Reconciler.RayClusterReconciler.Reconcile`
is the same protocol in the source's shape: straight-line calls with early returns, on a client
object whose state others change between any two calls. Each of its calls must be the one the step
system prescribes, so a reconciliation is a run of that system.

The theorems on runs are stated for any `Operator` value that meets `Operators.Sound`, a list of
facts on defaulting, admission, placement and the CA secret. `Operators.OperatorIsSound` proves them
for `OperatorFor(s)`, the operator with the modelled webhook, names and objects, for all settings.

## Results on runs

* No leaked ClusterRoleBinding (`BindingSafety.NoBindingLeak`), whatever bindings others keep: a
  binding named after a cluster that users may create exists only while a cluster of that binding
  name exists and carries the finalizer; where binding names differ, that is the cluster itself
  (`BindingSafety.OwnBindingOnly`). The source deletes bindings in the foreground, so the statement is
  about bindings not marked for deletion; a marked one stays marked until it is removed
  (`BindingSafety.MarkedUntilRemoved`). `Deletion.FinalizerLastNeeded` shows that the premise on the
  last finalizer, below, is needed: a deleting cluster held by a foreign finalizer is provisioned
  again, and ends with a binding and no cluster. Colliding names leak nothing, but
  `Deletion.CollidingBindingLost` shows what they cost: one cluster's deletion takes the other's
  binding. `Naming.CrbNameCollisionWitness` shows that they do collide.
* Retry convergence (`Convergence.RetryConvergence`), for new clusters too, under the salt of the
  last process. It does not hold across salts: `OperatorRuns.RestartRewritesCookie` is a run in which
  a restart changes the store, and `OperatorRuns.FurtherPassChangesCookie` says exactly when a later
  complete pass leaves every object as it is: when the cluster has no OAuth objects, or the two
  salts give it the same cookie. `Convergence.FurtherPassesIdle` covers passes cut off anywhere.
* The store after a pass with every call served, in terms of settings and cluster
  (`Store.ServedPassStores`), and what the policies in it allow (`Store.StorePolicySemantics`,
  `Store.ServedPassPolicies`).
* Deletion progress (`Deletion.DeletionProgress`, `BindingSafety.FinalizerStays`).
* CA stability (`CaStability.CaPairStable`).
* Bounded restarts of the head pod (`PodRestarts.RestartsBounded`, `PodRestarts.PassDeletesExactly`,
  `PodRestarts.NoRestartsWithOwnSecrets`).
* Reference closure (`References.ReferenceClosure`).
* Cross-cluster framing (`Footprints.CrossClusterFraming`).
* Admission invariant (`OperatorRuns.AdmissionInvariant`).

## Premises

* The configuration is not nil. With mutual TLS on, a missing first container makes the webhook
  panic, which rejects the request; this is modelled, not excluded.
* At most one pass per key at a time, one active controller, and reads from the cache never go back.
* For binding safety: users create clusters under a given set of keys; the bindings named after
  those are not there to begin with and are written by nobody but the controller, while all other
  bindings are anybody's; no edit that the server accepts strips the controller's finalizer; and no
  deleting cluster is held by others' finalizers only.
* A nil result says nothing about the two network policies, since the source logs and swallows their
  errors; `Closure.NilPassCloses` speaks of the other objects.

## Model

| member | source | states |
|---|---|---|
| Support.Upsert | pkg/controllers/support.go:108-116 | Overwrites the first matching entry and only that one, or appends when none matches |
| Support.Contains | pkg/controllers/support.go:118-128 | Required when nothing matches; otherwise decided by the first matching entry alone, Invalid when it is not derivative-compatible |
| Support.CheckItemExact | pkg/controllers/support.go:118-128 | No error iff the first entry of the name is compatible, Required iff the name is absent |
| Support.UpsertAllInjects | pkg/controllers/support.go:108-116 | A sequence of upserts equals the reference injection: places kept, first holders replaced, exactly the absent names appended in order |
| Support.UpsertAllIdempotent | pkg/controllers/support.go:108-116 | Repeating the upserts changes nothing, for arbitrary lists |
| Derivative.ContainerExtended | pkg/controllers/support.go:121 | A container stays compatible with the expected one after variables and mounts are appended |
| Items.InjectionCoherent | pkg/controllers/raycluster_webhook.go:243-355 | The names of the injected items of each list are distinct, also between proxy and TLS items |
| Defaulting.DefaultIdempotent | pkg/controllers/raycluster_webhook.go:71-139 | Defaulting a defaulted cluster changes nothing, for arbitrary user lists |
| Defaulting.DefaultConserves | pkg/controllers/raycluster_webhook.go:71-139 | Defaulting succeeds iff the needed first containers exist; its result is the reference injection of every list and leaves all else alone |
| Defaulting.MetadataKept | pkg/controllers/raycluster_webhook.go:76-81 | Defaulting writes the version annotation, keeps every other annotation and all other metadata |
| Defaulting.DefaultPanics | pkg/controllers/raycluster_webhook.go:83-136 | Defaulting panics iff, with mutual TLS not off, a worker group has no container, or the head has none and OAuth is off |
| Defaulting.ProxyAfterTls | pkg/controllers/raycluster_webhook.go:83-117 | After TLS the proxy is unchanged in its place, or is the extended first container |
| Webhook.RayClusterWebhook.Default | pkg/controllers/raycluster_webhook.go:71-139 | The in-place update equals the specified defaulting; it panics iff a needed first container is missing |
| Webhook.RayClusterWebhook.InjectWorkers | pkg/controllers/raycluster_webhook.go:119-136 | Every worker group gets the TLS items, number and order kept; panics iff some group has no container |
| Webhook.RayClusterWebhook.InjectCerts | pkg/controllers/raycluster_webhook.go:96-117 | Variables, init container, volumes and mounts of one template equal the specified upserts |
| Webhook.RayClusterWebhook.ValidateCreate | pkg/controllers/raycluster_webhook.go:141-156 | Its errors are those of the ingress and OAuth checks, in order |
| Webhook.RayClusterWebhook.ValidateUpdate | pkg/controllers/raycluster_webhook.go:158-186 | Its errors are those of all checks in order; none while deleting; a panic iff, under mutual TLS, a first container is missing |
| Webhook.RayClusterWebhook.ValidateWorkerEnvVars | pkg/controllers/raycluster_webhook.go:452-467 | Checks every variable in every worker group, in order |
| Webhook.RayClusterWebhook.ValidateCaVolumes | pkg/controllers/raycluster_webhook.go:416-436 | Checks every CA volume in the head and in every worker group, in order |
| Webhook.RayClusterWebhook.ValidateHeadEnvVars | pkg/controllers/raycluster_webhook.go:438-450 | Checks every variable of the head's first container, in order |
| Webhook.RayClusterWebhook.ValidateWorkerInitContainer | pkg/controllers/raycluster_webhook.go:401-414 | Checks the init container of every worker group, in order |
| Validation.VerdictExact | pkg/controllers/raycluster_webhook.go:193-241 | At each location the verdict is none iff the declarative requirement holds, Required iff the name is absent, else Invalid |
| Validation.PathIdentifies | pkg/controllers/raycluster_webhook.go:193-241 | The path of an error identifies its location, but that the proxy's and the CA volumes share one list in the head |
| Validation.OneErrorPerViolation | pkg/controllers/raycluster_webhook.go:158-186 | The error list has exactly one entry, of the right kind and location, for each violated pair of location and item |
| Validation.AcceptsExactly | pkg/controllers/raycluster_webhook.go:158-186 | No errors iff the requirement holds at the head and all worker groups |
| Validation.ChecksInTurn | pkg/controllers/raycluster_webhook.go:158-186 | The checks are made, and their errors reported, in the source's order |
| Validation.InjectedAcceptable | pkg/controllers/raycluster_webhook.go:71-186 | After injection only `enableIngress` can be violated |
| Admission.DefaultSatisfiesValidation | pkg/controllers/raycluster_webhook.go:71-186 | After defaulting both validators report `enableIngress` iff it is true, and nothing else |
| Admission.UpdateAcceptsExactly | pkg/controllers/raycluster_webhook.go:158-186 | A non-deleting cluster is accepted iff the declarative predicate holds |
| Acceptance.AcceptsUntampered | pkg/controllers/raycluster_webhook.go:158-186 | An update is accepted iff the ingress flag is not set and the first holder of each injected name has the fields of the injected item: values, field path, image, args, ports, mounts, secret names and command, spelled out |
| Acceptance.UpdatePanics | pkg/controllers/raycluster_webhook.go:158-186 | Validating an update panics iff, with mutual TLS not off, a first container is missing in an unmarked cluster |
| Acceptance.CreateAcceptsUntampered | pkg/controllers/raycluster_webhook.go:141-156 | The same for creation, which checks the ingress flag and the proxy |
| Acceptance.DefaultedSpelled | pkg/controllers/raycluster_webhook.go:71-139 | A defaulted cluster carries those fields, and its first containers mount the CA and the certificate directory |
| Acceptance.SitePaths | pkg/controllers/raycluster_webhook.go:193-241 | The field path of each check |
| Naming.HashedNameInjective | pkg/controllers/raycluster_controller.go:385-566 | (cluster name, role) to hashed name is injective |
| Naming.NamesSpelled | pkg/controllers/raycluster_controller.go:360-566 | The hashed and the legacy names letter by letter, over an arbitrary hash |
| Naming.SuffixesSpelled | pkg/controllers/raycluster_controller.go:385-566 | The role suffixes |
| Naming.CrbNameCollides | pkg/controllers/raycluster_controller.go:360-365 | Two binding names coincide iff the `name-namespace` strings do |
| Naming.CrbNameCollisionWitness | pkg/controllers/raycluster_controller.go:360-365 | Two different clusters with the same binding name |
| Naming.LegacyNamesCollide | pkg/controllers/raycluster_controller.go:117-121 | Legacy names of different clusters and roles can coincide |
| Naming.LegacyCrbRenamed | pkg/controllers/raycluster_controller.go:360-365 | A legacy cluster's binding name changes once it is annotated |
| Naming.PrefixNamesDistinct | pkg/controllers/raycluster_controller.go:403-409 | Dashboard and RayClient names never coincide and are injective |
| Policies.DesiredHeadPolicy | pkg/controllers/raycluster_controller.go:568-622 | The built policy selects exactly the cluster's head pods and admits traffic iff the closed form holds, with the second secured port open to everyone iff mutual TLS is on |
| Policies.HeadAdmits | pkg/controllers/raycluster_controller.go:568-622 | The head policy admits traffic iff the closed form on source labels, namespaces, port and mutual TLS holds |
| Policies.WorkerAdmits | pkg/controllers/raycluster_controller.go:544-559 | The worker policy admits traffic iff it comes from a pod of the same cluster and namespace |
| Policies.GovernedByOne | pkg/controllers/raycluster_controller.go:544-622 | Each labelled head or worker pod is selected by exactly one of all installed policies, its own cluster's |
| Policies.PolicySemantics | pkg/controllers/raycluster_controller.go:544-622 | With the policies of any set of clusters installed, each with its own KubeRay namespaces, traffic is allowed iff the closed form of the destination's cluster holds |
| Objects.PlaceInjective | pkg/controllers/raycluster_controller.go:360-566 | No two derived objects of annotated clusters share a place, unless they are bindings with equal `name-namespace` |
| Objects.IngressHostsCollide | pkg/controllers/raycluster_controller.go:312-320 | Two clusters share an ingress host iff their `name-namespace` strings coincide |
| Operators.OperatorIsSound | pkg/controllers/raycluster_webhook.go:71-186 | The modelled webhook, names and objects meet all facts that the results on runs assume |
| Protocol.ResumeDescends | pkg/controllers/raycluster_controller.go:123-309 | Every call moves a pass strictly closer to its end |
| AdmissionRuns.UpdateFixed | pkg/controllers/raycluster_controller.go:133-144 | The controller's own update passes defaulting unchanged |
| AdmissionRuns.TidyRun | pkg/controllers/raycluster_webhook.go:71-186 | In every run each stored or cached cluster is annotated, a fixpoint of defaulting, and without ingress unless deleting |
| BindingSafety.NoBindingLeak | pkg/controllers/raycluster_controller.go:135-233 | In every run a binding of ours that is not marked for deletion exists only while a cluster of that binding name exists and carries the finalizer, whatever bindings others keep |
| BindingSafety.OwnBindingOnly | pkg/controllers/raycluster_controller.go:360-365 | Where binding names differ, that cluster is the binding's own |
| BindingSafety.MarkedUntilRemoved | pkg/controllers/raycluster_controller.go:88-91 | A binding marked by foreground deletion stays marked in every run until it is removed; no apply brings it back |
| BindingSafety.StepSafe | pkg/controllers/raycluster_controller.go:123-309 | Each single step keeps the invariant behind it |
| BindingSafety.FinalizerStays | pkg/controllers/raycluster_controller.go:145-166 | Only the finalizer-removing update takes the finalizer away, and then the binding is gone, marked for deletion, or another present cluster's of the same name |
| BindingSafety.WithoutExact | pkg/controllers/raycluster_controller.go:159 | Removing the finalizer removes exactly its occurrences |
| BindingSafety.WithoutKeepsOrder | pkg/controllers/raycluster_controller.go:159 | The other finalizers keep their order |
| CaStability.CaPairStable | pkg/controllers/raycluster_controller.go:168-194 | In every run the first stored CA pair is never replaced |
| CaStability.OwnStep | pkg/controllers/raycluster_controller.go:168-194 | A pass about to apply a pair holds the stored one, if there is one |
| Footprints.FootprintsDisjoint | pkg/controllers/raycluster_controller.go:360-566 | Clusters with different `name-namespace` own different objects |
| Footprints.CrossClusterFraming | pkg/controllers/raycluster_controller.go:123-309 | Passes for one cluster, complete or cut short, change nothing of any other cluster, its head pods and its objects; of the binding, if their `name-namespace` strings differ |
| Footprints.HeadPodsListed | pkg/controllers/raycluster_controller.go:654-665 | The listing contains exactly the cluster's head pods |
| Closure.NilPassCloses | pkg/controllers/raycluster_controller.go:168-309 | After a nil result every needed object but the policies is stored with the applied fields, whatever other clusters' passes do meanwhile |
| Closure.ResumeProgress | pkg/controllers/raycluster_controller.go:168-309 | The pass skips no needed object |
| References.ReferenceClosure | pkg/controllers/raycluster_controller.go:168-240 | After a nil result everything the templates name is stored and owned, the service asks for the TLS secret the proxy mounts and targets its port, and a binding names the head pod's account |
| References.StoredCloses | pkg/controllers/raycluster_controller.go:385-492 | The applied objects hold what the templates of a defaulted cluster name |
| Convergence.RetryConvergence | pkg/controllers/raycluster_controller.go:135-308 | Passes cut off anywhere, under any salts, then one served pass, leave the store of that pass alone under the last salt; for a cluster without a CA secret, with the pair the passes have come to use |
| Convergence.FurtherPassesIdle | pkg/controllers/raycluster_controller.go:135-308 | After a served pass no later pass, complete or cut off, changes clusters or objects, as long as restarts draw salts with the same cookie |
| Convergence.FurtherPassExact | pkg/controllers/raycluster_controller.go:135-308 | A later complete pass leaves the objects as they are iff the cluster has no OAuth objects or its cookie secret is the same under the last salt |
| OperatorRuns.FurtherPassChangesCookie | pkg/controllers/raycluster_controller.go:671-676 | The same for the operator, in terms of the derived cookie |
| OperatorRuns.RestartRewritesCookie | pkg/controllers/raycluster_controller.go:671-676 | A served pass, a restart with a salt of another cookie and a served pass change the store |
| Convergence.ServedPassOutcome | pkg/controllers/raycluster_controller.go:123-309 | A served pass, the first one of a new cluster included, stores every needed object, policies included, keeps others' fields, adds the finalizer, and fails iff a needed ingress domain is missing |
| Store.ServedPassStores | pkg/controllers/raycluster_controller.go:123-309 | In terms of settings and cluster: a served pass writes exactly the objects that are due, with the fields below and others' fields kept, leaves every other object as it was, adds the finalizer once, and fails iff the ingress domain is missing |
| Store.DueIsNeeded | pkg/controllers/raycluster_controller.go:196-242 | Which objects are due: OAuth objects iff on OpenShift with OAuth not off, ingresses iff elsewhere with OAuth off and a domain, neither for a suspended cluster |
| Store.ContentSpelled | pkg/controllers/raycluster_controller.go:367-492 | The applied fields of each object, spelled out; the policies by what they select and admit |
| Store.PlaceSpelled | pkg/controllers/raycluster_controller.go:360-566 | Kind, namespace and name of each object |
| Store.PairSpelled | pkg/controllers/raycluster_controller.go:174-187 | The pair applied is the stored one entry by entry, or the generated one |
| Store.NamespacesSpelled | pkg/controllers/raycluster_controller.go:274-296 | The namespaces found: of the applications or the two well-known ones on OpenShift, else of the first operator pod or the default |
| Store.SuspendedWritesLittle | pkg/controllers/raycluster_controller.go:196-242 | For a suspended cluster only the CA secret and the policies are written |
| Store.StorePolicySemantics | pkg/controllers/raycluster_controller.go:298-308 | With the policies in the store being those of some clusters, traffic to their pods is allowed iff the closed form of the pod's cluster holds |
| Store.ServedPassPolicies | pkg/controllers/raycluster_controller.go:298-308 | A served pass puts its cluster's policies in force, with the namespaces it found, and leaves the others in force |
| Convergence.AddOnce | pkg/controllers/raycluster_controller.go:136-144 | The finalizer update succeeds once and never again |
| Deletion.DeletionCompletes | pkg/controllers/raycluster_controller.go:145-166 | A served pass marks the binding, even if it is marked or gone already, and removes the finalizer, and with the last one the cluster; nothing else changes |
| Deletion.DeletionProgress | pkg/controllers/raycluster_controller.go:145-166 | Cut-off passes never add to what is left to do, and a served pass leaves at most a marked binding to the garbage collector |
| Deletion.DeletionAfterRestart | pkg/controllers/raycluster_controller.go:145-166 | From any state of any run, after a restart a served pass removes a marked cluster and leaves no unmarked binding |
| Deletion.CollidingBindingLost | pkg/controllers/raycluster_controller.go:360-365 | Where two clusters share a binding name, deleting one leaves the other without a binding |
| Deletion.FinalizerLastNeeded | pkg/controllers/raycluster_controller.go:145 | Without the premise on the last finalizer a polite run from a server without clusters ends with an unmarked binding and no cluster |
| Deletion.ProvisionedAgain | pkg/controllers/raycluster_controller.go:145 | A deleting cluster held by a foreign finalizer gets its binding back, unless an earlier one is still marked |
| PodRestarts.RestartsBounded | pkg/controllers/raycluster_controller.go:222-227 | In every run at most one more head pod is deleted than the pull secrets changed |
| PodRestarts.NoRestartsWithOwnSecrets | pkg/controllers/raycluster_controller.go:222-227 | None is deleted if the cluster always names pull secrets of its own |
| PodRestarts.PassDeletesExactly | pkg/controllers/raycluster_controller.go:624-652 | A served pass, the first one included, deletes the head pod iff the cluster names no pull secrets and the ServiceAccount lists one the pod lacks; no other pod changes |
| PodRestarts.PassesKeepSecrets | pkg/controllers/raycluster_controller.go:216-220 | Applying the ServiceAccount keeps its pull secrets |
| Reconciler.RayClusterReconciler.Reconcile | pkg/controllers/raycluster_controller.go:123-309 | The imperative reconciliation starts exactly one pass and runs the step system to its end; it succeeds iff every call got an answer that takes it on and no ingress domain was missing; a missing cluster is ignored and an error of the first read returned, without a call |
| Reconciler.RayClusterReconciler.Release | pkg/controllers/raycluster_controller.go:145-166 | Deletes the binding and, if that is answered or there is none, updates the cluster without the finalizer; succeeds iff the update does |
| Reconciler.RayClusterReconciler.ReconcileCa | pkg/controllers/raycluster_controller.go:168-194 | Reads the secret, then applies the stored pair if it was found, the generated one if it was missing; succeeds iff both calls were answered |
| Reconciler.RayClusterReconciler.ReconcileOAuth | pkg/controllers/raycluster_controller.go:196-240 | Succeeds iff every call was answered, and then has applied route, cookie secret, service and account, looked at the head pod, and applied binding and RayClient route, in this order |
| Reconciler.RayClusterReconciler.ReconcileIngresses | pkg/controllers/raycluster_controller.go:242-272 | Succeeds iff both ingresses were applied, in this order |
| Reconciler.RayClusterReconciler.DeleteHeadPodIfMissingImagePullSecrets | pkg/controllers/raycluster_controller.go:624-652 | Deletes the first listed head pod iff both reads succeed and the account lists a pull secret it lacks; succeeds iff every call was answered |
| Reconciler.RayClusterReconciler.ReconcilePolicies | pkg/controllers/raycluster_controller.go:274-308 | Finds the KubeRay namespaces and applies head and workers policy with them, in this order; succeeds iff the reads were answered, whatever becomes of the policies |
| Reconciler.CollectMissing | pkg/controllers/raycluster_controller.go:638-646 | The map filled and emptied in loops holds exactly the account's secrets that the pod lacks |
| OperatorRuns.AdmissionInvariant | pkg/controllers/raycluster_webhook.go:71-186 | In every run each stored cluster is annotated, defaulted and valid, and its derived names are functions of its key |
| OperatorRuns.OperatorLeaksNoBinding | pkg/controllers/raycluster_controller.go:135-233 | The same for the operator itself, in terms of binding names: a cluster with the same `name-namespace` is present, and where names differ the binding's own |

## Left out

- Start-up, flags, the ConfigMap, discovery, CRD watching and certificate rotation in main.go.
- Generation of certificates, the hash function, base64 and PEM: generated pairs are arbitrary text, the hash is an arbitrary function to eight characters.
- The openssl script in the init containers, image names and environment lookups: opaque text. Fields of containers and volumes for which the operator expects nil are one opaque field each.
- Logging, requeue delays and the mapping of watch events to keys: a pass may start at any time.
- The messages, bad values and detail texts of field errors; kind and location are modelled, and the path follows from the location.
- The aggregate error that drops repeated messages: the model speaks of the list before.
- ValidateDelete, which accepts everything.
- generateName, status, and labels on clusters.
- Legacy names in the results on runs: clusters are created through the webhook and so always annotated. The legacy scheme appears in the naming results only.
- Convergence.RetryConvergence: pods are left to PassDeletesExactly, since a retried pass may meet another head pod.
- References.ReferenceClosure: the binding it finds may be an old one that is still marked for deletion.
- Drawing the salt at start-up: it is a parameter of the restart; a failure to draw it ends the process.
- An update that changes nothing still gets a new resource version; this makes conflicts more frequent than they are.
- Garbage collection of owned objects: a removal of any object by others at any time.
- Delayed delivery of writes in flight, two active controllers, and reads that go back in time.
- Reconciler.RayClusterReconciler.Reconcile: a process killed in the middle never returns, so restarts are steps of the protocol only.
