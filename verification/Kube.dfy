/** The part of the RayCluster resource, and of the pod templates inside it, that the operator
    reads or writes. A field named `rest` stands for all fields of the Go struct for which the
    operator's own items leave nil or empty values. */
module Kube {
  import opened Wrappers
  import opened Naming

  const OAUTH_FINALIZER := "ray.openshift.ai/oauth-finalizer"
  const VERSION_ANNOTATION := "ray.openshift.ai/version"

  datatype FieldRef = FieldRef(apiVersion: string, fieldPath: string)
  datatype SecretKeyRef = SecretKeyRef(name: string, key: string, optional: Option<bool>)
  datatype EnvSource = EnvSource(fieldRef: Option<FieldRef>, secretKeyRef: Option<SecretKeyRef>, rest: Option<string>)
  datatype EnvVar = EnvVar(name: string, value: string, valueFrom: Option<EnvSource>)

  datatype VolumeMount = VolumeMount(name: string, readOnly: bool, mountPath: string, subPath: string,
                                     rest: Option<string>)

  datatype Port = Port(name: string, hostPort: int, containerPort: int, protocol: string, hostIP: string)

  datatype Container = Container(name: string, image: string, command: seq<string>, args: seq<string>,
                                 ports: seq<Port>, env: seq<EnvVar>, volumeMounts: seq<VolumeMount>,
                                 stdin: bool, stdinOnce: bool, tty: bool, rest: Option<string>)

  datatype SecretSource = SecretSource(secretName: string, rest: Option<string>)
  datatype EmptyDirSource = EmptyDirSource(medium: string, sizeLimit: Option<string>)
  datatype Volume = Volume(name: string, secret: Option<SecretSource>, emptyDir: Option<EmptyDirSource>,
                           rest: Option<string>)

  datatype PodSpec = PodSpec(containers: seq<Container>, initContainers: seq<Container>, volumes: seq<Volume>,
                             serviceAccountName: string, imagePullSecrets: seq<string>, rest: string)

  datatype HeadGroup = HeadGroup(template: PodSpec, enableIngress: Option<bool>)
  datatype WorkerGroup = WorkerGroup(groupName: string, template: PodSpec)

  datatype Meta = Meta(name: string, namespace: string, uid: nat, resourceVersion: nat, deleting: bool,
                       finalizers: seq<string>, annotations: map<string, string>)

  datatype RayCluster = RayCluster(apiVersion: string, kind: string, meta: Meta,
                                   head: HeadGroup, workers: seq<WorkerGroup>, suspend: Option<bool>)
  {
    predicate Legacy() {
      VERSION_ANNOTATION !in meta.annotations
    }

    predicate Suspended() {
      suspend.GetOr(false)
    }

    predicate Guarded() {
      OAUTH_FINALIZER in meta.finalizers
    }

    function Id(): Key {
      Key(meta.namespace, meta.name)
    }

    function Ident(): Identity {
      Identity(meta.name, meta.namespace, Legacy())
    }
  }

  /** The namespaced name of a RayCluster: the key of a reconcile request. */
  datatype Key = Key(namespace: string, name: string)

  /** What the derived names and the injected items depend on. */
  datatype Identity = Identity(name: string, namespace: string, legacy: bool)

  /** Operator configuration and the inputs the operator takes from its environment: image names,
      the text around the generated certificate request, the cookie derivation and the hash. */
  datatype Settings = Settings(oauth: Option<bool>, mtls: Option<bool>, ingressDomain: string,
                               operatorVersion: string, openShift: bool,
                               oauthImage: string, certImage: string,
                               certScriptHead: string, certScriptTail: string,
                               cookie: string -> string, hash: Hash)
  {
    predicate OAuthEnabled() {
      oauth.GetOr(true)
    }

    predicate MtlsEnabled() {
      mtls.GetOr(true)
    }

    function Name(id: Identity, role: Role): string {
      RoleName(hash, id.legacy, id.name, role)
    }

    function Crb(id: Identity): string {
      CrbName(hash, id.legacy, id.name, id.namespace)
    }
  }

  function ContainerName(c: Container): string { c.name }
  function VolumeName(v: Volume): string { v.name }
  function MountName(m: VolumeMount): string { m.name }
  function EnvName(e: EnvVar): string { e.name }
}
