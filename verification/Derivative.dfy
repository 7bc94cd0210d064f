/** The "derivative" comparison of the API machinery, on the item types of the webhook: nil
    pointers, empty strings and empty lists on the expected side are ignored, an expected list
    is matched index by index against a prefix of the actual one, booleans and numbers must be
    equal. */
module Derivative {
  import opened Wrappers
  import opened Kube

  predicate TextDerives(e: string, a: string) {
    e == "" || e == a
  }

  predicate TextsDerive(e: seq<string>, a: seq<string>) {
    |e| <= |a| && forall i | 0 <= i < |e| :: TextDerives(e[i], a[i])
  }

  predicate RestDerives(e: Option<string>, a: Option<string>) {
    e.None? || (a.Some? && TextDerives(e.value, a.value))
  }

  predicate FieldRefDerives(e: Option<FieldRef>, a: Option<FieldRef>) {
    e.None? || (a.Some? && TextDerives(e.value.apiVersion, a.value.apiVersion)
                && TextDerives(e.value.fieldPath, a.value.fieldPath))
  }

  predicate SecretKeyRefDerives(e: Option<SecretKeyRef>, a: Option<SecretKeyRef>) {
    e.None? || (a.Some? && TextDerives(e.value.name, a.value.name) && TextDerives(e.value.key, a.value.key)
                && (e.value.optional.None? || e.value.optional == a.value.optional))
  }

  predicate EnvSourceDerives(e: Option<EnvSource>, a: Option<EnvSource>) {
    e.None? || (a.Some? && FieldRefDerives(e.value.fieldRef, a.value.fieldRef)
                && SecretKeyRefDerives(e.value.secretKeyRef, a.value.secretKeyRef)
                && RestDerives(e.value.rest, a.value.rest))
  }

  predicate EnvVarDerives(e: EnvVar, a: EnvVar) {
    TextDerives(e.name, a.name) && TextDerives(e.value, a.value) && EnvSourceDerives(e.valueFrom, a.valueFrom)
  }

  predicate MountDerives(e: VolumeMount, a: VolumeMount) {
    TextDerives(e.name, a.name) && e.readOnly == a.readOnly && TextDerives(e.mountPath, a.mountPath)
    && TextDerives(e.subPath, a.subPath) && RestDerives(e.rest, a.rest)
  }

  predicate PortDerives(e: Port, a: Port) {
    TextDerives(e.name, a.name) && e.hostPort == a.hostPort && e.containerPort == a.containerPort
    && TextDerives(e.protocol, a.protocol) && TextDerives(e.hostIP, a.hostIP)
  }

  predicate ContainerDerives(e: Container, a: Container) {
    && TextDerives(e.name, a.name) && TextDerives(e.image, a.image)
    && TextsDerive(e.command, a.command) && TextsDerive(e.args, a.args)
    && |e.ports| <= |a.ports| && (forall i | 0 <= i < |e.ports| :: PortDerives(e.ports[i], a.ports[i]))
    && |e.env| <= |a.env| && (forall i | 0 <= i < |e.env| :: EnvVarDerives(e.env[i], a.env[i]))
    && |e.volumeMounts| <= |a.volumeMounts|
    && (forall i | 0 <= i < |e.volumeMounts| :: MountDerives(e.volumeMounts[i], a.volumeMounts[i]))
    && e.stdin == a.stdin && e.stdinOnce == a.stdinOnce && e.tty == a.tty && RestDerives(e.rest, a.rest)
  }

  predicate VolumeDerives(e: Volume, a: Volume) {
    && TextDerives(e.name, a.name)
    && (e.secret.None? || (a.secret.Some? && TextDerives(e.secret.value.secretName, a.secret.value.secretName)
                           && RestDerives(e.secret.value.rest, a.secret.value.rest)))
    && (e.emptyDir.None? || (a.emptyDir.Some? && TextDerives(e.emptyDir.value.medium, a.emptyDir.value.medium)
                             && RestDerives(e.emptyDir.value.sizeLimit, a.emptyDir.value.sizeLimit)))
    && RestDerives(e.rest, a.rest)
  }

  /** A container still derives from the expected one after more env vars and mounts are appended. */
  lemma ContainerExtended(k: Container, env: seq<EnvVar>, mounts: seq<VolumeMount>)
    ensures ContainerDerives(k, k.(env := k.env + env, volumeMounts := k.volumeMounts + mounts))
  {
    var a := k.(env := k.env + env, volumeMounts := k.volumeMounts + mounts);
    assert forall i | 0 <= i < |k.env| :: a.env[i] == k.env[i];
    assert forall i | 0 <= i < |k.volumeMounts| :: a.volumeMounts[i] == k.volumeMounts[i];
  }
}
