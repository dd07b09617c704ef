/**
  The fragments of the Kubernetes (`metav1`) and OpenShift (`operatorv1`,
  `configv1`) API types that util.go reads or builds. Only the fields util.go
  touches are kept, plus a few sibling fields so that "copied verbatim" and
  "left unset" can be told apart.
 */
module ApiTypes {

  import opened Wrappers

  /** A label or annotation set: Go's `map[string]string`. */
  type StringMap = map<string, string>

  /** `metav1.OwnerReference`; `Controller` and `BlockOwnerDeletion` are `*bool` in Go. */
  datatype OwnerReference = OwnerReference(
    apiVersion: string,
    kind: string,
    name: string,
    uid: string,
    controller: Option<bool>,
    blockOwnerDeletion: Option<bool>)

  /**
    `metav1.ObjectMeta`. Go maps may be nil, so `labels` and `annotations`
    are optional: None is a nil map, Some(map[]) an allocated empty one.
   */
  datatype ObjectMeta = ObjectMeta(
    name: string,
    namespace: string,
    uid: string,
    labels: Option<StringMap>,
    annotations: Option<StringMap>,
    ownerReferences: seq<OwnerReference>)

  /** The `operatorv1.Console` custom resource: its type meta and identifying object meta. */
  datatype Console = Console(apiVersion: string, kind: string, name: string, uid: string)

  /** `configv1.OIDCClientConfig`: one client registered with an OIDC provider. */
  datatype OIDCClientConfig = OIDCClientConfig(
    componentNamespace: string,
    componentName: string,
    clientID: string)

  /** `configv1.OIDCProvider`: an identity provider and its clients, in stored order. */
  datatype OIDCProvider = OIDCProvider(name: string, oidcClients: seq<OIDCClientConfig>)

  /** `configv1.Authentication`, reduced to `Spec.OIDCProviders`. */
  datatype Authentication = Authentication(oidcProviders: seq<OIDCProvider>)
}
