# Console operator subresource utilities, in Dafny

This project models `pkg/console/subresource/util/util.go` of the OpenShift
console operator. The helpers modelled here are the reconcilers' data-shaping
and lookup functions:

- the label sets stamped on the console and downloads workloads, and the
  shared object metadata;
- the controller owner reference derived from the `Console` custom resource;
- turning a route host into an `https://` URL;
- order-preserving de-duplication of string lists;
- finding the console's own OIDC client in the cluster `Authentication`
  configuration.

Files:

- `wrappers.dfy`: `Option`, which stands for Go's nil-able pointers and maps.
- `api.dfy`: the operator's identifiers (`OpenShiftConsoleName`,
  `OpenShiftConsoleNamespace`, `DownloadsResourceName`, `TargetNamespace`).
  The `pkg/api` package that defines them is not part of this model. The
  constants are declared without values, so every result holds for any
  strings they stand for.
- `apitypes.dfy`: the parts of `metav1.ObjectMeta`, `metav1.OwnerReference`,
  `operatorv1.Console` and `configv1.Authentication` / `OIDCProvider` /
  `OIDCClientConfig` that util.go reads or builds.
- `util.dfy`: the operations and their proofs.

How the Go code maps onto Dafny:

- Functions with a single expression or conditional are Dafny functions.
- The loops are methods with loop invariants. These are the two `range`
  loops of `LabelsForConsole`, the membership-map loop of
  `RemoveDuplicateStr`, and the provider scan of `GetOIDCClientConfig`.
- The two label-copy loops are written once, in `MergeLabels(base, extra)`,
  so that "the overlay wins" can be stated for any base set.
  `LabelsForConsole` calls it with the shared labels and `{component: ui}`.
- Go's map iteration order is unspecified. The loops therefore pick the
  next key with `:|`, so the proofs hold for every order.
- Go returns pointers into the `Authentication` value. Here
  `GetOIDCClientConfig` returns `Option<(provider index, client index)>`
  instead. Provider and client are therefore present together or absent
  together by construction.
- The OIDC lookup matches on the fixed constants `api.TargetNamespace` and
  `api.OpenShiftConsoleName`, as the Go code does (util.go:163). They are
  not parameters.

## Model

| member | source | states |
|---|---|---|
| `Util.SharedLabels` | pkg/console/subresource/util/util.go:24-28 | the shared label set has exactly the key `app`, mapped to the console's name |
| `Util.MergeLabels` | pkg/console/subresource/util/util.go:37-44 | copying base and then overlay into a fresh map yields exactly the union of their keys; overlay keys take the overlay's value; base-only keys keep the base value; the result is the map union `base + extra`, whatever the iteration order |
| `Util.LabelsForConsole` | pkg/console/subresource/util/util.go:30-46 | the console labels have exactly the shared keys plus `component`; `component` is `ui`; every shared key other than `component` keeps its shared value, so the shared labels are contained in the result |
| `Util.LabelsForDownloads` | pkg/console/subresource/util/util.go:48-53 | the downloads labels have exactly the keys `app` and `component`; `component` is the downloads name; they contain the shared labels, so both workloads carry the same selector |
| `Util.SharedMeta` | pkg/console/subresource/util/util.go:55-62 | the shared metadata has the console's name and namespace; its labels are the shared labels; its annotations are an allocated empty map (never nil); it has no UID and no owner references |
| `Util.AddOwnerRef` | pkg/console/subresource/util/util.go:76-85 | attaching an owner reference is a no-op: the object is unchanged for every reference offered |
| `Util.OwnerRefFrom` | pkg/console/subresource/util/util.go:88-101 | a missing console gives no reference, and only a missing one does; a present console gives a reference with its apiVersion, kind, name and UID copied, `Controller` set to true and `BlockOwnerDeletion` left unset |
| `Util.OwnerRefFromInjective` | pkg/console/subresource/util/util.go:88-101 | the owner reference determines the console's apiVersion, kind, name and UID: two consoles that give the same reference agree on those four fields, the only Console fields this model keeps |
| `Util.HTTPS` | pkg/console/subresource/util/util.go:110-121 | the result is empty exactly when the host is; a non-empty result starts with `https://`; a host already starting with `https://` is returned unchanged, any other non-empty host gets `https://` in front; the host is always a suffix of the result |
| `Util.HTTPSIdempotent` | pkg/console/subresource/util/util.go:110-121 | applying HTTPS twice is the same as applying it once |
| `Util.HTTPSExamples` | pkg/console/subresource/util/util.go:110-121 | `""` stays `""`, `example.com` becomes `https://example.com`, `https://example.com` is returned unchanged |
| `Util.Dedup` | pkg/console/subresource/util/util.go:143-153 | the reference left-to-right de-duplication has exactly the input's elements, no element twice, and is no longer than the input |
| `Util.DedupFirstOccurrenceOrder` | pkg/console/subresource/util/util.go:143-153 | kept elements appear in strictly increasing order of their first occurrence in the input |
| `Util.DedupOrderIff` | pkg/console/subresource/util/util.go:143-153 | an output element precedes another if and only if its first occurrence in the input comes earlier |
| `Util.DedupIsSubsequence` | pkg/console/subresource/util/util.go:143-153 | the output is a subsequence of the input |
| `Util.DedupOfDistinct` | pkg/console/subresource/util/util.go:143-153 | a list without duplicates is returned unchanged |
| `Util.DedupIdempotent` | pkg/console/subresource/util/util.go:143-153 | de-duplicating twice equals de-duplicating once |
| `Util.DedupExample` | pkg/console/subresource/util/util.go:143-153 | `[]` gives `[]`; `[a, b, a, c, b]` gives `[a, b, c]` |
| `Util.RemoveDuplicateStr` | pkg/console/subresource/util/util.go:143-153 | the membership-map loop computes the reference de-duplication; the result has no duplicates, has exactly the input's elements, is no longer than the input, is a subsequence of it, and orders elements by first occurrence (both directions) |
| `Util.IndexFunc` | pkg/console/subresource/util/util.go:162-167 | the index search returns the first index whose element satisfies the predicate, or -1 exactly when no element does |
| `Util.FirstConsoleClientUnique` | pkg/console/subresource/util/util.go:160-171 | the "first console client in provider order, then client order" position is unique, so the lookup's answer is determined |
| `Util.GetOIDCClientConfig` | pkg/console/subresource/util/util.go:155-174 | no providers gives none; a result `(i, j)` names client `j` of provider `i`, which belongs to the console (target namespace and console name); no earlier provider has such a client (providers without clients are skipped), and no earlier client of provider `i` is one; the result is none exactly when no client of any provider belongs to the console |

## Left out

- `LogYaml` (util.go:64-73) is left out. It only marshals an object to YAML and writes it to the log.
- `GetImageEnv` (util.go:105-107) is left out. It is a direct read of a process environment variable.
- `ReadUnstructuredOrDie` and `ReadManagedProxyServiceResolverOrDie` (util.go:126-141) are left out. They wrap the Kubernetes and cluster-proxy universal decoders, which are not part of this model. Their only local logic is to panic when decoding fails.
- The verbosity-4 log line that `HTTPS` writes for an empty host (util.go:113) is left out. Only the return value is modelled.
- Pointer identity in `GetOIDCClientConfig`'s results is left out. The model returns indices into the providers and the chosen provider's clients instead.
- A nil `authnConfig` passed to `GetOIDCClientConfig` is not modelled. The Go code would dereference it and panic. Here the argument is a value and cannot be nil.
- The actual strings behind the `pkg/api` constants are not modelled. No property depends on them.
- `Console` keeps only apiVersion, kind, name and UID. Its namespace, labels, spec and status are not modelled, because `OwnerRefFrom` does not read them.
- Go strings are byte strings; here they are `seq<char>`. Behaviour is the same for valid UTF-8: `HasPrefix` compares against the ASCII `https://`, and de-duplication uses plain equality.
