/**
  The console operator's subresource utilities (package `util`): the label
  sets and object metadata stamped on managed resources, owner references,
  the `https://` prefixing of route hosts, order-preserving string
  de-duplication, and the lookup of the console's own OIDC client in the
  cluster's authentication configuration.
 */
module Util {

  import opened Wrappers
  import opened ApiTypes
  import Api

  /** `m` is contained in `n`: every key of `m` is in `n` with the same value. */
  predicate SubMap(m: StringMap, n: StringMap) {
    forall k :: k in m ==> k in n && n[k] == m[k]
  }

  // ---------------------------------------------------------------------------
  // Labels and shared metadata
  // ---------------------------------------------------------------------------

  /** The one selector label every managed resource carries. */
  function SharedLabels(): (labels: StringMap)
    ensures labels.Keys == {"app"}
    ensures labels["app"] == Api.OpenShiftConsoleName
  {
    map["app" := Api.OpenShiftConsoleName]
  }

  /**
    Copies `baseLabels` and then `extraLabels` into a fresh map, one key at a
    time; Go's map iteration order is unspecified, so each loop picks its next
    key arbitrarily. Later writes win, so the overlay wins on every shared key.
   */
  method MergeLabels(baseLabels: StringMap, extraLabels: StringMap) returns (allLabels: StringMap)
    ensures allLabels.Keys == baseLabels.Keys + extraLabels.Keys
    ensures forall k :: k in extraLabels ==> allLabels[k] == extraLabels[k]
    ensures forall k :: k in baseLabels && k !in extraLabels ==> allLabels[k] == baseLabels[k]
    ensures allLabels == baseLabels + extraLabels
  {
    allLabels := map[];
    var pending := baseLabels.Keys;
    while pending != {}
      invariant pending <= baseLabels.Keys
      invariant allLabels == map k | k in baseLabels.Keys - pending :: baseLabels[k]
      decreases pending
    {
      var key :| key in pending;
      allLabels := allLabels[key := baseLabels[key]];
      pending := pending - {key};
    }
    pending := extraLabels.Keys;
    while pending != {}
      invariant pending <= extraLabels.Keys
      invariant allLabels == baseLabels + map k | k in extraLabels.Keys - pending :: extraLabels[k]
      decreases pending
    {
      var key :| key in pending;
      allLabels := allLabels[key := extraLabels[key]];
      pending := pending - {key};
    }
  }

  /** The console's labels: the shared labels overlaid with `component: ui`. */
  method LabelsForConsole() returns (allLabels: StringMap)
    ensures allLabels.Keys == SharedLabels().Keys + {"component"}
    ensures allLabels["component"] == "ui"
    ensures forall k :: k in SharedLabels() && k != "component" ==> allLabels[k] == SharedLabels()[k]
    ensures SubMap(SharedLabels(), allLabels)
  {
    var baseLabels := SharedLabels();
    var extraLabels := map["component" := "ui"];
    allLabels := MergeLabels(baseLabels, extraLabels);
  }

  /** The downloads workload's labels, a fixed set written out independently of SharedLabels. */
  function LabelsForDownloads(): (labels: StringMap)
    ensures labels.Keys == {"app", "component"}
    ensures labels["component"] == Api.DownloadsResourceName
    ensures SubMap(SharedLabels(), labels)
  {
    map["app" := Api.OpenShiftConsoleName, "component" := Api.DownloadsResourceName]
  }

  /** Metadata of the primary console object; a fresh value on every call. */
  function SharedMeta(): (meta: ObjectMeta)
    ensures meta.name == Api.OpenShiftConsoleName
    ensures meta.namespace == Api.OpenShiftConsoleNamespace
    ensures meta.labels == Some(SharedLabels())
    ensures meta.annotations.Some? && meta.annotations.value == map[]
    ensures meta.uid == "" && meta.ownerReferences == []
  {
    ObjectMeta(
      name := Api.OpenShiftConsoleName,
      namespace := Api.OpenShiftConsoleNamespace,
      uid := "",
      labels := Some(SharedLabels()),
      annotations := Some(map[]),
      ownerReferences := [])
  }

  // ---------------------------------------------------------------------------
  // Owner references
  // ---------------------------------------------------------------------------

  /**
    Attaching an owner reference is deliberately disabled: the object comes
    back exactly as it was, whatever reference is offered.
   */
  function AddOwnerRef(obj: ObjectMeta, ownerRef: Option<OwnerReference>): (updated: ObjectMeta)
    ensures updated == obj
  {
    obj
  }

  /** The controller owner reference pointing at a Console, or none for a missing one. */
  function OwnerRefFrom(cr: Option<Console>): (ref: Option<OwnerReference>)
    ensures ref.None? <==> cr.None?
    ensures cr.Some? ==>
      && ref.value.apiVersion == cr.value.apiVersion
      && ref.value.kind == cr.value.kind
      && ref.value.name == cr.value.name
      && ref.value.uid == cr.value.uid
    ensures cr.Some? ==> ref.value.controller == Some(true) && ref.value.blockOwnerDeletion == None
  {
    match cr
    case None => None
    case Some(c) =>
      Some(OwnerReference(
        apiVersion := c.apiVersion,
        kind := c.kind,
        name := c.name,
        uid := c.uid,
        controller := Some(true),
        blockOwnerDeletion := None))
  }

  /**
    The reference determines the console's apiVersion, kind, name and UID;
    `Console` here carries exactly those fields, so the console is determined.
   */
  lemma OwnerRefFromInjective(a: Console, b: Console)
    requires OwnerRefFrom(Some(a)) == OwnerRefFrom(Some(b))
    ensures a == b
  {
  }

  // ---------------------------------------------------------------------------
  // HTTPS prefixing
  // ---------------------------------------------------------------------------

  const Protocol: string := "https://"

  /** Go's `strings.HasPrefix`. */
  predicate HasPrefix(s: string, prefix: string) {
    |prefix| <= |s| && s[..|prefix|] == prefix
  }

  /** A route host as an `https://` URL; the empty host stays empty. */
  function HTTPS(host: string): (secured: string)
    ensures secured == "" <==> host == ""
    ensures secured != "" ==> HasPrefix(secured, Protocol)
    ensures HasPrefix(host, Protocol) ==> secured == host
    ensures host != "" && !HasPrefix(host, Protocol) ==> secured == Protocol + host
    ensures |host| <= |secured| && secured[|secured| - |host|..] == host
  {
    if host == "" then ""
    else if HasPrefix(host, Protocol) then host
    else Protocol + host
  }

  /** Prefixing an already prefixed URL changes nothing. */
  lemma HTTPSIdempotent(host: string)
    ensures HTTPS(HTTPS(host)) == HTTPS(host)
  {
    if host != "" && !HasPrefix(host, Protocol) {
      assert HasPrefix(HTTPS(host), Protocol);
    }
  }

  /** The three cases on concrete hosts. */
  lemma HTTPSExamples()
    ensures HTTPS("") == ""
    ensures HTTPS("example.com") == "https://example.com"
    ensures HTTPS("https://example.com") == "https://example.com"
  {
    assert HasPrefix("https://example.com", Protocol);
    assert !HasPrefix("example.com", Protocol) by {
      assert "example.com"[..|Protocol|] != Protocol by {
        assert "example.com"[0] != Protocol[0];
      }
    }
  }

  // ---------------------------------------------------------------------------
  // Order-preserving de-duplication
  // ---------------------------------------------------------------------------

  predicate NoDuplicates(s: seq<string>) {
    forall i, j :: 0 <= i < j < |s| ==> s[i] != s[j]
  }

  /**
    Reference definition of de-duplication: scan left to right and keep an
    element only when it has not been kept already.
   */
  function Dedup(s: seq<string>): (d: seq<string>)
    ensures forall x :: x in d <==> x in s
    ensures NoDuplicates(d)
    ensures |d| <= |s|
  {
    if s == [] then []
    else
      var prefix := Dedup(s[..|s| - 1]);
      if s[|s| - 1] in prefix then prefix else prefix + [s[|s| - 1]]
  }

  /** Index of the first occurrence of `x` in `s`, or `|s|` when `x` does not occur. */
  function FirstOccurrence(s: seq<string>, x: string): (pos: nat)
    ensures pos <= |s| && x !in s[..pos]
    ensures pos < |s| <==> x in s
    ensures pos < |s| ==> s[pos] == x
  {
    if s == [] then 0
    else
      var n := |s| - 1;
      var i := FirstOccurrence(s[..n], x);
      if i < n then i
      else if s[n] == x then n
      else |s|
  }

  /** Kept elements appear in the order of their first occurrences in the input. */
  lemma {:induction false} DedupFirstOccurrenceOrder(s: seq<string>)
    ensures forall i, j :: 0 <= i < j < |Dedup(s)| ==>
      FirstOccurrence(s, Dedup(s)[i]) < FirstOccurrence(s, Dedup(s)[j])
  {
    if s != [] {
      var n := |s| - 1;
      var p := s[..n];
      DedupFirstOccurrenceOrder(p);
      var d, dp := Dedup(s), Dedup(p);
      forall y | y in p ensures FirstOccurrence(s, y) == FirstOccurrence(p, y) { }
      forall i, j | 0 <= i < j < |d| ensures FirstOccurrence(s, d[i]) < FirstOccurrence(s, d[j]) {
        if j < |dp| {
          assert d[i] == dp[i] && d[j] == dp[j];
        } else {
          assert d[j] == s[n] && s[n] !in p;
          assert d[i] == dp[i] && d[i] in p;
        }
      }
    }
  }

  /** Both directions: an output element precedes another exactly when it first occurs earlier. */
  lemma DedupOrderIff(s: seq<string>)
    ensures forall i, j :: 0 <= i < |Dedup(s)| && 0 <= j < |Dedup(s)| ==>
      (i < j <==> FirstOccurrence(s, Dedup(s)[i]) < FirstOccurrence(s, Dedup(s)[j]))
  {
    DedupFirstOccurrenceOrder(s);
  }

  /** `idx` picks the elements of `t` out of `s` at strictly increasing positions. */
  predicate SubsequenceBy(t: seq<string>, s: seq<string>, idx: seq<nat>) {
    && |idx| == |t|
    && (forall k :: 0 <= k < |idx| ==> idx[k] < |s| && t[k] == s[idx[k]])
    && (forall k, l :: 0 <= k < l < |idx| ==> idx[k] < idx[l])
  }

  ghost predicate IsSubsequence(t: seq<string>, s: seq<string>) {
    exists idx :: SubsequenceBy(t, s, idx)
  }

  /** The output is a subsequence of the input, taken at the first occurrences. */
  lemma DedupIsSubsequence(s: seq<string>)
    ensures IsSubsequence(Dedup(s), s)
  {
    var d := Dedup(s);
    DedupFirstOccurrenceOrder(s);
    var idx := seq(|d|, k requires 0 <= k < |d| => FirstOccurrence(s, d[k]));
    assert SubsequenceBy(d, s, idx);
  }

  /** A duplicate-free sequence is its own de-duplication. */
  lemma {:induction false} DedupOfDistinct(t: seq<string>)
    requires NoDuplicates(t)
    ensures Dedup(t) == t
  {
    if t != [] {
      var n := |t| - 1;
      DedupOfDistinct(t[..n]);
      assert t[n] !in t[..n];
      assert t == t[..n] + [t[n]];
    }
  }

  /** De-duplicating twice is the same as de-duplicating once. */
  lemma DedupIdempotent(s: seq<string>)
    ensures Dedup(Dedup(s)) == Dedup(s)
  {
    DedupOfDistinct(Dedup(s));
  }

  lemma DedupExample()
    ensures Dedup([]) == []
    ensures Dedup(["a", "b", "a", "c", "b"]) == ["a", "b", "c"]
  {
    assert ["a", "b", "a", "c", "b"][..4] == ["a", "b", "a", "c"];
    assert ["a", "b", "a", "c"][..3] == ["a", "b", "a"];
    assert ["a", "b", "a"][..2] == ["a", "b"];
    assert ["a", "b"][..1] == ["a"];
    assert ["a"][..0] == [];
  }

  /**
    Go's `RemoveDuplicateStr`: a single pass that records every element
    already emitted in the membership map `allKeys` and appends only the
    elements not yet recorded.
   */
  method RemoveDuplicateStr(strSlice: seq<string>) returns (list: seq<string>)
    ensures list == Dedup(strSlice)
    ensures NoDuplicates(list)
    ensures forall x :: x in list <==> x in strSlice
    ensures |list| <= |strSlice|
    ensures IsSubsequence(list, strSlice)
    ensures forall k, l :: 0 <= k < |list| && 0 <= l < |list| ==>
      (k < l <==> FirstOccurrence(strSlice, list[k]) < FirstOccurrence(strSlice, list[l]))
  {
    var allKeys: map<string, bool> := map[];
    list := [];
    for i := 0 to |strSlice|
      invariant list == Dedup(strSlice[..i])
      invariant allKeys.Keys == set x | x in list
    {
      var item := strSlice[i];
      assert strSlice[..i + 1][..i] == strSlice[..i];
      var present := item in allKeys;
      if !present {
        allKeys := allKeys[item := true];
        list := list + [item];
      }
    }
    assert strSlice[..|strSlice|] == strSlice;
    DedupIsSubsequence(strSlice);
    DedupOrderIff(strSlice);
  }

  // ---------------------------------------------------------------------------
  // OIDC client lookup
  // ---------------------------------------------------------------------------

  /** `slices.IndexFunc`: the first index whose element satisfies `f`, or -1. */
  function IndexFunc<T>(s: seq<T>, f: T -> bool): (r: int)
    ensures -1 <= r < |s|
    ensures r == -1 <==> forall k :: 0 <= k < |s| ==> !f(s[k])
    ensures 0 <= r ==> f(s[r]) && forall k :: 0 <= k < r ==> !f(s[k])
  {
    if s == [] then -1
    else if f(s[0]) then 0
    else
      var r := IndexFunc(s[1..], f);
      if r == -1 then -1 else r + 1
  }

  /** The client registered for the console component itself. */
  predicate IsConsoleClient(oc: OIDCClientConfig) {
    oc.componentNamespace == Api.TargetNamespace && oc.componentName == Api.OpenShiftConsoleName
  }

  ghost predicate HasConsoleClient(p: OIDCProvider) {
    exists j :: 0 <= j < |p.oidcClients| && IsConsoleClient(p.oidcClients[j])
  }

  /**
    Client `j` of provider `i` is the console's client, and it is the first
    one in provider order, then client order.
   */
  ghost predicate IsFirstConsoleClient(providers: seq<OIDCProvider>, i: nat, j: nat) {
    && i < |providers|
    && j < |providers[i].oidcClients|
    && IsConsoleClient(providers[i].oidcClients[j])
    && (forall p :: 0 <= p < i ==> !HasConsoleClient(providers[p]))
    && (forall c :: 0 <= c < j ==> !IsConsoleClient(providers[i].oidcClients[c]))
  }

  /** At most one position is the first console client. */
  lemma FirstConsoleClientUnique(providers: seq<OIDCProvider>, i: nat, j: nat, i': nat, j': nat)
    requires IsFirstConsoleClient(providers, i, j)
    requires IsFirstConsoleClient(providers, i', j')
    ensures i == i' && j == j'
  {
    if i < i' {
      assert HasConsoleClient(providers[i]);
    } else if i' < i {
      assert HasConsoleClient(providers[i']);
    }
  }

  /**
    Go's `GetOIDCClientConfig`: the provider and client entry of the console's
    OIDC client, as indices into the providers and that provider's clients,
    or None when no provider lists it. Provider and client come together or
    not at all.
   */
  method GetOIDCClientConfig(authnConfig: Authentication) returns (found: Option<(nat, nat)>)
    ensures |authnConfig.oidcProviders| == 0 ==> found == None
    ensures found.Some? ==> IsFirstConsoleClient(authnConfig.oidcProviders, found.value.0, found.value.1)
    ensures found.None? <==>
      forall p :: 0 <= p < |authnConfig.oidcProviders| ==> !HasConsoleClient(authnConfig.oidcProviders[p])
  {
    var providers := authnConfig.oidcProviders;
    if |providers| == 0 {
      return None;
    }
    var clientIdx: int;
    for i := 0 to |providers|
      invariant forall p :: 0 <= p < i ==> !HasConsoleClient(providers[p])
    {
      clientIdx := IndexFunc(providers[i].oidcClients, IsConsoleClient);
      if clientIdx != -1 {
        return Some((i, clientIdx));
      }
    }
    return None;
  }
}
