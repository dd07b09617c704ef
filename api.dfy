/**
  The identifiers the console operator uses for its own workload. They are
  defined in the operator's `pkg/api` package, which is not part of this
  model; their values are left unspecified, so every property proved here
  holds whatever strings they stand for.
 */
module Api {

  /** Name of the console application, its Deployment and its OIDC client. */
  const OpenShiftConsoleName: string

  /** Namespace the console workload runs in. */
  const OpenShiftConsoleNamespace: string

  /** Name of the downloads workload, used as its `component` label. */
  const DownloadsResourceName: string

  /** Namespace recorded as the owning component's namespace on OIDC clients. */
  const TargetNamespace: string
}
