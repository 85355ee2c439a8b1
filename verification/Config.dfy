/** Runtime limits and the inequalities the service refuses to start without. Durations in microseconds. */
module Config {
  import opened Common

  /** How long a reconciler holds an attempt, and a dispatcher a delivery. */
  const RECONCILE_LEASE: Time := 30 * SECOND
  const DELIVERY_LEASE: Time := 60 * SECOND

  datatype Fault =
    | AdminTokenTooShort
    | MustBePositive(name: string)
    | GraceNotAboveTimeout
    | PspTimeoutNotBelowLease
    | WebhookTimeoutNotBelowLease

  datatype Config = Config(
    adminTokenLength: nat,
    pspTimeout: Time,
    notFoundGrace: Time,
    webhookTimeout: Time,
    pollInterval: Time)
  {
    function Validate(): (r: Result<(), Fault>)
      ensures r.Ok? <==> && adminTokenLength >= 16 && 0 < pollInterval
                         && 0 < pspTimeout < notFoundGrace && pspTimeout < 30 * SECOND
                         && 0 < webhookTimeout < 60 * SECOND
    {
      if adminTokenLength < 16 then Err(AdminTokenTooShort)
      else if pspTimeout == 0 then Err(MustBePositive("PSP_TIMEOUT_MS"))
      else if webhookTimeout == 0 then Err(MustBePositive("WEBHOOK_TIMEOUT_MS"))
      else if pollInterval == 0 then Err(MustBePositive("WORKER_POLL_INTERVAL_MS"))
      else if notFoundGrace <= pspTimeout then Err(GraceNotAboveTimeout)
      else if pspTimeout >= RECONCILE_LEASE then Err(PspTimeoutNotBelowLease)
      else if webhookTimeout >= DELIVERY_LEASE then Err(WebhookTimeoutNotBelowLease)
      else Ok(())
    }

    /** The reconciler's first look at a new attempt: just after the request path gave up on the PSP. */
    function FirstLook(): Time { pspTimeout + SECOND }
  }
}
