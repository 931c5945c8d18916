// How hard each notification type is retried
// (backend/src/notifications/notification-policy.ts).
module DeliveryPolicy {

  datatype Policy = Policy(priority: nat, maxAttempts: nat, backoffMinutes: seq<nat>)

  const HOUR := 60
  const MS_PER_MINUTE := 60_000

  // An event type outside the table gets the fallback policy of a single attempt.
  function PolicyFor(eventType: string): Policy {
    if eventType == "security_anomaly" then
      Policy(0, 10, [1, 2, 5, 10, 30, HOUR, 2 * HOUR, 4 * HOUR, 8 * HOUR])
    else if eventType == "agent_offline" then
      Policy(1, 5, [1, 5, 15, HOUR])
    else if eventType == "provisioning_complete" then
      Policy(2, 3, [1, 5])
    else
      Policy(3, 1, [])
  }

  function Min(a: int, b: int): int {
    if a <= b then a else b
  }

  // Wait after `attempts` failed attempts. The index is clamped to the last
  // entry, as in the source; an empty table means no wait.
  function BackoffMs(eventType: string, attempts: nat): nat
    requires attempts >= 1
  {
    var minutes := PolicyFor(eventType).backoffMinutes;
    if |minutes| == 0 then 0
    else minutes[Min(attempts - 1, |minutes| - 1)] * MS_PER_MINUTE
  }

  // A row is retried only while attempts < maxAttempts, and in that range
  // every attempt has an entry of its own: the clamp never decides.
  lemma RetryHasItsOwnBackoff(eventType: string, attempts: nat)
    requires 1 <= attempts < PolicyFor(eventType).maxAttempts
    ensures attempts - 1 < |PolicyFor(eventType).backoffMinutes|
    ensures BackoffMs(eventType, attempts)
         == PolicyFor(eventType).backoffMinutes[attempts - 1] * MS_PER_MINUTE
    ensures BackoffMs(eventType, attempts) > 0
  {
    assert |PolicyFor(eventType).backoffMinutes| == PolicyFor(eventType).maxAttempts - 1;
  }

  predicate Listed(eventType: string) {
    eventType in {"security_anomaly", "agent_offline", "provisioning_complete", "access_granted", "access_revoked"}
  }

  // Security alerts come first, then offline agents, then provisioning, then
  // the rest; whatever is more urgent is also tried more often; and no retry
  // waits less than the one before it.
  lemma UrgentIsTriedHarder(a: string, b: string)
    ensures PolicyFor("security_anomaly").priority < PolicyFor("agent_offline").priority
            < PolicyFor("provisioning_complete").priority < PolicyFor("access_granted").priority
            == PolicyFor("access_revoked").priority
    ensures PolicyFor(a).priority < PolicyFor(b).priority <==> PolicyFor(a).maxAttempts > PolicyFor(b).maxAttempts
    ensures !Listed(a) ==> PolicyFor(a) == PolicyFor("access_granted")
    ensures var waits := PolicyFor(a).backoffMinutes;
            forall i, j | 0 <= i < j < |waits| :: waits[i] < waits[j]
  {
  }
}
