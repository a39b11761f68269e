# autosysadmin backend core in Dafny

This project models the Go backend of autosysadmin, a service that manages a
fleet of remote hosts ("agents"). It covers:

- the Redis-backed job queue;
- the agent registry and command dispatcher, including the fan-out to every agent;
- the per-agent monitoring tick with threshold alerts, the alert manager and the
  metrics store;
- the patch manager and its update-record repository;
- the per-IP rate limiter and the bearer-token middleware;
- the secret vault with key rotation, the SSH key manager and the vulnerability scanner;
- the authentication service;
- subscriptions, usage tracking, billing usage aggregation, pricing and the billing service.

Each core Go file is one Dafny module:

| Go file | module |
|---|---|
| `jobqueue/redis.go` | `JobQueue` |
| `agent/agent.go` | `Agents` |
| `agent/manager.go` | `AgentManager` |
| `monitoring/monitor.go` | `Monitoring` |
| `monitoring/alert.go` | `Alerts` |
| `monitoring/metrics.go` | `Metrics` |
| `patching/manager.go` | `Patching` |
| `patching/updates.go` | `UpdateRecords` |
| `api/middleware/ratelimit.go` | `RateLimit` |
| `api/middleware/auth.go` | `AuthMiddleware` |
| `security/vault.go` | `Vault` |
| `security/ssh.go` | `SshKeys` |
| `security/scanner.go` | `Scanner` |
| `auth/auth.go` | `Auth` |
| `subscriptions/repository.go` | `SubscriptionStore` |
| `subscriptions/service.go` | `Subscriptions` |
| `usage/repository.go` | `UsageStore` |
| `usage/tracker.go` | `UsageTracker` |
| `billing/usage.go` | `BillingUsage` |
| `billing/pricing.go` | `Pricing` |
| `billing/service.go` | `Billing` |

`Common` holds shared pieces:

- `Option` and `Result`;
- the time constants;
- the decimal rendering that `fmt`'s `%d` performs, with its injectivity;
- Go's `fmt.Errorf("...: %w")` wrapping, as `Wrap`;
- the constant that every `generateUUID` returns.

How the Go program is represented:

- Every Go struct whose fields a method updates is a Dafny `class`. Its maps
  and slices are `map` and `seq` fields that the methods reassign.
- Each method states its whole new state.
- Loops are `while`/`for` loops proved against recursive specification
  functions, and the properties are proved about those functions.
- Time is Unix seconds as an `int`. Floating-point quantities are `real`.
- Everything outside the core is a parameter of the operation that uses it:
  - store and codec failures;
  - the key generator, bcrypt and JWT signing and parsing;
  - the agent's stats collector;
  - random nonces and keys;
  - the calendar shifts by days, weeks, months or years.
- Go's unordered map iteration is modelled by `Common.Pick`, which may return
  any element of the remaining set.

Three behaviours of the code worth knowing:

- `CompleteJob` and `FailJob` overwrite any status, terminal ones included:
  `JobQueue.TerminalStatusIsNotGuarded`.
- Job ids are the agent id and the Unix second, so two submissions to one agent
  in the same second share an id: `Agents.JobIdsCollideIffSameSecond`.
- The monitoring tick appends each alert to the monitor's own per-agent alert
  list and never calls the alert manager.

## Model

| member | source | states |
|---|---|---|
| JobQueue.PushAllSnoc | backend/internal/jobqueue/redis.go:57 | pushing a list of ids one at a time puts the last one at the head |
| JobQueue.Drain | backend/internal/jobqueue/redis.go:64 | popping from the tail until empty yields as many ids as were queued |
| JobQueue.DrainLPush | backend/internal/jobqueue/redis.go:57-64 | an id pushed at the head is popped after every id already queued (FIFO) |
| JobQueue.DrainPushAll | backend/internal/jobqueue/redis.go:57-64 | ids enqueued in order are dequeued in the same order, after the ids already queued |
| JobQueue.RedisJobQueue.constructor | backend/internal/jobqueue/redis.go:30-41 | a new queue holds no job records and no pending ids |
| JobQueue.RedisJobQueue.Enqueue | backend/internal/jobqueue/redis.go:43-60 | stores the job with status forced to "queued" and pushes its id at the head, both or neither; marshal failure and transaction failure give their errors and change nothing |
| JobQueue.RedisJobQueue.Dequeue | backend/internal/jobqueue/redis.go:62-95 | an empty queue gives no job and no error; otherwise the oldest id is popped and its job is returned and stored as "running"; a later failure leaves the id popped and the record unchanged; each failing step gives its wrapped error |
| JobQueue.RedisJobQueue.Finish | backend/internal/jobqueue/redis.go:97-139 | the load, set status and payload, save sequence shared by CompleteJob and FailJob: an unknown id gives "failed to get job data: redis: nil"; success replaces only that record's status and payload |
| JobQueue.RedisJobQueue.CompleteJob | backend/internal/jobqueue/redis.go:97-117 | a known job becomes "completed" with the result; unknown ids and store failures leave all records unchanged |
| JobQueue.RedisJobQueue.FailJob | backend/internal/jobqueue/redis.go:119-139 | a known job becomes "failed" with the message; unknown ids and store failures leave all records unchanged |
| JobQueue.RedisJobQueue.GetJob | backend/internal/jobqueue/redis.go:141-154 | returns the stored job exactly when the id is known and loading and decoding succeed |
| JobQueue.TerminalStatusIsNotGuarded | backend/internal/jobqueue/redis.go:97-139 | one job passes through queued, running, completed and then failed, because nothing checks for a terminal status |
| Agents.JobIdsCollideIffSameSecond | backend/internal/agent/agent.go:34 | two job ids of one agent are equal exactly when they were made in the same second |
| Agents.JobIdsDistinctAcrossAgents | backend/internal/agent/agent.go:34 | in one second, job ids of different agents differ |
| Agents.ExecuteCommand | backend/internal/agent/agent.go:32-53 | enqueues a job carrying the command, arguments, timeout and creation time, and returns a receipt with the job id, "queued" and the time; an enqueue failure is wrapped as "failed to enqueue job: …" and leaves the queue unchanged |
| AgentManager.SentIdsFrom | backend/internal/agent/manager.go:66-83 | every id pushed by the fan-out is the job id of an agent whose submission succeeded |
| AgentManager.SentIdsCover | backend/internal/agent/manager.go:66-83 | every agent whose submission succeeded has its job id pushed |
| AgentManager.DispatchedEntries | backend/internal/agent/manager.go:59-87 | the fan-out result has exactly one entry per agent id in the snapshot, and each entry is that agent's own result or error |
| AgentManager.RecordsAfterSent | backend/internal/agent/manager.go:66-83 | after the fan-out, every agent whose submission succeeded has its queued job stored under its job id |
| AgentManager.RecordsAfterOthers | backend/internal/agent/manager.go:66-83 | the fan-out leaves every other job record untouched and adds no other record |
| AgentManager.Manager.constructor | backend/internal/agent/manager.go:19-25 | a new registry is empty over the given queue, with a 30-second timeout |
| AgentManager.Manager.RegisterAgent | backend/internal/agent/manager.go:27-31 | upserts the agent by id, last write wins |
| AgentManager.Manager.GetAgent | backend/internal/agent/manager.go:33-38 | finds the agent exactly when its id is registered |
| AgentManager.Manager.ListAgents | backend/internal/agent/manager.go:40-48 | lists every registered agent exactly once |
| AgentManager.Manager.RunCommandOnAgent | backend/internal/agent/manager.go:50-57 | an unknown agent gives "agent not found" and no queue change; otherwise the job is submitted as ExecuteCommand does |
| AgentManager.Manager.RunCommandOnAll | backend/internal/agent/manager.go:59-87 | submits to every registered agent; the result map's keys are exactly the registered ids; the queue's records and pending list are exactly what those submissions produce |
| AgentManager.Manager.SubmitAll | backend/internal/agent/manager.go:66-85 | the submission loop over a snapshot produces the dispatch map, records and pending ids of the specification functions |
| Monitoring.TickMetrics | backend/internal/monitoring/monitor.go:105-111 | a tick records the five metrics cpu, memory, disk, network_in and network_out, in that order, stamped with the tick time |
| Monitoring.AlertIdsOfOneSecond | backend/internal/monitoring/monitor.go:122 | alert ids of one agent in one second differ exactly when the metric names differ |
| Monitoring.BreachesSound | backend/internal/monitoring/monitor.go:117-131 | every alert a tick raises comes from a metric whose value strictly exceeds its agent's threshold |
| Monitoring.BreachesComplete | backend/internal/monitoring/monitor.go:117-131 | every metric strictly above its threshold raises its alert |
| Monitoring.BreachesCarry | backend/internal/monitoring/monitor.go:121-130 | each raised alert is active, names its agent, metric, value and threshold, has value > threshold, and carries the agent-metric-second id |
| Monitoring.NoThresholdsNoAlerts | backend/internal/monitoring/monitor.go:118 | an agent without thresholds never gets an alert |
| Monitoring.MetricNamesDistinct | backend/internal/monitoring/monitor.go:105-111 | the five metric names of a tick are pairwise distinct |
| Monitoring.TickAlertIffBreach | backend/internal/monitoring/monitor.go:117-131 | for each of the five metrics, the tick raises an alert for it exactly when a threshold is set for it and the value strictly exceeds it |
| Monitoring.Monitor.constructor | backend/internal/monitoring/monitor.go:47-54 | a new monitor has no metrics, alerts, thresholds or polled agents |
| Monitoring.Monitor.StartMonitoring | backend/internal/monitoring/monitor.go:56-69 | starting an agent already polled fails with "monitoring already started for agent <id>"; otherwise the agent becomes polled; no metric, alert or threshold changes |
| Monitoring.Monitor.StopMonitoring | backend/internal/monitoring/monitor.go:71-83 | stopping an agent not polled fails with "no monitoring active for agent <id>"; otherwise the agent stops being polled |
| Monitoring.Monitor.Tick | backend/internal/monitoring/monitor.go:94-136 | an unknown agent or a collection failure skips the tick; otherwise the five metrics are appended to the agent's series and exactly the breaching metrics' alerts are appended to its alerts, which stay absent if none breach |
| Monitoring.Monitor.GetMetrics | backend/internal/monitoring/monitor.go:141-151 | returns the agent's series, or "no metrics found for agent <id>" |
| Monitoring.Monitor.GetAlerts | backend/internal/monitoring/monitor.go:153-163 | returns the agent's alerts, or "no alerts found for agent <id>" |
| Monitoring.Monitor.SetAlertThreshold | backend/internal/monitoring/monitor.go:165-175 | upserts one threshold of one agent, keeping its other thresholds |
| Monitoring.RestartAfterStop | backend/internal/monitoring/monitor.go:56-83 | start succeeds, a second start fails, stop succeeds, and a start after the stop succeeds again |
| Monitoring.PolledButNeverAlerted | backend/internal/monitoring/monitor.go:94-136 | a tick on a registered agent without thresholds records five metrics and no alert list |
| Alerts.AlertManager.constructor | backend/internal/monitoring/alert.go:20-25 | a new manager stores no alerts |
| Alerts.AlertManager.AddAlert | backend/internal/monitoring/alert.go:27-41 | stores the alert under its id, replacing any alert with that id |
| Alerts.AlertManager.ResolveAlert | backend/internal/monitoring/alert.go:43-55 | an unknown id gives "alert not found" and no change; a known alert's status becomes "resolved" and its id leaves the active set |
| Alerts.AlertManager.GetActiveAlerts | backend/internal/monitoring/alert.go:57-68 | returns every stored alert whose status is "active", each exactly once, and no other |
| Alerts.ResolvedIsNotActive | backend/internal/monitoring/alert.go:43-68 | after an alert is resolved, it is absent from the active alerts |
| Metrics.StoreAllAppends | backend/internal/monitoring/metrics.go:42-50 | storing a batch appends to each agent's series exactly that agent's metrics, in order |
| Metrics.StoreAllKeys | backend/internal/monitoring/metrics.go:42-50 | after storing, an agent has a series exactly when it had one or the batch holds one of its metrics |
| Metrics.InWindowExactly | backend/internal/monitoring/metrics.go:61-67 | a query keeps exactly the metrics whose time lies in the closed window |
| Metrics.InWindowSubsequence | backend/internal/monitoring/metrics.go:61-67 | a query keeps the series order |
| Metrics.InMemoryMetricsStorage.constructor | backend/internal/monitoring/metrics.go:36-40 | a new storage is empty |
| Metrics.InMemoryMetricsStorage.Store | backend/internal/monitoring/metrics.go:42-50 | never fails, and files each metric under its agent |
| Metrics.InMemoryMetricsStorage.Query | backend/internal/monitoring/metrics.go:52-70 | an agent without a series gives "no metrics found for agent <id>"; otherwise the window of its series |
| Metrics.MetricsService.constructor | backend/internal/monitoring/metrics.go:77-82 | the service uses the given storage |
| Metrics.MetricsService.CollectAndStore | backend/internal/monitoring/metrics.go:84-90 | a collector error is returned and nothing is stored; otherwise the batch is stored |
| Metrics.MetricsService.QueryMetrics | backend/internal/monitoring/metrics.go:92-94 | answers as the storage's query does |
| Patching.FirstWithId | backend/internal/patching/manager.go:114-120 | finds the first record with the patch id, or the end of the history |
| Patching.MarkFirstChangesOnlyFirstMatch | backend/internal/patching/manager.go:110-122 | a status update changes the status, end time and logs of the first record with the id, and no other record |
| Patching.MarkFirstHitsFreshLast | backend/internal/patching/manager.go:83-96 | when no earlier record shares the id, the update hits the record just appended |
| Patching.PatchManager.constructor | backend/internal/patching/manager.go:48-53 | a new manager has no updates and no history |
| Patching.PatchManager.CheckForUpdates | backend/internal/patching/manager.go:55-65 | returns the agent's updates, or "no updates found for agent <id>" |
| Patching.PatchManager.UpdatePatchStatus | backend/internal/patching/manager.go:110-122 | marks the first record with the patch id in the agent's history; an agent without history is untouched |
| Patching.PatchManager.ApplyUpdates | backend/internal/patching/manager.go:67-102 | an unknown agent gives "agent not found" and no change; otherwise a pending record is appended and an apply-updates job with a 30-minute timeout is enqueued; on success the patch id is returned; on failure the first record with that id is marked failed with the error text and the job queue is left unchanged |
| Patching.PatchManager.MonitorPatchJob | backend/internal/patching/manager.go:104-108 | marks the patch completed with "Updates applied successfully" |
| Patching.PatchManager.GetPatchHistory | backend/internal/patching/manager.go:124-134 | returns the agent's history, or "no patch history found for agent <id>" |
| Patching.PatchManager.SchedulePatch | backend/internal/patching/manager.go:136-151 | appends a scheduled record starting at the requested time and returns its patch id |
| Patching.SameSecondFailureMarksEarlierRecord | backend/internal/patching/manager.go:67-122 | when two patches are applied to one agent in the same second and the second fails, the earlier record is marked failed and the new one stays pending |
| UpdateRecords.Reverse | backend/internal/patching/updates.go:56-68 | reversal keeps the length |
| UpdateRecords.Take | backend/internal/patching/updates.go:58-64 | the limit caps the number of records returned |
| UpdateRecords.NewestMatchingConcat | backend/internal/patching/updates.go:56-68 | the newest-first scan over a concatenation lists the later part's matches first |
| UpdateRecords.NewestMatchingIsReversed | backend/internal/patching/updates.go:56-68 | the newest-first scan is the agent's records in reverse insertion order, exactly the records of that agent |
| UpdateRecords.UpdateRepository.constructor | backend/internal/patching/updates.go:45-49 | a new repository is empty |
| UpdateRecords.UpdateRepository.SaveUpdateRecord | backend/internal/patching/updates.go:51-54 | appends the record and never fails |
| UpdateRecords.UpdateRepository.GetUpdateRecords | backend/internal/patching/updates.go:56-68 | returns at most limit of the agent's records, newest first |
| RateLimit.RecentExactly | backend/internal/api/middleware/ratelimit.go:34-40 | the pruned visits are exactly those no older than the window, and never more than before |
| RateLimit.RateLimiter.constructor | backend/internal/api/middleware/ratelimit.go:19-25 | a new limiter holds no visits |
| RateLimit.RateLimiter.Allow | backend/internal/api/middleware/ratelimit.go:27-49 | allows exactly when fewer than limit recent visits remain; an allowed request stores the pruned visits plus now; a refused request changes nothing |
| RateLimit.RateLimiter.Handle | backend/internal/api/middleware/ratelimit.go:51-63 | a refused request aborts with 429 "Too many requests"; an allowed request passes on |
| RateLimit.NonPositiveLimitRefusesAll | backend/internal/api/middleware/ratelimit.go:42-44 | a limit of zero or less refuses every request |
| AuthMiddleware.TrimPrefixChanges | backend/internal/api/middleware/auth.go:20-24 | trimming "Bearer " changes the header exactly when the header starts with it |
| AuthMiddleware.AuthorizeCases | backend/internal/api/middleware/auth.go:12-36 | an empty header gives 401 "Authorization header is required"; a header without the bearer prefix gives 401 "Bearer token is required"; otherwise the token after the prefix is verified, giving 401 "Invalid token" or admitting with the claims' user id and roles |
| AuthMiddleware.AdmitIffVerified | backend/internal/api/middleware/auth.go:12-36 | a request is admitted exactly when it carries a bearer token that verifies, and every rejection is a 401 |
| Vault.Encrypt | backend/internal/security/vault.go:135-153 | fails on a key that is not 16, 24 or 32 bytes and on a nonce failure; otherwise the ciphertext starts with the nonce |
| Vault.Decrypt | backend/internal/security/vault.go:155-178 | fails on a bad key size; fails with "ciphertext too short" below 12 bytes; otherwise opens what follows the nonce |
| Vault.DecryptEncrypt | backend/internal/security/vault.go:135-178 | decryption under the same key recovers the plaintext |
| Vault.DecryptUnderOtherKey | backend/internal/security/vault.go:172-175 | a ciphertext that opens under one key fails authentication under a different valid key |
| Vault.ReencryptAgent | backend/internal/security/vault.go:115-129 | re-encrypting one agent's secrets keeps the names and every plaintext, and succeeds when all decrypt and all nonces are available |
| Vault.RotateOne | backend/internal/security/vault.go:117-128 | one iteration of the rotation loop: a decrypt failure stops with the wrapped error and leaves the key; otherwise the key switches, and the secret is re-encrypted to the same plaintext under the new key; no other secret changes |
| Vault.RotStepsTouchesOnlyOrder | backend/internal/security/vault.go:115-129 | rotation changes only the secrets it has visited |
| Vault.UsualRotation | backend/internal/security/vault.go:115-129 | with working keys and nonces, the first visited secret is re-encrypted and the key switches, after which the second secret fails to decrypt |
| Vault.RotStepsConcat | backend/internal/security/vault.go:115-129 | rotating along one visit order and then another is rotating along their concatenation |
| Vault.RotationOutcome | backend/internal/security/vault.go:105-133 | a vault with no secrets rotates to Ok with the old key; one with a single secret succeeds; one with two or more fails with "failed to decrypt secret during key rotation: cipher: message authentication failed" |
| Vault.RotationStrands | backend/internal/security/vault.go:115-129 | with two or more secrets, rotation fails after switching the key, and every secret but the first becomes undecryptable under the vault's key |
| Vault.SecretVault.constructor | backend/internal/security/vault.go:30-35 | a new vault is empty and holds the given key |
| Vault.SecretVault.StoreSecret | backend/internal/security/vault.go:37-52 | an encryption failure gives "failed to encrypt secret: …" and no change; otherwise the ciphertext is stored under the agent and name, creating the agent's map if needed |
| Vault.SecretVault.RetrieveSecret | backend/internal/security/vault.go:54-69 | distinguishes an unknown agent and an unknown name by their messages; otherwise decrypts the stored secret |
| Vault.SecretVault.DeleteSecret | backend/internal/security/vault.go:71-86 | the same two errors, and no change; otherwise removes exactly that name, leaving the agent's possibly empty map |
| Vault.SecretVault.ListSecrets | backend/internal/security/vault.go:88-103 | lists each of the agent's secret names exactly once, or the unknown-agent error |
| Vault.SecretVault.RotateSecret | backend/internal/security/vault.go:117-128 | one loop iteration on the vault's state, as RotateOne specifies it |
| Vault.SecretVault.RotateAgentSecrets | backend/internal/security/vault.go:116-129 | the inner loop visits each of the agent's secrets once and ends in the state of the rotation along that visit order; on success it has visited all of them |
| Vault.SecretVault.RotateEncryptionKey | backend/internal/security/vault.go:105-133 | a key-generation failure gives "failed to generate new encryption key: …" and no change; otherwise the vault ends in the state of the rotation along a duplicate-free visit order, covering every secret when it succeeds |
| Vault.SecretVault.RotateEncryptionKeyAtomically | backend/internal/security/vault.go:105-133 | the corrected rotation: all secrets are decrypted under the old key before the key switches; on success every secret has its old plaintext under the new key; on failure nothing changes; with decryptable secrets and nonces it succeeds |
| Vault.StoreThenRetrieve | backend/internal/security/vault.go:37-69 | a successful store followed by a retrieve returns the stored value |
| Vault.DeleteLastThenList | backend/internal/security/vault.go:71-103 | deleting an agent's only secret leaves it listed with no names |
| Vault.TwoSecretsRotatable | backend/internal/security/vault.go:115-129 | one agent with two secrets under the old key meets the rotation lemmas' preconditions |
| Vault.RotationStrandsASecret | backend/internal/security/vault.go:105-133 | on a vault with two secrets, RotateEncryptionKey fails and at least one secret can no longer be retrieved |
| SshKeys.KeyIdsCollideIffSameSecond | backend/internal/security/ssh.go:73 | key ids of one agent collide exactly when made in the same second |
| SshKeys.WithoutExactly | backend/internal/security/ssh.go:128-133 | removal keeps exactly the keys with a different id |
| SshKeys.WithoutKeepsOrder | backend/internal/security/ssh.go:128-133 | removal keeps the order of the remaining keys |
| SshKeys.WithoutNoMatch | backend/internal/security/ssh.go:128-133 | removing an id that no key has changes nothing |
| SshKeys.PublicKeys | backend/internal/security/ssh.go:96-99 | lists each key's public key, in order |
| SshKeys.SshKeyManager.constructor | backend/internal/security/ssh.go:35-39 | a new manager holds no keys |
| SshKeys.SshKeyManager.RotateKeys | backend/internal/security/ssh.go:64-85 | a key-generation error is returned with no change; otherwise a key with the agent-second id, both halves and a one-year expiry is appended |
| SshKeys.SshKeyManager.GetAuthorizedKeys | backend/internal/security/ssh.go:87-102 | returns the agent's public keys in order, or "no keys found for agent <id>" |
| SshKeys.SshKeyManager.AddAuthorizedKey | backend/internal/security/ssh.go:104-117 | appends a key with the agent-second id, no private key and a one-year expiry |
| SshKeys.SshKeyManager.RemoveAuthorizedKey | backend/internal/security/ssh.go:119-137 | an unknown agent gives "no keys found for agent <id>"; otherwise every key with that id is removed |
| SshKeys.SameSecondKeysRemovedTogether | backend/internal/security/ssh.go:104-137 | two keys added in one second share an id, and removing that id removes both |
| Scanner.ScanOf | backend/internal/security/scanner.go:81-99 | the fixed scan result has one critical finding and a summary consistent with its findings |
| Scanner.VulnerabilityScanner.constructor | backend/internal/security/scanner.go:67-71 | a new scanner holds no results |
| Scanner.VulnerabilityScanner.Scan | backend/internal/security/scanner.go:73-106 | an unknown agent gives "agent not found"; otherwise the scan is appended to the agent's history and returned |
| Scanner.VulnerabilityScanner.GetScanHistory | backend/internal/security/scanner.go:108-118 | returns the agent's scans, or "no scan results found for agent <id>" |
| Scanner.VulnerabilityScanner.GetComplianceReport | backend/internal/security/scanner.go:120-145 | reports 42 passed, 3 failed and 5 not applicable, with two controls, for the given standard and agent |
| Scanner.ScanTwice | backend/internal/security/scanner.go:73-118 | two scans give a history of two consistent results in scan order |
| Auth.TokenLifetimes | backend/internal/auth/auth.go:135-167 | access tokens live 15 minutes and refresh tokens 7 days; both carry the same user, email, roles, issue time and issuer |
| Auth.Tokens | backend/internal/auth/auth.go:78-88 | a token pair is issued exactly when both signings succeed, and an access-signing error comes first |
| Auth.AuthService.constructor | backend/internal/auth/auth.go:39-45 | a new service holds the two keys and no users |
| Auth.AuthService.Register | backend/internal/auth/auth.go:47-66 | an existing email gives "user already exists"; a hashing error is returned; otherwise a user with role "user" is stored and its id returned |
| Auth.AuthService.Login | backend/internal/auth/auth.go:68-89 | an unknown email and a wrong password both give "invalid credentials"; otherwise the user's token pair |
| Auth.AuthService.RefreshToken | backend/internal/auth/auth.go:107-133 | a token that does not parse under the refresh key gives "invalid refresh token"; an unknown email gives "user not found"; otherwise a fresh pair for the user |
| Auth.RegisterThenLogin | backend/internal/auth/auth.go:47-89 | registration succeeds once, a second registration is refused, and login then issues the new user's tokens |
| SubscriptionStore.InMemorySubscriptionRepository.constructor | backend/internal/subscriptions/repository.go:22-26 | a new repository is empty |
| SubscriptionStore.InMemorySubscriptionRepository.Save | backend/internal/subscriptions/repository.go:28-34 | upserts by id and never fails |
| SubscriptionStore.InMemorySubscriptionRepository.Get | backend/internal/subscriptions/repository.go:36-46 | returns the subscription exactly when the id is stored, else "subscription not found" |
| SubscriptionStore.InMemorySubscriptionRepository.ListByUser | backend/internal/subscriptions/repository.go:48-60 | returns each of the user's subscriptions exactly once |
| SubscriptionStore.SaveThenGet | backend/internal/subscriptions/repository.go:28-46 | a saved subscription is read back unchanged |
| Subscriptions.SubscriptionService.constructor | backend/internal/subscriptions/service.go:33-37 | the service uses the given repository |
| Subscriptions.SubscriptionService.Create | backend/internal/subscriptions/service.go:39-54 | a missing user id or plan id gives its error and no change; otherwise the subscription is stored as active with start now, end and renewal a year later |
| Subscriptions.SubscriptionService.Get | backend/internal/subscriptions/service.go:56-58 | returns the stored subscription, or "subscription not found" |
| Subscriptions.SubscriptionService.Cancel | backend/internal/subscriptions/service.go:60-68 | an unknown id gives "subscription not found"; otherwise only the status becomes "canceled" |
| Subscriptions.SubscriptionService.ListByUser | backend/internal/subscriptions/service.go:70-72 | returns each of the user's subscriptions exactly once |
| Subscriptions.SubscriptionService.UpdatePlan | backend/internal/subscriptions/service.go:74-86 | an unknown id gives "subscription not found"; otherwise only the plan changes, and the updated subscription is returned |
| Subscriptions.SecondCreateReplacesFirst | backend/internal/subscriptions/service.go:47-53 | because every id is the same constant, a second creation replaces the first |
| UsageStore.SelectedExactly | backend/internal/usage/repository.go:39-46 | the selection holds exactly the subscription's records within the closed window |
| UsageStore.SelectedInOrder | backend/internal/usage/repository.go:39-46 | the selection keeps insertion order |
| UsageStore.InMemoryUsageRepository.constructor | backend/internal/usage/repository.go:21-25 | a new repository is empty |
| UsageStore.InMemoryUsageRepository.Save | backend/internal/usage/repository.go:27-33 | appends the record and never fails |
| UsageStore.InMemoryUsageRepository.GetForSubscription | backend/internal/usage/repository.go:35-53 | an empty selection gives "no usage records found"; otherwise the selection |
| UsageTracker.MaxServers | backend/internal/usage/tracker.go:69-76 | the largest server count among the records, or 0 |
| UsageTracker.TotalAppend | backend/internal/usage/tracker.go:61-67 | the per-resource totals add up over concatenation |
| UsageTracker.PeriodWindow | backend/internal/usage/tracker.go:85-97 | "day", "week" and "month" end now and start at `now` shifted back one calendar day, seven calendar days or one calendar month; any other period gives "invalid period" |
| UsageTracker.UsageTracker.constructor | backend/internal/usage/tracker.go:32-36 | the tracker uses the given repository |
| UsageTracker.UsageTracker.RecordUsage | backend/internal/usage/tracker.go:38-42 | stamps the record with the generated id and the current time, and appends it |
| UsageTracker.UsageTracker.GetUsage | backend/internal/usage/tracker.go:44-79 | no records in the window gives "no usage records found"; otherwise their summary |
| UsageTracker.UsageTracker.AggregateUsage | backend/internal/usage/tracker.go:81-100 | an unknown period gives "invalid period"; otherwise the repository's selection for that period's window |
| UsageTracker.Summarize | backend/internal/usage/tracker.go:57-77 | the loop sums cpu, memory, network and storage and takes the maximum server count |
| BillingUsage.SelectedExactly | backend/internal/billing/usage.go:43-53 | the selection holds exactly the subscription's records within the closed window |
| BillingUsage.SelectedInOrder | backend/internal/billing/usage.go:43-53 | the selection keeps insertion order |
| BillingUsage.MaxServers | backend/internal/billing/usage.go:89-95 | the largest server count among the records, or 0 |
| BillingUsage.Summary | backend/internal/billing/usage.go:55-104 | the summary names the subscription and window, takes the last record's plan, and has the maximum server count, or is empty for no records |
| BillingUsage.SaveThenSummary | backend/internal/billing/usage.go:38-104 | saving a record inside the window adds its amounts to the totals, raises the server maximum to at least its count and makes its plan current |
| BillingUsage.SaveElsewhereKeepsSummary | backend/internal/billing/usage.go:38-104 | saving a record of another subscription or outside the window leaves the summary unchanged |
| BillingUsage.Summarize | backend/internal/billing/usage.go:69-103 | the loop over non-empty records computes the summary |
| BillingUsage.BillingUsageRepository.constructor | backend/internal/billing/usage.go:32-36 | a new repository is empty |
| BillingUsage.BillingUsageRepository.Save | backend/internal/billing/usage.go:38-41 | appends the record and never fails |
| BillingUsage.BillingUsageRepository.GetForSubscription | backend/internal/billing/usage.go:43-53 | returns the selection, possibly empty |
| BillingUsage.BillingUsageRepository.Aggregate | backend/internal/billing/usage.go:55-104 | returns the summary of the selection |
| Pricing.CalculateCost | backend/internal/billing/pricing.go:46-64 | an unknown plan costs 0, free costs 0, enterprise costs 299, and no cost is negative |
| Pricing.EstimateCost | backend/internal/billing/pricing.go:66-88 | unknown and free plans estimate to 0 and enterprise to 299 |
| Pricing.ProPrice | backend/internal/billing/pricing.go:23-64 | pro costs 49 up to 10 servers and 0.5 more per extra server |
| Pricing.MonthlyCostMonotone | backend/internal/billing/pricing.go:56-63 | a plan's monthly cost never falls as servers are added |
| Pricing.CalculateCostMonotone | backend/internal/billing/pricing.go:46-64 | for one plan, more servers never cost less |
| Pricing.EstimateIsProRatedCost | backend/internal/billing/pricing.go:46-88 | except for enterprise, the estimate is the monthly cost pro-rated over 720 hours, and equals it for 720 hours |
| Billing.CatalogueMatchesPricing | backend/internal/billing/service.go:67-111 | the catalogue lists free, pro and enterprise in USD at the base prices the pricing table uses |
| Billing.FindPlan | backend/internal/billing/service.go:122-128 | finds the first plan with the id exactly when one exists |
| Billing.BillingService.constructor | backend/internal/billing/service.go:65-118 | the service holds the two collaborators and the catalogue |
| Billing.BillingService.CreateSubscription | backend/internal/billing/service.go:120-148 | an unknown plan gives "invalid plan ID"; an empty user gives "user ID is required"; otherwise an active one-year subscription is stored and returned |
| Billing.BillingService.CancelSubscription | backend/internal/billing/service.go:150-152 | cancels as the subscription service does |
| Billing.BillingService.GetSubscription | backend/internal/billing/service.go:154-156 | returns the stored subscription's fields, or "subscription not found" |
| Billing.BillingService.ListPlans | backend/internal/billing/service.go:158-160 | returns the catalogue |
| Billing.BillingService.GetUsage | backend/internal/billing/service.go:162-182 | passes on the tracker's error, or converts its summary to a billing summary over the window |
| Billing.BillingService.ProcessPayment | backend/internal/billing/service.go:184-196 | always answers a completed USD payment of the amount, with the constant id and the current time, storing nothing |
| Common.MaxOrZero | backend/internal/billing/usage.go:90-95 | the maximum of the counts, or 0 when none is positive |
| Common.NatToStringInjective | backend/internal/agent/agent.go:34 | distinct seconds render to distinct decimal strings |
| Common.IntToStringInjective | backend/internal/agent/agent.go:34 | distinct integers, negative ones included, render to distinct strings |
| Common.StampedIdSameOwner | backend/internal/security/ssh.go:73 | "<prefix><owner>-<second>" ids of one owner collide exactly in the same second |
| Common.StampedIdSameSecond | backend/internal/patching/manager.go:75 | such ids made in one second collide exactly for the same owner |

## Left out

- Concurrency is left out: goroutines, mutexes, the wait group in
  `RunCommandOnAll`, the monitor's ticker and cancel functions, and the
  five-second sleep before `monitorPatchJob`.
  - Each operation is one atomic step.
  - `AgentManager.Manager.RunCommandOnAll` submits sequentially in the
    snapshot's order.
  - The polling goroutine is reduced to the set of polled agents plus an
    explicit `Tick`.
- The alert notifiers (email, Slack, webhook) and their asynchronous dispatch
  are left out; `AddAlert` only stores the alert.
- The Redis protocol, JSON encoding, HTTP handlers, routes, the server and
  `main.go` are left out.
  - Store and codec failures are a `faults` set naming the steps that fail on that call.
  - `Dequeue` does not model the popped id having no record (a store failure).
- Cryptography is replaced by parameters or stand-ins:
  - AES-GCM is replaced by a keyed stand-in. It keeps the key-size check, the
    12-byte nonce prefix, the "ciphertext too short" check, and the two laws
    the vault relies on: decryption recovers the plaintext, and a different key
    fails authentication.
  - RSA key generation, bcrypt, and JWT signing and parsing (including
    `VerifyToken` and `auth/jwt.go`) are parameters.
- Clocks, randomness and calendars are parameters:
  - random nonces and the new vault key;
  - `time.Now()` as an integer second;
  - the calendar shifts in local time: a day, a week and a month back
    (`UsageTracker.Shifts`) and a year ahead (`yearLater`). A calendar day is
    not always 86400 seconds, so these are given rather than computed.
- Floating point is modelled as `real`, without rounding.
- `Monitoring.Monitor.Tick` takes the agent registry and the collected stats as
  parameters. The Go monitor's `agentManager` field is never set, so the code
  as written would dereference nil on the first tick.
- Patching.PatchManager.constructor: takes the agent registry and the job
  queue as arguments. Go's `NewPatchManager` (patching/manager.go:48-53) sets
  neither field and no other code sets them.
- Patching.PatchManager.ApplyUpdates: as written, the Go method calls
  `GetAgent` on a nil `*agent.Manager` and panics on every call. The model
  uses the registry and queue given to the constructor, and its contract
  describes the evidently intended behaviour, not the panic.
- Patching.PatchManager.GetPatchHistory: returns the history as a value. In Go
  the returned slice can share its backing array with the stored history, so a
  later `updatePatchStatus` (marking a patch "failed" or "completed") is also
  visible in a copy the caller already holds. The model does not capture this
  aliasing.
- Scanner.VulnerabilityScanner.constructor: takes the agent registry as an
  argument. Go's `NewVulnerabilityScanner` (security/scanner.go:67-71) never
  sets `agentManager`.
- Scanner.VulnerabilityScanner.Scan: as written, the Go method calls
  `GetAgent` on a nil `*agent.Manager` and panics on every call. The model
  looks the agent up in the registry given to the constructor, and its
  contract describes the evidently intended behaviour, not the panic.
- The alert's formatted `Message` (a `%.2f` rendering) is not part of the model.
- Two fields are added where the code uses them, though the shown types lack them:
  - metrics carry an `agentId` field, because `Store` files them by `metric.AgentID`;
  - billing usage records and summaries carry `planId`, because `Aggregate` reads and writes it.
- The billing service and the subscription service use two different
  `Subscription` types, and the Go code mixes them in both directions. The
  model converts explicitly each way:
  - `CreateSubscription` passes a billing subscription to `Create`, which
    expects the other type; the model converts it with `Billing.Stored`;
  - `GetSubscription` returns the subscription service's value where the
    billing type is declared (billing/service.go:154-156); the model converts
    it field by field in `Billing.BillingService.GetSubscription`.
- `UsageTracker.UsageTracker.GetUsage` has no branch for an empty selection
  returning an empty record, because the repository already reports "no usage
  records found" in that case, so that branch of the Go code is unreachable.
- The constructors and `Close` of the queue are not modelled beyond an empty
  initial state. The Prometheus collector, `agent/stats.go`, the update checker
  and `GenerateKeyPair` are external and appear only as parameters.

## Findings

| source | as written | input that shows it | evidently intended | confidence | as-written member | corrected member |
|---|---|---|---|---|---|---|
| backend/internal/security/vault.go:115-129 | the rotation loop switches `v.encryptionKey` to the new key inside the loop, before the next secret is decrypted with it | one agent holding two secrets encrypted under the current key, and a successful key generation | decrypt every secret under the old key, re-encrypt all under the new key, then switch the key, failing without change | not executed | Vault.RotationStrands, Vault.SecretVault.RotateEncryptionKey, Vault.RotationStrandsASecret | Vault.SecretVault.RotateEncryptionKeyAtomically |

With the code as written:

- the second secret fails to decrypt;
- the call returns "failed to decrypt secret during key rotation: cipher: message authentication failed";
- the vault keeps the new key, so every secret except the first can no longer be retrieved.
