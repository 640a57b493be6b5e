# NetApp ONTAP Cloud cookbook: a Dafny model of its resources

This project models the Chef cookbook that drives OnCommand Cloud Manager (OCCM),
NetApp's REST service for deploying ONTAP Cloud storage systems on AWS. The model
covers the shared helper library and four resources:

- the OCCM setup resource, which runs the server's first-run setup;
- the standalone ONTAP Cloud resource, which creates a working environment,
  changes its write speed and deletes it;
- the aggregate resource, which creates an aggregate, adds disks to it and
  deletes it;
- the docker volume plugin resource, whose config action reads a system's cluster
  detail and picks the interfaces and the aggregate for the plugin.

The OCCM server is a value, `Api.Server`. Its answers are fixed per endpoint. The
liveness probe and each audit log are indexed by attempt number, so a poll sees a
different body on each GET. Each action is a function from the server and the
resource's properties to a `Trace`. A trace holds the action's outcome and the
ordered requests and pauses the action issues. The outcome is either "updated"
(`Ok(true)`), "up to date" (`Ok(false)`) or the exception raised (`Err`).

The loops are methods proved equal to those functions:

- the probe that retries an unreachable server;
- the audit poll keyed on a request id;
- the audit poll keyed on an action name, which scans each body entry by entry.
  Its method, `Ndvp.WaitOntap`, implements the corrected poll, in which every GET
  spends an attempt. The poll as written, whose counter moves only on pending
  entries, is `Ndvp.AsWrittenWait` (see Findings).

The session cookie that the Ruby code keeps in `@auth_cookie` is the one field of
the class `OccmHelper.Provider`. Each action method updates it.

Modules follow the source files:

- `Api`: the entities, the request events and the trace measures;
- `OccmHelper`: the shared helpers;
- `OccmSetup`: the setup resource;
- `OntapAws`: the standalone system resource;
- `Aggregate`: the aggregate resource;
- `Ndvp`: the docker plugin resource.

The docker plugin resource carries private copies of the probe, login, lookup and
status-check helpers. Those copies behave like the shared ones (they differ only
in a Referrer header and in where the cookie comes from), so its model reuses
`OccmHelper`.

Where the cookbook's documented behaviour and its code differ, the model follows
the code:

- Every action probes the server before it checks ontap_name, so an unreachable
  server is reported even for an invalid name.
- The ontap_name check is the line-anchored pattern the code runs: a name passes
  when one of its lines is a valid name (`OccmHelper.NameAcceptedAsWritten`), so a
  multi-line name can reach the login (see Findings).
- The probe retries only unreachable-host, timed-out and network-unreachable
  errors. A refused connection is raised at once.
- A 400 answer to setup is raised by the shared status check, with its message.
  The setup action's own 400 branch cannot be reached.
- A 202 or 204 answer to setup without the "already performed" message is raised
  as an unexpected response.

## Model

| member | source | states |
|---|---|---|
| OccmHelper.Check | libraries/occm_helper.rb:205-220 | A response passes exactly on 200, 202 or 204, and then comes back unchanged. 401 is an authentication ArgumentError. 400 is an ArgumentError carrying the server's message and violations. Any other 4xx, or 500, is an unknown server error. Anything else is raised as is. Exactly 400 and 401 give ArgumentErrors. |
| OccmHelper.CheckIdempotent | libraries/occm_helper.rb:205-220 | Checking a response that already passed gives the same result again (the create path checks the POST answer twice). |
| OccmHelper.ServerResponding | libraries/occm_helper.rb:14-40 | The probe loop returns exactly the trace of the recursive liveness definition. |
| OccmHelper.RespondingAtOnce | libraries/occm_helper.rb:20-22 | An about GET that passes on the first try gives true after one request and no pause. |
| OccmHelper.UnreachableWithoutWait | libraries/occm_helper.rb:23-25 | An unreachable server with no wait given gives false after one probe. |
| OccmHelper.FalseOnlyWithoutWait | libraries/occm_helper.rb:25-33 | With a wait given, the probe never returns false: it returns true or raises. |
| OccmHelper.PausesBounded | libraries/occm_helper.rb:26-29 | With a wait of n the probe pauses at most n times, each pause lasting the 5-second interval, and issues exactly one more GET than it pauses. |
| OccmHelper.NeverReturnedIff | libraries/occm_helper.rb:30-33 | The "never returned" error is raised exactly when all n+1 probes find the server unreachable. |
| OccmHelper.RespondingIff | libraries/occm_helper.rb:17-33 | With a wait of n, the probe returns true exactly when some probe within the budget passes the status check and every earlier probe found the server unreachable. |
| OccmHelper.FirstSegmentOf | libraries/occm_helper.rb:64 | Splitting `c + "; " + attributes` on "; " gives back `c` as the first part when `c` has no separator. |
| OccmHelper.CookieRoundTrip | libraries/occm_helper.rb:56-65 | The login keeps, as the cookie, the set-cookie value before its first "; ". |
| OccmHelper.GetOntapEnv | libraries/occm_helper.rb:70-81 | The first working environment with that name. None exactly when no environment has it. |
| OccmHelper.GetTenantId | libraries/occm_helper.rb:104-113 | The public id of the first tenant with that name. The not-found ArgumentError exactly when there is none. |
| OccmHelper.ValidateVpc | libraries/occm_helper.rb:118-127 | The first VPC with that id. The not-found ArgumentError exactly when there is none. |
| OccmHelper.ValidateSubnet | libraries/occm_helper.rb:129-135 | A missing VPC gives the VPC error. Otherwise the subnet id comes back exactly when that first VPC lists it, and the subnet error comes back otherwise. |
| OccmHelper.SubnetSearchStaysInVpc | libraries/occm_helper.rb:129-135 | The subnet is looked for only in the first VPC with the id. A later VPC with the same id that has the subnet does not help. |
| OccmHelper.MultiLineNameAccepted | resources/ontap_aws.rb:92 | The line-anchored name check accepts "1cot\nabc", which is not a valid name (see Findings). |
| OccmHelper.ValidNameAcceptedAsWritten | resources/ontap_aws.rb:92 | Every valid name (a letter, then 2 to 39 letters, digits or underscores) has no newline and passes the check as written. |
| OccmHelper.NameCheckPassed | resources/ontap_aws.rb:88-96 | A name that passes the check as written is treated exactly as by an action without the check, and on a live server reaches the login. |
| OccmHelper.MultiLineNameReachesLogin | resources/ontap_aws.rb:92-96 | On a live server, the name "1cot\nabc" is not refused and reaches the login (see Findings). |
| OccmHelper.SplitSizeRoundTrip | resources/ontap_aws.rb:116-117 | A size written as digits followed by letters splits into exactly those digits and those letters. |
| OccmHelper.Upcase | resources/ontap_aws.rb:132 | The same length, with ASCII lower-case letters raised and every other character kept; the write speed it is applied to is limited to "normal" or "high" (line 76). |
| OccmHelper.WaitRequest | resources/ontap_aws.rb:242-264 | The request-id poll loop returns exactly the trace of the recursive poll definition. |
| OccmHelper.AwaitRequestBounded | resources/aggregate.rb:170-192 | The poll pauses at most `budget` times, always for the interval, and issues at most one GET more than it pauses. |
| OccmHelper.AwaitRequestTimeoutIff | resources/ontap_aws.rb:248-263 | The poll times out exactly when every attempt within the budget sees a pending entry. |
| OccmHelper.AwaitRequestSuccessIff | resources/ontap_aws.rb:251-254 | The poll returns true exactly when some attempt sees "Success" and every earlier attempt saw a pending entry. |
| OccmHelper.PendingPendingSuccess | resources/ontap_aws.rb:248-261 | Two pending bodies and then a success give true after three GETs and two pauses. |
| OccmHelper.PendingFailed | resources/ontap_aws.rb:255-256 | A pending body and then a failed one raise the entry's error message after two GETs and one pause. |
| OccmHelper.AwaitRequestNeverFalse | resources/ontap_aws.rb:248-263 | The poll never reports "no change". |
| OccmHelper.SettleOutcome | resources/ontap_aws.rb:134-141 | The step after a mutating request: a failed status check raises, no wait reports a change at once, and a wait reports a change exactly when the poll succeeds. It never reports "no change" and never mutates. |
| OccmHelper.SettleMutation | resources/ontap_aws.rb:134-141 | The method returns exactly that step's trace. |
| OccmHelper.InvalidNameBeforeLogin | resources/ontap_aws.rb:88-96 | After the probe, a name none of whose lines is a valid name raises an ArgumentError before any login. |
| OccmHelper.LoginRejectedStops | resources/ontap_aws.rb:88-99 | After the probe and a passing name, a 401 login raises the authentication ArgumentError right after the login POST: no lookup, no mutation, and the cookie is kept. |
| OccmHelper.NoLoginInLiveness | libraries/occm_helper.rb:14-40 | The probe sends no login and no mutation. |
| OccmHelper.NoMutationInPoll | resources/ontap_aws.rb:242-264 | The poll only reads. |
| OccmHelper.OpenNoMutation | resources/ontap_aws.rb:88-99 | The opening of every action (probe, name check, login, lookup) sends no mutation. |
| OccmHelper.Provider.constructor | resources/ontap_aws.rb:96 | A provider starts with no cookie. |
| OccmHelper.Provider.OpenSession | resources/ontap_aws.rb:88-99 | Opening returns exactly the opening's trace, with the name checked as written. The cookie becomes the login's cookie once a login succeeds, and is kept otherwise. |
| OccmSetup.KeyPairing | resources/occm.rb:58-59 | A secret without a usable key, or a key without a usable secret, is an ArgumentError; the secret is checked first. Keys pass exactly when both are absent or both are usable. |
| OccmSetup.Initialize | resources/occm.rb:83-104 | The method returns exactly the trace of the setup POST and the restart wait. |
| OccmSetup.Setup | resources/occm.rb:53-105 | The method returns exactly the trace of the setup action. |
| OccmSetup.ConfiguredServerSkipped | resources/occm.rb:56-57 | A configured server gives "no change" and no mutation, whatever the keys are. |
| OccmSetup.SetupPostsOnlyWhenUnconfigured | resources/occm.rb:56-83 | The setup POST is sent only when the config query answered with the "must be setup" sentinel message and the keys pair; on a live server those two always lead to it. An authentication error, an empty body or any other message counts as configured. |
| OccmSetup.KeyPairingRefuses | resources/occm.rb:57-83 | On an unconfigured server, keys that do not pair raise before anything is posted. Keys that pair lead to the setup POST. |
| OccmSetup.PayloadDefaults | resources/occm.rb:61-81 | The setup body names role "Role-1" and an empty proxy, passes the keys through, and defaults description and cost center to "". |
| OccmSetup.AlreadyPerformedIsNoChange | resources/occm.rb:85-86 | A setup answer saying the setup was already performed gives "no change". |
| OccmSetup.BadRequestFromSharedCheck | resources/occm.rb:83-91 | A 400 from setup is raised by the shared status check, as an ArgumentError with the server's message. |
| OccmSetup.SuccessWaitsForRestart | resources/occm.rb:87-104 | After a 200, setup pauses 5 seconds and then probes with up to 5 pauses. It reports a change exactly when the service answers, and raises exactly when every probe fails. |
| OccmSetup.OtherSuccessStatusRaises | resources/occm.rb:87-97 | A 202 or 204 answer to setup raises the response. |
| OntapAws.WritingSpeedState | resources/ontap_aws.rb:132 | The write speed is sent only when set, as its upcased value, with the same length and no lower-case letter. |
| OntapAws.DefaultSizeSplit | resources/ontap_aws.rb:116-117 | The default size "1TB" is sent as size "1", unit "TB". |
| OntapAws.Provision | resources/ontap_aws.rb:106-141 | The method returns exactly the trace of the create action after the lookup. |
| OntapAws.Create | resources/ontap_aws.rb:85-142 | The method returns exactly the create action's trace and leaves the cookie the opening leaves. |
| OntapAws.SetWriteSpeed | resources/ontap_aws.rb:144-173 | The method returns exactly the write-speed action's trace and leaves the cookie the opening leaves. |
| OntapAws.Delete | resources/ontap_aws.rb:175-202 | The method returns exactly the delete action's trace and leaves the cookie the opening leaves. |
| OntapAws.InvalidNameRejected | resources/ontap_aws.rb:92 | All three actions raise an ArgumentError, before login, on a name none of whose lines is a valid name. |
| OntapAws.LoginRejectedStops | resources/ontap_aws.rb:88-96 | With a passing name, a 401 login ends create, write speed and delete with the authentication ArgumentError right after the login POST, with no mutation and the cookie kept. |
| OntapAws.CreateSkipsExisting | resources/ontap_aws.rb:99-103 | An existing system of that name gives "no change" and no mutation. |
| OntapAws.CreateResolutionOrder | resources/ontap_aws.rb:106-111 | Create resolves the tenant, then the VPC, then the subnet. The first failing lookup is the error, and nothing is created. |
| OntapAws.CreateSendsPayload | resources/ontap_aws.rb:106-134 | With every lookup resolved, the three lookups are followed by one POST. Its body carries the tenant's public id, the VPC id and the subnet id. |
| OntapAws.CreateWithoutWait | resources/ontap_aws.rb:138 | Without wait_execution, an accepted create reports a change and never pauses after the lookup. |
| OntapAws.CreateWaitsForRequest | resources/ontap_aws.rb:139-141 | With wait_execution, create reports a change exactly when the poll of its request id succeeds. |
| OntapAws.AbsentSystemUntouched | resources/ontap_aws.rb:159-162 | Write speed and delete on an absent system give "no change" and no mutation. |
| OntapAws.SetWriteSpeedSends | resources/ontap_aws.rb:163-171 | On an existing system, the upcased speed goes to that system's public id. A missing speed fails before anything is sent. |
| OntapAws.DeleteSends | resources/ontap_aws.rb:189-201 | On an existing system, one DELETE goes to its public id, and the result is never "no change". |
| OntapAws.WaitOntapBudget | resources/ontap_aws.rb:242-264 | The poll pauses at most 90 times for 30 seconds, at most 45 minutes in all. It times out exactly when all 90 attempts see a pending entry. |
| OntapAws.CreateIdempotent | resources/ontap_aws.rb:99-103 | Once the created system is listed, a second create gives "no change" and no mutation. |
| OntapAws.DeleteIdempotent | resources/ontap_aws.rb:189-193 | Once the system is gone, a second delete gives "no change" and no mutation. |
| Aggregate.Build | resources/aggregate.rb:44-71 | The method returns exactly the create action's trace once the system is found. |
| Aggregate.Create | resources/aggregate.rb:31-72 | The method returns exactly the create action's trace and leaves the cookie the opening leaves. |
| Aggregate.Add | resources/aggregate.rb:74-99 | The method returns exactly the add action's trace and leaves the cookie the opening leaves. |
| Aggregate.Delete | resources/aggregate.rb:101-128 | The method returns exactly the delete action's trace and leaves the cookie the opening leaves. |
| Aggregate.MissingSystemRaises | resources/aggregate.rb:42 | A system that is not listed raises a RuntimeError, not an ArgumentError, in every action, with no mutation. |
| Aggregate.OnlyAddAndDeleteCheckName | resources/aggregate.rb:81 | Create never checks ontap_name. Add and delete reject, before login, a name none of whose lines is a valid name. |
| Aggregate.LoginRejectedStops | resources/aggregate.rb:34-38 | A 401 login ends create, and add and delete once the name passes, with the authentication ArgumentError right after the login POST, with no mutation and the cookie kept. |
| Aggregate.CreateSkipsExisting | resources/aggregate.rb:44-45 | A listed aggregate gives "no change" and no mutation. |
| Aggregate.CreateSendsPayload | resources/aggregate.rb:47-65 | The POST carries the disk count, the split size, the volume type, the system's id and the first cluster node as home node. |
| Aggregate.CreateNeedsClusterNode | resources/aggregate.rb:47-48 | A detail body for another system, or one without nodes, fails before anything is posted. |
| Aggregate.AddRequiresAggregate | resources/aggregate.rb:91-97 | An unlisted aggregate raises with no mutation. A listed one gets exactly one disk POST with the disk count. |
| Aggregate.DeleteSkipsAbsent | resources/aggregate.rb:118-126 | An unlisted aggregate gives "no change" and no mutation. A listed one gets exactly one DELETE. |
| Aggregate.WaitAggregateBudget | resources/aggregate.rb:170-192 | The poll pauses at most 60 times for 10 seconds, at most 10 minutes in all. It times out exactly when all 60 attempts see a pending entry. |
| Aggregate.CreateIdempotent | resources/aggregate.rb:44-45 | Once the aggregate is listed, a second create gives "no change" and no mutation. |
| Aggregate.DeleteIdempotent | resources/aggregate.rb:118-119 | Once the aggregate is removed, a second delete gives "no change" and no mutation. |
| Ndvp.ManagementIp | resources/ndvp.rb:118-119 | The address of the first interface of type "SVM Management". None exactly when there is none. |
| Ndvp.DataIp | resources/ndvp.rb:120 | The address of the first "Data" interface serving NFS. None exactly when there is none. |
| Ndvp.SvmAggregate | resources/ndvp.rb:121 | The first allowed aggregate of the first SVM named "svm_" + name, or none when it allows none. An error exactly when no SVM has that name. |
| Ndvp.Config | resources/ndvp.rb:94-139 | The method returns exactly the config action's trace and leaves the cookie the opening leaves. |
| Ndvp.ConfigChecksName | resources/ndvp.rb:101 | A name none of whose lines is a valid name raises an ArgumentError before login. |
| Ndvp.ConfigLoginRejected | resources/ndvp.rb:97-105 | With a passing name, a 401 login raises the authentication ArgumentError right after the login POST, before the detail is read, and the cookie is kept. |
| Ndvp.ConfigNeedsSystem | resources/ndvp.rb:108-109 | A system that is not listed raises an ArgumentError, and its detail is never read. |
| Ndvp.ConfigReadsOnly | resources/ndvp.rb:94-139 | The config action sends no request that changes the server. |
| Ndvp.ConfigSelects | resources/ndvp.rb:111-136 | The configuration names the first node's management and data addresses, the SVM's aggregate, the body's SVM name, user "vsadmin", size "20GB" and the policy "export-svm_" + name. |
| Ndvp.ScanAudit | resources/ndvp.rb:251-263 | Scanning one body pauses once per pending entry for the action, and the attempt counter grows by exactly the number of pauses. |
| Ndvp.ScanEntries | resources/ndvp.rb:251-263 | The entry loop returns exactly the scan of the body. |
| Ndvp.ScanWithoutMatch | resources/ndvp.rb:251-252 | A body without an entry for the action gives no verdict and spends no attempt. |
| Ndvp.ScanWithMatch | resources/ndvp.rb:251-263 | A body with an entry for the action either settles or spends at least one attempt. |
| Ndvp.Matching | resources/ndvp.rb:252 | The entries of a body that belong to the action: exactly those, and only those. |
| Ndvp.ScanIgnoresOtherActions | resources/ndvp.rb:252 | Scanning a body gives the same verdict, counter and pauses as scanning only its entries for the action. |
| Ndvp.ScanSettlesAtFirst | resources/ndvp.rb:253-262 | On the entries for the action, the scan pauses once per pending entry before the first "Success" or "Failed" one, which gives the verdict; with none, there is no verdict. |
| Ndvp.NoMatchingEntryNeverExits | resources/ndvp.rb:248-265 | As written, a log that never mentions the action keeps the loop polling for any number of GETs (see Findings). |
| Ndvp.AwaitActionAgrees | resources/ndvp.rb:244-267 | When every body mentions the action, the corrected poll and the poll as written give the same trace, and the loop as written ends. |
| Ndvp.AwaitActionBounded | resources/ndvp.rb:248-266 | The corrected poll issues at most 90 GETs. |
| Ndvp.SuccessAmongOtherActions | resources/ndvp.rb:251-255 | A success for this action in the first body, whatever entries of other actions stand before it, ends the poll after one GET. |
| Ndvp.WaitOntap | resources/ndvp.rb:244-267 | The nested loops return exactly the trace of the corrected poll. |

## Left out

- Transport: TLS, connection set-up, read timeouts and `Timeout::Error` are not modelled. An unreachable server is a probe result. The other transport errors that the probe does not rescue are one `TransportFailure` result.
- JSON parsing of bodies is not modelled; bodies are already-typed values. A malformed body has no counterpart.
- The status of the list GETs and the audit GETs (environments, tenants, VPCs, aggregates, details, audit logs) is not modelled: each is assumed to answer 200. Only the probe, the login, the config read and the mutating requests carry a status.
- The session cookie is held by `OccmHelper.Provider`, but the events do not record which cookie each request carries.
- Log lines, including the dump of the first audit record in the docker plugin's poll, are left out.
- OccmHelper.AwaitRequest: the log line of each poll reads the action name of the entry's first record (resources/ontap_aws.rb:253,258 and resources/aggregate.rb:181,186), which raises a NoMethodError when the entry has no records or an empty list of them; the model takes every entry to carry records, so this error path is not modelled.
- Ndvp.ScanAudit: the dump of a pending entry's first record (resources/ndvp.rb:260) raises a NoMethodError when the entry has no records; the model takes every entry to carry them.
- Every request goes to one server. The aggregate resource reads its lists from `node['occm']['server']`, a node attribute that the model takes to be the same server.
- Exception messages are reduced to an error kind and its fields. The "does not exist" message of aggregate add and delete, which names a node attribute rather than the resource's property, is not modelled.
- Chef's property validation (`equal_to`, the `regex` on the aggregate name, `required`, defaults) is not modelled; properties are taken as given.
- The docker plugin's install action (packages, services, docker commands, unit files) and the directory and template writes of its config action are left out as operating-system side effects. The config action's result is the value it would write.
- The docker plugin's delete action is a placeholder that reports a change and does nothing; it is not modelled.
- The docker plugin's action-name poll is called by no action; it is modelled on its own.
- Ndvp.NoMatchingEntryNeverExits: the loop as written is only run for a given number of GETs (a fuel bound), so the lemma shows that no number of GETs ends it, not divergence itself.
- Ruby exceptions raised by calling a method on nil or false (an empty node list, a missing interface) are one `NilValue` error naming what was missing.
- OccmHelper.ServerResponding: the connection-refused error is treated like every other untolerated transport error, as the source does; only unreachable, timed-out and network-unreachable errors are retried.
- OccmHelper.SplitSizeRoundTrip: the split is proved for sizes written as digits then letters. The source also accepts space-separated parts, which the model splits on whitespace without a general lemma.
- OntapAws.DefaultSizeSplit: only the default size "1TB" is proved. The other allowed sizes follow from OccmHelper.SplitSizeRoundTrip.

## Findings

| source | as written | input that shows it | evidently intended | confidence | as-written member | corrected member |
|---|---|---|---|---|---|---|
| resources/ontap_aws.rb:92 | The name check uses `^` and `$`, which in Ruby anchor at line breaks, so one valid line anywhere in the name lets the whole name through (also resources/aggregate.rb:81 and resources/ndvp.rb:101). The actions run this check as written (`OccmHelper.NameAcceptedAsWritten`). | ontap_name "1cot\nabc" | The whole name must be a letter followed by 2 to 39 letters, digits or underscores (`\A…\z`), which is `OccmHelper.ValidName`; every such name also passes the check as written. | not executed | OccmHelper.MultiLineNameReachesLogin | OccmHelper.ValidNameAcceptedAsWritten |
| resources/ndvp.rb:248-265 | The attempt counter only advances on a pending entry for the action, so a log with no entry for the action makes the loop poll for ever, with no pause between GETs. | every audit body empty, or naming only other actions | Every GET spends an attempt, so the budget of 90 bounds the wait. | not executed | Ndvp.NoMatchingEntryNeverExits | Ndvp.AwaitActionBounded |
