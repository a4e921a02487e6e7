# Synology proxy operator: a verified model

The operator keeps two stores in agreement: the status of `SynologyProxyRule`
objects in Kubernetes, and the reverse proxy records of a Synology DSM. Records are
found by their description, requests may be lost or answered with error pages, a pass
may stop midway and the operator may be restarted anywhere. This project models that
engine, the DSM it talks to and the watchers that create rules, and proves what whole
runs of it keep.

`dafny verify dfyconfig.toml` checks everything.

## How it is built

DSM is a list of records with a UUID counter and certificate rows (`Dsm`). The network
is a finite script of events, one per attempt of a request: the login it may need, what
becomes of the request (answered, an HTML page, an error, a broken connection, a crash
of the operator; acted on by DSM or not) and the login that may follow. An exhausted
script is a healthy network. Every client call maps a `World` (DSM, script, session,
log of what was sent) to the next one. Uniqueness of descriptions is not built into the
data; it is proved.

What the code does step by step is written as methods on objects (`Client.Client`,
`Operator.RuleReconciler`, `Watcher.SourceReconciler`), each proved equal to a
specification function; the properties are lemmas about those functions.

| module | about |
|---|---|
| `Dsm`, `Client`, `Posts`, `Sessions` | DSM, `post` with its retries, reply by reply, concurrent callers |
| `Proxy`, `LostReplies`, `CertificateChoice`, `CertificateService`, `Acl` | records, certificates, profiles and their cache |
| `Backend`, `Rules`, `Sync`, `Finalizer`, `Reconciler`, `EndToEnd`, `Operator` | discovery, plans, one pass, deletion, one reconcile |
| `Convergence`, `Silence`, `Collision`, `Runs` | what passes and whole runs of one rule keep in the record list |
| `Ledger`, `Books`, `Restart`, `Rows`, `RowTurns` | certificate rows of passes and deletions |
| `Fleet`, `Contention`, `Handover`, `SharedRows` | passes of several rules, in any order |
| `Naming`, `Watcher`, `WatchedRules` | rules made from Services, Ingresses and Applications |

## Where code and documents differ

The model follows the code.

- docs/architecture.md:99-110 lists stale records after the upserts and a requeue of 30
  seconds; the code deletes stale records first (internal/controller/synologyproxyrule_controller.go:255-269)
  and requeues a good pass after 5 minutes (line 372). `Collision.NoCollision` needs that order.
- docs/architecture.md:31 has the finalizer in place before any DSM write. A rule that is
  being deleted without it, held by somebody else's finalizer, is still cleaned up:
  `Runs.UnguardedChange` says exactly when.
- docs/architecture.md:57 looks for manual rules in the rule namespace; the code, and the
  user guide, look in the namespace of the source.
- docs/architecture.md:46 has rules updated only when they have changed. For Services and
  Ingresses the comparison never holds: `Watcher.SettledWrites`.
- docs/architecture.md:74 has an Application without references scan its destination namespace.
  The scan is in the namespace of the rule: `WatchedRules.AppScansRuleNamespace`.
- The comments at internal/synology/client.go:259 and 290 speak of one retry; the recursion
  has no bound. `Client.PostRetries` counts the requests.
- internal/synology/certificate.go:38 has an empty choice only if there are no certificates;
  `CertificateChoice.NoCertificate` gives the exact condition.

## Claims that hold only under a condition

- A release leaves an orphan exactly when a record the rule wrote was never recorded and is
  not among the descriptions deletion goes by (`Runs.ReleaseOrphansExactly`); `Runs.OrphanRun`
  is a run that does it, and making good every unrecorded pass rules it out (`Runs.NoOrphans`).
- A finished pass leaves a collision exactly when the sweep left a record of the rule where a
  planned host is to go (`Collision.CollidesExactly`); `Collision.SwapCollides` is a way there.
- A deletion cut off and run again ends with the right record list, but with the right certificate
  rows exactly when the cut pass left no row behind of a record it deleted
  (`Restart.RestartRowsExactly`); a refused unassign leaves one (`Restart.RefusedUnassign`).
- The order of passes is irrelevant to the record list, for rules with disjoint descriptions, none
  obstructed, exactly when no two want a frontend that one of them has yet to create its record at
  (`Contention.OrderMattersExactly`). A host that moves from one rule to another is the other case:
  the rule that takes it up is obstructed until the other has swept. For rules that are unobstructed
  once all stale records are gone and contest no frontend, the order matters exactly when there is
  such a handover (`Handover.HandoverExactly`), and a second round makes it good
  (`Handover.NextTurnServes`). `Handover.HeldUpExactly` and `Handover.ServableExactly` are about
  rules obstructed by anything.
- The order is irrelevant to certificate rows as well exactly when, besides, no status names the
  UUID of a record to which another rule assigns a certificate (`SharedRows.WholeOrderExactly`);
  after a rename in DSM one can (`SharedRows.RenamedRecordMatters`).
- The second of two healthy passes is silent exactly when entries the spec names twice keep the
  certificate of the status (`Silence.SilentExactly`); a host named twice loses it
  (`Silence.NamedTwiceLosesCertificate`).
- Certificate rows follow the status exactly when no certified record is re-created while
  certificates are off (`Ledger.PassKeepsBooked`), or, if the pass stops at an obstructed host,
  when it disturbed no host before it (`Books.PassKeepsOrderExactly`).
- A repeated request is harmless exactly when it does not put a certificate in the place of a
  different one (`Dsm.ApplyTwice`).
- Cached profile identifiers are always younger than their time to live exactly when one name
  is in use (`Acl.FreshExactlyForOneName`).
- Form and header of a request carry one token exactly when logins come all with a token or all
  without (`Sessions.OneTokenExactly`).
- Rule names can be read back exactly for namespaces without two dashes in a row and
  without a dash at the end (`Naming.RuleNameDecodes`), and `Naming.NamesMeetExactly` says which
  namespaces can share one.

## Model

| member | source | states |
|---|---|---|
| `Proxy.UpsertEffect` | internal/synology/proxy.go:103-213 | The upsert law, for every reply script: other records are untouched, descriptions stay unique, DSM holds the old record or the desired one and nothing in between; success means exactly one record at the description, with the returned UUID and all ten compared fields as desired; an upsert that reports nothing written sent only reads |
| `Proxy.UpsertHealthy` | internal/synology/proxy.go:138-213 | On a healthy network an upsert fails if and only if it has to create and the frontend is taken; `written` if and only if there was no equal record |
| `LostReplies.WritesRecord` | internal/synology/proxy.go:44-230 | Field by field, on every network: what an upsert writes is the record of its rule, with port 443, timeouts of 60, the WebSocket headers, HTTPS and HSTS where the rule leaves them open; and it writes if and only if there is no record or one of the ten compared fields differs |
| `LostReplies.LostAcknowledgement` | internal/synology/proxy.go:177-212 | A create whose answers are any number of error pages of status 500 and above, of which DSM has acted on none, one or several, and then a full answer, one without the UUID or "already exists": the upsert succeeds with the UUID of the one record, which has every field of the rule |
| `LostReplies.BrokenCreate` | internal/synology/proxy.go:177-199 | A create whose connection breaks is an error at once, without a lookup, whether DSM has acted or not; the next upsert on a healthy network finishes the work |
| `LostReplies.PassesForExisting` | internal/synology/proxy.go:261-266 | Which errors pass for "already exists": those with the digits 4154 anywhere in the error code, or in a text that came from outside |
| `Proxy.DeleteEffect` | internal/synology/proxy.go:232-259 | The delete law, for every reply script: the record list is as before or lacks exactly the described record; success means it is gone, and the flag says whether it was there |
| `Proxy.CreatePosts` | internal/synology/proxy.go:177-199 | However often a create is repeated by retries, at most one record appears, and only one with a free frontend |
| `Proxy.AfterCreateEffect` | internal/synology/proxy.go:183-212 | After a create whose answer was lost, terse or "already exists", the lookup returns the UUID of the record that the create stored |
| `Proxy.UpdateEffect` | internal/synology/proxy.go:144-165 | An update rewrites the one record in place, keeping its UUID and key |
| `Proxy.GetEffect` | internal/synology/proxy.go:64-97 | A lookup changes nothing and returns the first record in list order |
| `Proxy.DeleteHealthy` | internal/synology/proxy.go:232-259 | On a healthy network a delete succeeds and removes exactly the described record |
| `Proxy.FindByDescription` | internal/synology/proxy.go:91-96 | The scan loop returns the first record with the description |
| `Proxy.DoGetProxyRecord` | internal/synology/proxy.go:86-97 | The client state after the lookup and its result are those of the specification |
| `Proxy.DoCreateRecord` | internal/synology/proxy.go:168-212 | Likewise for a create with its follow-up lookups |
| `Proxy.DoUpsert` | internal/synology/proxy.go:103-213 | Likewise for the whole upsert |
| `Proxy.DoDeleteProxyRecord` | internal/synology/proxy.go:232-259 | Likewise for the delete |
| `Dsm.ApplyTwice` | internal/synology/proxy.go:183-197 | A request that DSM has already acted on changes nothing when it arrives again, if and only if it is not one that puts a certificate in the place of a different one |
| `Dsm.CreateKeepsSound` | internal/synology/proxy.go:116-136 | A create with a free frontend and a new description adds one record and keeps UUIDs and descriptions unique |
| `Dsm.UpdateKeepsSound` | internal/synology/proxy.go:144-165 | An update by UUID rewrites exactly the one record and keeps both unique |
| `Dsm.DeleteKeepsSound` | internal/synology/proxy.go:242-258 | A delete by UUID removes exactly the described record and keeps both unique |
| `Client.PostEffect` | internal/synology/client.go:220-316 | For every finite script and every request that may be repeated (every one but putting a certificate in the place of a different one), `post` leaves DSM in the state before the request or after one application of it; data means it was applied and the answer is one DSM gave |
| `Client.PostRepeats` | internal/synology/client.go:220-316 | For every finite script and every request: DSM is in the state after some number of applications, at most one for each request sent, and at least one if data is returned |
| `Client.PostRetries` | internal/synology/client.go:256-315 | With the logins it reaches granted, `post` sends one request per leading retryable reply and one more, and returns the verdict of the first reply that is not retryable, over the DSM the earlier arrivals left |
| `Posts.GoodSessionIsUsed` | internal/synology/client.go:154-163 | A session younger than 3600 seconds is used, whatever DSM would answer to a login |
| `Posts.NoLoginNoRequest` | internal/synology/client.go:154-223 | Otherwise a login comes first; if it fails nothing is sent and the session is as it was |
| `Posts.LoginThenRequest` | internal/synology/client.go:154-243 | If it is granted the call goes on as in its session |
| `Posts.AnAnswerEnds` | internal/synology/client.go:286-315 | An answer ends the call, as data or as the error of DSM |
| `Posts.AnErrorEnds` | internal/synology/client.go:286-315 | Every error code but 119 ends the call after one request |
| `Posts.ABreakEnds` | internal/synology/client.go:245-254 | So does a connection that breaks |
| `Posts.AServerErrorRepeats` | internal/synology/client.go:256-283 | After a page of status 500 or above the same request goes out again in the same session, and no login is asked for |
| `Posts.DeniedRelogin` | internal/synology/client.go:266-300 | After a page below 500 or error 119 the session is gone, and a login that is denied ends the call after one request, with an error that says which of the two it was |
| `Posts.GrantedRelogin` | internal/synology/client.go:266-306 | A login that is granted makes the request go out again under the new session and token |
| `Posts.PagesPass` | internal/synology/client.go:256-283 | Through any number of server error pages the call goes on, over a DSM that has acted on the request if any of them came from one that had |
| `Client.AttemptEffect` | internal/synology/client.go:220-316 | One round of `post` lands at most one application of the request, or none if no session could be had |
| `Client.PostHealthy` | internal/synology/client.go:220-316 | On a healthy network exactly one exchange, with the answer of DSM |
| `Client.Client.DoLogin` | internal/synology/client.go:165-217 | The fields set by a login, and none on a refusal |
| `Client.Client.DoEnsureLoggedIn` | internal/synology/client.go:154-163 | A login only if there is no session or it has outlived its time |
| `Client.Client.Relogin` | internal/synology/client.go:266-273 | The session is dropped, then a login is made |
| `Client.Client.DoJudge` | internal/synology/client.go:256-315 | Which replies end the call, which ask for another round, and which need a new login first |
| `Client.Client.Round` | internal/synology/client.go:220-316 | One round of `post` on the client fields equals its specification |
| `Client.Client.DoPost` | internal/synology/client.go:220-316 | The recursion on the client fields equals its specification; it terminates because each retry uses up the script |
| `Sessions.SentIsConsistent` | internal/synology/client.go:220-243 | For every interleaving of any number of callers at lock boundaries: each request sent has an empty sid, or sid and header token of one granted login; the form token agrees with the header unless that login came without a token; so with tokens never empty, sid and form token are of one login |
| `Sessions.NextKeepsInv` | internal/synology/client.go:154-306 | Every single step of every caller keeps that invariant |
| `Sessions.OneTokenExactly` | internal/synology/client.go:220-306 | Starting with blank forms: form and header agree in every run, for any number of callers, if and only if the logins DSM may grant come all without a token or all with one |
| `Sessions.TokenlessLoginMixes` | internal/synology/client.go:231-233 | For any login with a token and any one without there is a run that sends the sid of the second with the token of the first |
| `Sessions.SoloIsAttempt` | internal/synology/client.go:220-316 | A caller alone takes exactly the rounds of `post`: the interleaved steps are those of the sequential model |
| `CertificateChoice.WildcardIsLabelWise` | internal/synology/certificate.go:68-79 | A pattern starting with "*." covers a name if and only if it equals it or the labels after the wildcard end the label list of the name |
| `CertificateChoice.JoinLabels` | internal/synology/certificate.go:74-77 | Splitting at dots is undone by joining |
| `CertificateChoice.LabelsConcat` | internal/synology/certificate.go:74-77 | The labels of two names joined by a dot are the labels of both |
| `CertificateChoice.Rfc6125` | internal/synology/certificate.go:68-79 | The whole-label wildcard rule of section 6.4.3 of RFC 6125 holds if and only if the operator accepts and both have as many labels |
| `CertificateChoice.PatternExactly` | internal/synology/certificate.go:68-79 | A pattern covers a name if and only if it is the name, or a star and a dot in front of the name or of what follows one of its dots |
| `CertificateChoice.CoversExactly` | internal/synology/certificate.go:51-58 | A certificate covers a name if and only if its common name or one of its alternative names does |
| `CertificateChoice.BestCertChoice` | internal/synology/certificate.go:39-66 | The first certificate in list order with a matching name, otherwise the last default one with its own description, otherwise nothing |
| `CertificateChoice.NoCertificate` | internal/synology/certificate.go:38-66 | Nothing is chosen if and only if no certificate covers the name and none is the default, so also when there are certificates, unlike the comment says |
| `CertificateChoice.FindMatchingCert` | internal/synology/certificate.go:45-65 | The nested loops compute that choice |
| `CertificateService.AssignEffect` | internal/synology/certificate.go:88-134 | Assigning changes certificate rows at most, on every network |
| `CertificateService.UnassignEffect` | internal/synology/certificate.go:141-175 | So does unassigning |
| `CertificateService.AssignHealthy` | internal/synology/certificate.go:88-134 | On a healthy network the chosen certificate replaces the given one, or is added, or nothing is sent |
| `CertificateService.AssignSends` | internal/synology/certificate.go:88-134 | What is sent for it: the list, and one request with record, host name, the certificate to replace and the one chosen, or nothing more |
| `CertificateService.ReportedIsThere` | internal/synology/certificate.go:88-134 | On every network a certificate that is reported as assigned is the one chosen, and DSM has a row that says so |
| `CertificateService.DoAssignCertificate` | internal/synology/certificate.go:88-134 | The method equals its specification |
| `CertificateService.DoUnassignCertificate` | internal/synology/certificate.go:141-175 | The method equals its specification |
| `Backend.BackendResolution` | internal/controller/synologyproxyrule_controller.go:163-191 | A resolved backend has a host and a port; explicit values win; missing ones are what discovery found; and it is unresolved if and only if a missing value was not found |
| `Backend.DiscoveryComplete` | internal/controller/synologyproxyrule_controller.go:377-438 | Discovery returns a complete pair or nothing |
| `Backend.ReferenceDecides` | internal/controller/synologyproxyrule_controller.go:381-417 | A service reference decides before an ingress reference, each alone; discovery fails if and only if the referenced object is missing |
| `Backend.DiscoverySource` | internal/controller/synologyproxyrule_controller.go:419-437 | Without references: the first usable load balancer of the namespace in list order |
| `Backend.DiscoverExactly` | internal/controller/synologyproxyrule_controller.go:375-438 | Discovery finds exactly what the referenced Service offers, else the referenced Ingress, else the first load balancer of the namespace that offers an address and a port |
| `Backend.OffersExactly` | internal/controller/synologyproxyrule_controller.go:440-461 | A Service offers its first address that is not empty, an IP before a host name, and its first port that is not 0 |
| `Backend.IngressOffersExactly` | internal/controller/synologyproxyrule_controller.go:463-479 | An Ingress offers its first address, with port 443 if it has a TLS entry and 80 if not |
| `Backend.ScanIsFirst` | internal/controller/synologyproxyrule_controller.go:424-437 | The scan finds the first usable load balancer, and nothing if there is none |
| `Backend.ServiceOffer` | internal/controller/synologyproxyrule_controller.go:440-461 | A service offers its first address, an IP before a host name, and its first port |
| `Backend.SourceHostOrder` | internal/controller/synologyproxyrule_controller.go:504-563 | The source host is the first non-empty one of its sources in the documented order, and missing if and only if all are empty |
| `Backend.DoExtractFromService` | internal/controller/synologyproxyrule_controller.go:440-461 | The loops equal the specification |
| `Backend.DoExtractFromIngress` | internal/controller/synologyproxyrule_controller.go:463-479 | The loop equals the specification |
| `Backend.DoDiscover` | internal/controller/synologyproxyrule_controller.go:377-438 | The method equals the specification |
| `Backend.DoDeriveSourceHost` | internal/controller/synologyproxyrule_controller.go:511-563 | The method equals the specification |
| `Acl.CacheReturnsFetched` | internal/controller/synologyproxyrule_controller.go:581-610 | In every history, an identifier returned for a name is one DSM listed for that name at this or an earlier fetch |
| `Acl.CacheRefinesLookup` | internal/controller/synologyproxyrule_controller.go:581-610 | While DSM lists one identifier for a name, the cache answers as a direct lookup |
| `Acl.HitIsCovered` | internal/controller/synologyproxyrule_controller.go:592-608 | Every hit is covered by a fetch younger than the time to live, of some name; when that fetch was for the same name the hit repeats it |
| `Acl.FreshExactlyForOneName` | internal/controller/synologyproxyrule_controller.go:581-610 | In every history over a set of listed names each hit repeats a fetch of its name younger than the time to live, if and only if the names are all equal |
| `Acl.OneNameIsFresh` | internal/controller/synologyproxyrule_controller.go:592-596 | A hit repeats a fetch younger than the time to live when only its name has been fetched |
| `Acl.TwoNamesGoStale` | internal/controller/synologyproxyrule_controller.go:604-608 | For any two listed names there is a history with a hit older than that: fetching one renews the time of the other |
| `Acl.GetACLEffect` | internal/synology/acl.go:14-41 | Resolving a profile reads DSM only; no name is no profile; a fetched identifier is the one listed, and on a healthy network a profile is found if and only if it is listed |
| `Acl.LookupExactly` | internal/synology/acl.go:35-40 | The identifier is that of the first profile of the name in list order |
| `Acl.CacheFirst` | internal/controller/synologyproxyrule_controller.go:581-606 | The cache is used, and nothing sent, if and only if it holds the name and was last filled less than 300 seconds ago; a fetched identifier is kept under the time it came at |
| `Acl.FindProfile` | internal/synology/acl.go:35-40 | The loop finds the first profile with the name |
| `Acl.DoGetACLProfileID` | internal/synology/acl.go:14-41 | The method equals its specification |
| `Rules.HostsWellNamed` | internal/controller/synologyproxyrule_controller.go:241-253 | Within a rule a description determines its host |
| `Rules.PlanWellNamed` | internal/controller/synologyproxyrule_controller.go:241-253 | Every plan is named so, and its descriptions depend on name and spec alone |
| `Sync.SweepEffect` | internal/controller/synologyproxyrule_controller.go:255-269 | The stale sweep, on every network: only stale records go, and each stale record is gone or kept for later |
| `Sync.SweepFailures` | internal/controller/synologyproxyrule_controller.go:260-268 | The failed ones are tracked records in their old order |
| `Sync.CertifyEffect` | internal/controller/synologyproxyrule_controller.go:295-327 | The certificate of a host never fails the pass and touches certificate rows only |
| `Sync.NotedCertificate` | internal/controller/synologyproxyrule_controller.go:295-327 | The certificate noted for a host, on every network: if the record was written and certificates are wanted, the chosen one, which DSM then has, or none; otherwise the one tracked before |
| `Sync.RefusedCertificate` | internal/controller/synologyproxyrule_controller.go:310-317 | An assignment that DSM refuses is not fatal and leaves none noted |
| `Sync.RetireSends` | internal/controller/synologyproxyrule_controller.go:295-309 | A record back under a new UUID has its old row asked to be removed, under the host name, and replaces no certificate |
| `Sync.SyncHostEffect` | internal/controller/synologyproxyrule_controller.go:281-328 | One host writes its own record at most; a tracked result is in DSM with its UUID and the planned fields |
| `Sync.SyncHostsEffect` | internal/controller/synologyproxyrule_controller.go:277-328 | All hosts, on every network: only planned descriptions are written, and a pass that reaches the end tracks every host as it is in DSM |
| `Convergence.PassEffect` | internal/controller/synologyproxyrule_controller.go:255-364 | A pass on every network, stopped anywhere: in the record list nothing outside its descriptions changes and no stale record is altered; a finished pass leaves a status with the hosts in order, then exactly the failed stale records in old order, a count equal to the length, and no dropped description still in DSM |
| `Rows.PassLeavesRow` | internal/controller/synologyproxyrule_controller.go:255-328 | And it leaves the certificate rows of every UUID that it neither tracks nor finds at a planned description, gives no record the description of another, and does not come to track such a UUID |
| `Rows.PassLeavesRecord` | internal/controller/synologyproxyrule_controller.go:255-328 | So the rows of a record that is not of the plan and whose UUID the status does not name |
| `RowTurns.PassRows` | internal/controller/synologyproxyrule_controller.go:255-328 | What a healthy pass, finished or stopped, does to every certificate row, told before it: a row tracked for a host whose record has another UUID is removed, a record that is written for the first entry of its description has the certificate put in place of the one noted, a record that is created starts with the row of its certificate, and every other row stays |
| `RowTurns.PassFresh` | internal/controller/synologyproxyrule_controller.go:271-328 | A record that a healthy finished pass creates has the row of the certificate chosen for its host, if certificates are wanted and there is one, and no other, whatever else the status tracks |
| `Convergence.HealthyPass` | internal/controller/synologyproxyrule_controller.go:255-364 | One healthy pass from any status and any DSM finishes if and only if no host is obstructed once stale records are gone; then every host is as planned, stale records are gone, the rest of the record list is untouched and the status agrees |
| `Convergence.TurnIsClear` | internal/synology/proxy.go:168-199 | At its turn a host can be upserted if and only if it was clear at the start |
| `Convergence.StatusExactly` | internal/controller/synologyproxyrule_controller.go:329-364 | The status of a finished pass, field by field: while stale records remain only the record list and its length change; otherwise it agrees with the plan, and is written if and only if it or the records did not before |
| `Silence.FixedPoint` | internal/controller/synologyproxyrule_controller.go:255-364 | A converged pass, on every network and whether or not hosts are named twice, asks for the record list and sends nothing else, no create, update, delete or certificate call; if it finishes it leaves each entry with the certificate last noted under its description, and it writes a status if and only if it finishes and that changes an entry |
| `Silence.DistinctAgain` | internal/controller/synologyproxyrule_controller.go:342-364 | With hosts named once it changes none |
| `Silence.SilentExactly` | internal/controller/synologyproxyrule_controller.go:241-373 | Of two healthy passes in a row, of which the first is not obstructed, the second only asks for the record list, and it writes no status if and only if each entry that the spec names twice and whose record the first pass writes had in the status the certificate that is assigned; which can be told before the first pass |
| `Silence.OnePassConverges` | internal/controller/synologyproxyrule_controller.go:241-373 | So with hosts named once the second pass is silent |
| `Silence.PassNotes` | internal/controller/synologyproxyrule_controller.go:281-328 | The certificate a healthy pass notes for each host, told before it starts: the one it assigns to the first entry of a description that is to be written, and otherwise the last one noted |
| `Silence.NamedTwiceLosesCertificate` | internal/controller/synologyproxyrule_controller.go:241-328 | A rule whose spec names an additional host twice: the second pass, with nothing changed, writes a status and loses the certificate DSM still uses |
| `Collision.NoCollision` | internal/controller/synologyproxyrule_controller.go:249-293 | With the naming scheme, distinct hosts, an unchanged base and no failed stale delete, no state of a pass shows two records of the rule at one frontend, on every network, not even when primary and additional host swap |
| `Collision.CollidesExactly` | internal/controller/synologyproxyrule_controller.go:255-328 | After a finished pass, on every network, no two records of the rule share a frontend if and only if the sweep left no unplanned one where a planned host is to go, which can be told before the first upsert |
| `Collision.SurvivorCollides` | internal/controller/synologyproxyrule_controller.go:255-269 | A stale record the sweep leaves at a wanted frontend collides once the pass has finished, whatever the naming |
| `Collision.SwapCollides` | internal/controller/synologyproxyrule_controller.go:249-269 | An additional host becomes the primary and its stale delete fails: the pass starts without a collision and finishes with one |
| `Collision.SwapHappens` | internal/controller/synologyproxyrule_controller.go:249-269 | Such a start exists |
| `Reconciler.PrepareEffect` | internal/controller/synologyproxyrule_controller.go:160-253 | Before the first write only reads are sent; a plan that results has a complete backend, explicit values win, and names follow the scheme |
| `Reconciler.PassDelivers` | internal/controller/synologyproxyrule_controller.go:160-373 | End to end: when a reconcile has run its pass to the end, on whatever network, each host of the spec has exactly one DSM record with the ten fields the spec, the discovery and the profile ask for |
| `EndToEnd.ReadyExactly` | internal/controller/synologyproxyrule_controller.go:160-240 | On a healthy network a rule gets as far as a plan if and only if it has a backend, its profile is none, cached for less than 300 seconds or listed, and one of the possible source hosts is not empty |
| `EndToEnd.LiveRuleArrives` | internal/controller/synologyproxyrule_controller.go:160-373 | Liveness: one reconcile of a live rule that tracks nothing and has room in DSM brings every host there, field by field as the spec asks, and into the status |
| `EndToEnd.NewRuleArrives` | internal/controller/synologyproxyrule_controller.go:57-86 | A new rule takes two: the first sends nothing and puts the finalizer on |
| `EndToEnd.CreatedHasCertificate` | internal/controller/synologyproxyrule_controller.go:278-320 | A record that a healthy finished reconcile creates has the certificate chosen for its host when assignCertificate is left out or true, and no row when it is false |
| `Finalizer.DeletePassEffect` | internal/controller/synologyproxyrule_controller.go:89-138 | A delete pass on every network, cut off anywhere: the record list loses some tracked records and nothing else; success means all of them; apart from it only certificate rows can change |
| `Restart.DeletionRows` | internal/controller/synologyproxyrule_controller.go:101-122 | And each certificate row is as it was, or gone, and then only with a record that deletion goes by and knows a host name for |
| `Finalizer.DeletePassHealthy` | internal/controller/synologyproxyrule_controller.go:89-138 | A healthy delete pass leaves exactly the records that are not tracked |
| `Finalizer.DeletesNamed` | internal/controller/synologyproxyrule_controller.go:141-156 | The records it deletes: those of the status; with an empty status the one described by the spec, or as namespace and name with a slash between them |
| `Finalizer.HostOfLast` | internal/controller/synologyproxyrule_controller.go:92-99 | The host name a row goes under is that of the last entry that tracks its UUID |
| `Finalizer.ReleaseSends` | internal/controller/synologyproxyrule_controller.go:110-120 | Before a record goes its row is asked to be removed, under that host name or else the one of the record |
| `EndToEnd.DeletedIsReleased` | internal/controller/synologyproxyrule_controller.go:67-138 | A reconcile of a deleted rule takes the finalizer off only when these records are gone and the write lands, and on a healthy network it does |
| `Finalizer.DeleteRestarts` | internal/controller/synologyproxyrule_controller.go:101-138 | Cut off and run again it ends with the record list an uninterrupted pass would leave; the number of tracked records in DSM never grows and falls whenever the list changes |
| `Restart.RestartRowsExactly` | internal/controller/synologyproxyrule_controller.go:101-122 | And with the certificate rows an uninterrupted pass would leave, if and only if the cut pass has left no row behind of a record it deleted, which can be told before the rerun |
| `Restart.RefusedUnassign` | internal/controller/synologyproxyrule_controller.go:116-119 | It can leave one: an unassign that DSM refuses is not fatal, the record is deleted, the deletion succeeds, and no rerun removes the row |
| `Ledger.CertifyRows` | internal/controller/synologyproxyrule_controller.go:295-320 | After one host the row of its record is the one its status names if and only if the host is not re-created with certificates off |
| `Ledger.PassKeepsBooked` | internal/controller/synologyproxyrule_controller.go:271-328 | A healthy finished pass starting with rows and status in agreement ends so if and only if no record with a certificate is re-created while certificates are off; rows of other records stay |
| `Books.PassKeepsOrderExactly` | internal/controller/synologyproxyrule_controller.go:255-364 | Any healthy pass over distinct hosts with a certificate for each, whether it finishes or stops at an obstructed host, leaves rows and status in agreement if and only if it finishes and re-creates no certified record while certificates are off, or stops and every host it got past had a tracked record there and was assigned no other certificate than the one in the status; which can be told before the pass |
| `Books.StoppedPassKeepsOrder` | internal/controller/synologyproxyrule_controller.go:277-364 | The second half of that, for a pass that stops: it changes rows but writes no status |
| `Books.BooksStayInOrder` | internal/controller/synologyproxyrule_controller.go:271-328 | Through every run of passes that keep the order so, and of records deleted by others, each tracked record has exactly the row its status names |
| `Books.DeletionClearsRows` | internal/controller/synologyproxyrule_controller.go:92-122 | A healthy deletion removes the rows of exactly the records it deletes and that have a known host name |
| `Books.DeletionAfterRun` | internal/controller/synologyproxyrule_controller.go:92-122 | After such a run deletion leaves no row for any tracked record still in DSM |
| `Runs.WrittenIsAccountedFor` | internal/controller/synologyproxyrule_controller.go:58-156 | In every run of edits, reconciles on any network, crashes and foreign changes: a record the rule wrote and that is in DSM is in the status, or its pass never got its record list into the status; and writing needed the finalizer |
| `Runs.ReleasedLeavesOnlyUnrecorded` | internal/controller/synologyproxyrule_controller.go:132-156 | Once the finalizer is gone, only records of such unrecorded passes can be left |
| `Runs.NoOrphans` | internal/controller/synologyproxyrule_controller.go:89-156 | When every unrecorded pass is followed by a recorded one before the next edit or the deletion, DSM holds nothing the rule wrote once the finalizer is gone |
| `Runs.ReleaseOrphansExactly` | internal/controller/synologyproxyrule_controller.go:132-156 | In every run, the reconcile that releases the rule leaves exactly the records it wrote that were in DSM before, never recorded and not among the descriptions deletion goes by; so it orphans if and only if there is one |
| `Runs.RecordedPassMakesGood` | internal/controller/synologyproxyrule_controller.go:342-364 | One recorded pass is enough for that |
| `Runs.OrphanRun` | internal/controller/synologyproxyrule_controller.go:143-156 | Such a release happens: a crash after a create, an edit of the description and a deletion leave a record |
| `Runs.NextKeepsInv` | internal/controller/synologyproxyrule_controller.go:58-138 | Every step of a run keeps the invariant |
| `Runs.DeleteTick` | internal/controller/synologyproxyrule_controller.go:89-138 | A reconcile of a deleted rule, on every network: records are kept or gone, never changed; and when the finalizer goes, every description deletion goes by is absent from DSM |
| `Runs.UpsertTick` | internal/controller/synologyproxyrule_controller.go:160-373 | A reconcile of a live rule, on every network: only wanted descriptions are written; what leaves the status is absent from DSM; a recorded pass tracks all that is wanted |
| `Runs.NoWriteWithoutFinalizer` | internal/controller/synologyproxyrule_controller.go:69-85 | A rule without the finalizer causes no create and no update, and nothing at all unless it is being deleted |
| `Runs.UnguardedChange` | internal/controller/synologyproxyrule_controller.go:69-72 | A reconcile without the finalizer changes the record list if and only if the rule is being deleted and a record is left |
| `Fleet.OrderDoesNotMatter` | internal/controller/synologyproxyrule_controller.go:241-373 | Rules with disjoint descriptions, each unobstructed at the start up to the host where it is stuck for good, if there is one, that want no frontend up to there that one of them has yet to create a record at: any two orders of passes that give each rule a turn, with repetitions, end in the same record list up to identifiers |
| `Fleet.AsIfAlone` | internal/controller/synologyproxyrule_controller.go:241-373 | Such a rule finds its records as if it had run alone |
| `Contention.OrderMattersExactly` | internal/controller/synologyproxyrule_controller.go:241-373 | Of rules with disjoint descriptions, each unobstructed at the start up to the host where it is stuck for good, if there is one, all orders of passes end in the same record list up to identifiers if and only if no two want, up to there, a frontend that one of them has yet to create its record at |
| `Contention.CompanyMattersExactly` | internal/controller/synologyproxyrule_controller.go:241-373 | And every rule finds its records as if alone under that condition and only then |
| `Contention.SharedFrontendMatters` | internal/synology/proxy.go:138-199 | Of any two rules that do, the one without the record gets it when it goes first, and neither finishes nor gets it after the other |
| `Contention.PassFrame` | internal/controller/synologyproxyrule_controller.go:241-373 | A pass on any network leaves the records outside the scope of its rule, and the scope does not grow |
| `SharedRows.OthersLeaveRow` | internal/controller/synologyproxyrule_controller.go:271-328 | On any network: while no other rule tracks the UUID of a record, its certificate rows change in turns of its own rule only |
| `SharedRows.WholeOrderExactly` | internal/controller/synologyproxyrule_controller.go:241-373 | Of the rules of Contention.OrderMattersExactly, each of which tracks none of its own records under the description of another, all orders end in the same DSM up to identifiers, certificate rows included, if and only if they contest no frontend and none has tracked, for a host it gets to, a record that is not the one there and to which another rule assigns a certificate |
| `SharedRows.WholeCompanyExactly` | internal/controller/synologyproxyrule_controller.go:241-373 | And every rule finds its corner of DSM, rows included, as if alone if and only if they contest no frontend and none has so tracked a planned record of another that has a row or is assigned one |
| `SharedRows.BookedIsSafe` | internal/controller/synologyproxyrule_controller.go:271-328 | Rules whose status and rows are in agreement fulfil the conditions on rows |
| `SharedRows.RenamedRecordMatters` | internal/controller/synologyproxyrule_controller.go:295-328 | Two rules with the same record list in every order, but not the same rows: one status names the UUID of the record that now bears the description of the other rule |
| `Fleet.DefaultDescriptionsDisjoint` | internal/controller/synologyproxyrule_controller.go:494-502 | Default descriptions of different rules never meet, as namespaces and names hold no slash |
| `Handover.HandoverExactly` | internal/controller/synologyproxyrule_controller.go:255-373 | Rules that are unobstructed once all stale records are gone and contest no frontend can all be served, and the order of passes is irrelevant to the record list, and company without effect on it, if and only if no record of one rule sits at a frontend where another has yet to create its record |
| `Handover.HeldUpExactly` | internal/controller/synologyproxyrule_controller.go:255-373 | Whatever obstructs the rules, foreign records included: if only stale records leave a frontend where another rule has yet to create its record, and, where both a rule is held up and a frontend contested, those who leave do not want it again, then the order is irrelevant to the record list, and company without effect on it, if and only if every rule gets as far at first as it does once all stale records are gone and none is contested that far |
| `SharedRows.HeldUpWhole` | internal/controller/synologyproxyrule_controller.go:255-373 | The same with certificate rows included, under the condition on rows of SharedRows.WholeOrderExactly or SharedRows.WholeCompanyExactly in addition |
| `Handover.ServableExactly` | internal/controller/synologyproxyrule_controller.go:255-373 | Rules that some order of turns serves, however they obstruct each other at first, by stale records or by ones an update will move: the order is irrelevant to the record list, and company without effect on it, if and only if none contests a frontend and no record of one rule sits at a frontend where another has yet to create its record |
| `SharedRows.ServableWhole` | internal/controller/synologyproxyrule_controller.go:255-373 | The same with certificate rows included, under the condition on rows in addition |
| `Handover.NextTurnServes` | internal/controller/synologyproxyrule_controller.go:255-373 | What a bad order missed is made good: after a round in which each rule has had a turn, the next turn of a rule serves it as far as it is unobstructed once all stale records are gone |
| `Handover.MoreTurnsServe` | internal/controller/synologyproxyrule_controller.go:241-373 | Turns put in anywhere undo nothing: rules that contest no frontend and are served so far by some turns are served so far by every run that has those turns in their order |
| `Handover.HostMoves` | internal/controller/synologyproxyrule_controller.go:255-293 | Moving an additional host from one rule to another is such a handover |
| `Handover.StuckForGood` | internal/synology/proxy.go:168-199 | A missing host at whose frontend sits a foreign record or that of a later host of its own rule, or which shares its frontend with an earlier one, is created by no run of passes |
| `Operator.RuleReconciler.ResolveACL` | internal/controller/synologyproxyrule_controller.go:581-610 | The cache fields and the result equal the specification |
| `Operator.RuleReconciler.FindBackend` | internal/controller/synologyproxyrule_controller.go:163-191 | The method equals the specification |
| `Operator.RuleReconciler.ListHosts` | internal/controller/synologyproxyrule_controller.go:241-253 | The loop builds the host list of the specification |
| `Operator.RuleReconciler.DoPrepare` | internal/controller/synologyproxyrule_controller.go:160-240 | The method equals the specification |
| `Operator.RuleReconciler.SweepStale` | internal/controller/synologyproxyrule_controller.go:255-269 | The loop over tracked records equals the specified sweep |
| `Operator.RuleReconciler.IndexByDescription` | internal/controller/synologyproxyrule_controller.go:271-275 | The index finds the record last tracked under a description |
| `Operator.RuleReconciler.CertifyHost` | internal/controller/synologyproxyrule_controller.go:295-320 | The method equals the specification |
| `Operator.RuleReconciler.UpsertHosts` | internal/controller/synologyproxyrule_controller.go:277-328 | The loop over hosts, left at the first error, equals the specification |
| `Operator.RuleReconciler.DoRunPlan` | internal/controller/synologyproxyrule_controller.go:255-364 | The pass and the status it computes equal the specification |
| `Operator.RuleReconciler.IndexHosts` | internal/controller/synologyproxyrule_controller.go:92-99 | The index finds the host last tracked for a UUID |
| `Operator.RuleReconciler.EraseRecord` | internal/controller/synologyproxyrule_controller.go:102-131 | The method equals the specification |
| `Operator.RuleReconciler.DoDeletePass` | internal/controller/synologyproxyrule_controller.go:89-138 | The loop, left at the first error, equals the specification |
| `Operator.RuleReconciler.DoReconcile` | internal/controller/synologyproxyrule_controller.go:57-86 | One reconcile of the stored rule, with client, cache and rule changed in place, equals the specification that the runs are made of |
| `Naming.RuleNameDecodes` | internal/controller/serviceingress_controller.go:263-267 | A parser that splits at the first two dashes undoes the rule name if and only if the namespace has no two dashes in a row and does not end in one |
| `Naming.NamesMeetExactly` | internal/controller/serviceingress_controller.go:263-267 | Two namespaces can give two objects one rule name if and only if one of them, followed by two dashes, begins with the other, followed by two dashes |
| `Naming.RuleNamesDiffer` | internal/controller/serviceingress_controller.go:263-267 | So different objects get different names where namespaces have no two dashes in a row and no dash at the end |
| `Watcher.DecidesAsDocumented` | README.md:417-424 | Both watchers decide as documented for live objects and never manage one being deleted |
| `Watcher.WatchersConverge` | internal/controller/serviceingress_controller.go:117-186 | Confluence: once each source has been reconciled, in any order, with repetitions and failed calls in between, the stored rules are the same |
| `Watcher.OwnedIffManaged` | internal/controller/serviceingress_controller.go:139-155 | In that store a source owns a rule if and only if the documented decision is to manage it, unless a rule of somebody else sat at its key; a managed source has a rule with its spec in any case, another has none that it owns; decisions are the same before and after |
| `Watcher.ManualSignal` | internal/controller/sprdiscovery.go:21-32 | A reconcile changes whether a namespace has a manual rule if and only if it deletes the last one there, a rule with marks of ownership but without the label of the operator; with coherent labels never |
| `Watcher.ReconcileEffect` | internal/controller/serviceingress_controller.go:157-255 | A reconcile touches one key; a kept rule keeps labels and owner, a new one is of the operator, a removed one was owned |
| `Watcher.ReconcileReaches` | internal/controller/serviceingress_controller.go:157-186 | One reconcile brings the rule of its source to its outcome |
| `Watcher.OutcomeIsStable` | internal/controller/serviceingress_controller.go:139-155 | The outcome of a source does not depend on who was reconciled before |
| `Watcher.SettledWrites` | internal/controller/serviceingress_controller.go:178-185 | A settled Application is left alone, a settled Service or Ingress is rewritten at every reconcile, as its source port is stored with its default |
| `Watcher.AnnotationSteers` | internal/controller/argoapplication_controller.go:171-262 | Each annotation steers its own part of the spec and nothing else |
| `WatchedRules.StoredRule` | internal/controller/serviceingress_controller.go:157-229 | The rule stored for a Service, an Ingress or an Application, field by field, whatever was stored before: it refers to that very object by name and namespace, or to what the annotations name |
| `WatchedRules.NewRuleLabels` | internal/controller/argoapplication_controller.go:113-127 | The labels and the owner of a new rule |
| `WatchedRules.RemovedRule` | internal/controller/serviceingress_controller.go:231-261 | The rule of a source that is to have none is removed if and only if it bears the marks of that source, and nothing else changes |
| `WatchedRules.ServiceIsFound` | internal/controller/synologyproxyrule_controller.go:381-398 | For the rule stored for a Service, discovery finds exactly what that very Service offers |
| `WatchedRules.IngressIsFound` | internal/controller/synologyproxyrule_controller.go:400-417 | Likewise for an Ingress |
| `WatchedRules.AppScansRuleNamespace` | docs/architecture.md:74 | The rule of an Application without references gets what is found in its own namespace, which is the destination, as documented, if and only if no other namespace is configured for rules |
| `Watcher.RulePlacement` | internal/controller/argoapplication_controller.go:96-106 | Configured namespace, else destination, else the namespace of the source |
| `Watcher.PortRoundTrip` | internal/controller/argoapplication_controller.go:220-226 | A port written in decimal is read back, as far as 64 bits go |
| `Watcher.PortAmid` | internal/controller/argoapplication_controller.go:220-226 | Blanks before it and a text after it do not matter |
| `Watcher.RefRoundTrip` | internal/controller/argoapplication_controller.go:228-259 | A reference "namespace/name" is read back if and only if the namespace has no slash |
| `Watcher.ObjectKeysDiffer` | internal/controller/serviceingress_controller.go:127-131 | Objects of one kind have keys of their own under the conditions on namespaces |
| `Watcher.BuiltIsOwned` | internal/controller/serviceingress_controller.go:188-255 | A rule a watcher builds carries the label of the operator and is owned by its source |
| `Watcher.OwnsOnlyOwn` | internal/controller/serviceingress_controller.go:234-255 | A built rule is owned by nobody but the object of that name, or the Application of that name or identity |
| `Watcher.RuleStore.HasManualRule` | internal/controller/sprdiscovery.go:21-32 | The search through the rules equals the specification |
| `Watcher.SourceReconciler.DoUpsertRule` | internal/controller/serviceingress_controller.go:157-186 | The method equals the specification |
| `Watcher.SourceReconciler.DoDeleteOwnedRule` | internal/controller/serviceingress_controller.go:234-261 | The method equals the specification |
| `Watcher.SourceReconciler.ReconcileObject` | internal/controller/serviceingress_controller.go:117-155 | The method equals the specification |
| `Watcher.SourceReconciler.ReconcileApplication` | internal/controller/argoapplication_controller.go:48-94 | The method equals the specification |

## Left out

- HTTP, TLS, cookies, URL encoding, JSON and logging: replies are events of a script, and DSM stores the entry it is sent.
- An infinite sequence of retryable replies, on which `post` does not return: scripts are finite.
- How DSM treats an update that moves a record onto a taken frontend: the model lets it succeed, as the code does not look for it. A delete of an unknown UUID succeeds or is an error, by a flag of the DSM model; the error code 4150 for it is the model's own.
- UUIDs as texts: they are numbers from a counter that is never reset, 0 standing for the empty text. `_key` is modelled as the same number.
- A reply that is valid JSON of the wrong shape, other than as an unreadable body.
- The texts that wrap an error on its way up; only the text `post` returns is modelled, as `isAlreadyExistsError` searches it.
- Conditions and their messages, `LastSyncTime`, and the moments at which a pass is requeued.
- Stale informer caches, watches, garbage collection, and conflicts of optimistic locking other than as writes that do not land.
- A changed `SessionTimeout`: the default of one hour is used. Likewise for the cache's time to live.
- `path.Match` behind `namespaceMatches`: a predicate on namespaces given as a parameter.
- Unicode case folding: texts compared with "true" and "false" are lower-cased as ASCII.
- Blanks other than space and tab in front of a port annotation.
- A rule that a watcher deletes is gone at once; in the cluster it stays until its finalizer is removed.
- Failing reads of a namespace or of the rule list inside a watcher: both count as nothing found in the code; the model has no failing list, and an unreadable namespace is one that is not in the table.
- Objects that vanish without being seen in the deleting state: their rules stay, and the model has no step for it.
- A Service and an Ingress of the same namespace and name share one key; the confluence results ask for distinct keys.
- Parallel passes of different rules: the controller runs one pass at a time, so passes interleave as a whole. Concurrent callers of the client are in `Sessions`.
- Fleet.OrderDoesNotMatter: is about healthy networks, as are the exact results of `Contention`, `Handover` and `SharedRows`; what a pass does to other rules on any network is `Contention.PassFrame` and `Rows.PassLeavesRow`.
- Handover.HeldUpExactly: leaves out fleets in which a frontend is handed over by a record that an update will move, and fleets in which at once some rule is held up, a frontend is contested, and a rule that leaves a frontend wants it again; where some order serves all rules they are in `Handover.ServableExactly`. The equivalence does not extend to all of the latter: if the additional host of one rule becomes its primary and another rule wants that host as well, the first gets it in every order.
- SharedRows.WholeOrderExactly: is about rules none of which tracks one of its own records under the description of another of its own; such a status can make rows depend on how often a stuck rule has turns.
- Books.BooksStayInOrder: is about healthy passes over distinct hosts for each of which a certificate qualifies; the row of a record whose host was removed from the spec stays behind, as the sweep does not unassign it.
- Client.PostEffect: leaves out requests that replace a certificate by a different one; a repeated one adds a row in the DSM model, and `Client.PostRepeats` bounds how often it is applied.
- Client.PostRetries: is about scripts in which the logins reached succeed; a refused login ends the call, as `Client.Client.DoJudge` says.
- Acl.CacheRefinesLookup: is about a table in which the name keeps its identifier; after a change the cache may answer with the old one until it expires.
