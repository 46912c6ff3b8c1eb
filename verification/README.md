# edgekit, modelled in Dafny

edgekit runs an edge server: Nginx Proxy Manager (NPM) in front of services behind a WireGuard
tunnel, with DNS and optionally the proxy at Cloudflare. Most of its hard work is keeping three
tables it does not own in step with its own database: NPM's certificates and proxy hosts,
Cloudflare's A records and SSL mode, and the rows and settings it stores. NPM cannot replace a
certificate in place, any request can fail before or after it took effect, and a re-point can be
answered with success and ignored.

`dafny verify dfyconfig.toml` checks the whole project.

## How it is modelled

* The two remote services are classes (`NpmServer.Npm`, `Cloudflare.Server`) whose only mutator is
  `Send`. How a request ends is not the client's choice: done, ignored (a re-point only), refused,
  answered with an error before or after it took effect, or cut off without an answer before or
  after it took effect. Every request is recorded in a ghost log with the tables it left, so that
  properties can be stated about every intermediate state.
* The client code keeps the source's shape: methods with the same requests in the same order, the
  same early returns and the same loops. Each method's contract relates the tables before, the
  events, the tables after and the answer through a named predicate on values (`UploadPost`,
  `ManualPost`, `PushPost`, `AttachPost`, and so on). The properties of whole runs are lemmas over
  sequences of such values, so they hold of any sequence of operations.
* edgekit's database is `Store.Session`: what the code sees, what was committed, commit and roll
  back. Claims about a rollback are made only for callers that let the exception escape.
* Text that is compared or parsed (hostnames, the job log) is modelled character by character.
  A certificate is its DER content, which says which one it is and when it expires, in one of its
  PEM spellings.
* What the rest of the world says during a provisioning run is one value, `Provision.Outside`: the
  time, Cloudflare about the token, whether the supplied pair belongs together, what Cloudflare's
  authority issues and whether the configuration file can be written.

Which module models what: `NpmServer` and `NpmClient` the NPM API client; `Certificates`,
`InstallRuns` and `Coverage` the certificate service; `ProxyHosts`, `Hosts` and `Recovery` the host
service; `Cloudflare` DNS and uninstalling; `Health` and `Visitors` the public HTTPS check;
`Agreement` and `Provision` the TLS steps; `Firewall`, `Throttle`, `Addresses`, `Peers` and `Jobs`
the parts of the same names.

## What is assumed

* edgekit is the only writer during one operation. Between operations `InstallRuns` lets hosts and
  certificates come and go, except that an uploaded certificate is not edited in place.
* NPM never hands out an id twice, and a Let's Encrypt record exists only with its certificate.
  (edgekit's own row ids are reused: a new row gets one above the largest in use.)
* Listings are complete: no table is longer than the page size the client asks for.
* Apart from a re-point, a request answered with success has done what it says.
* For attaching and publishing: NPM has no domain on two hosts, and no host carries two of the
  domains edgekit manages (a push would take the second one off it).
* `nginx -t`, where it can be run, accepts exactly the configurations whose hosts all refer to no
  certificate or to one on disk. Cloudflare proxies no record it calls unproxiable.
* `iptables -C` answers whether the rule is there. In the script a check that fails for another reason
  reads as "absent" and appends a second copy; removal deletes every copy.
* Clocks do not go back.

## Where the code and its documentation differ

* Reusing a Let's Encrypt certificate does not always repair what a half-failed switch left. When an
  Origin install's re-point takes effect but is reported lost, the recorded id and the row still
  name the Let's Encrypt record; switching back then moves nothing, attaching passes the row over,
  and the host stays on the Origin certificate (`Recovery.SwitchBackStrandsHost`). Attaching is
  exact in the sense of `Recovery.AttachIsExact`, and `Recovery.ReuseIsExact` gives the condition.
* "One failure must not abandon the rest" (`repoint_hosts`) and the same promise of
  `attach_certificate` hold for failures that were answered. A transport error is not an `NPMError`
  and ends the loop (`NpmClient.CutAbandonsTheRest`); every host is tried exactly when no request, or
  only the one for the last host, went unanswered (`NpmClient.AllTriedExactly`). A failed upload
  removes its empty record (`NpmClient.CreateRecord`), and a DNS failure lets a push go on
  (`Hosts.PushDns`), under the same condition.
* A rollback replays the writable fields the snapshot held. It restores every writable field exactly
  when NPM reported all of them (`ProxyHosts.RollbackRestores`).
* A job whose output stops in the middle of a line loses its exit status
  (`Jobs.StatusRecoveredExactly`).
* `issue_and_install` answers "skipped" from its own settings and does not ask whether NPM still
  holds the certificate. edgekit's own half-failed forced re-issue is enough to make that untrue: the
  deletion of the superseded record takes effect and is reported lost, the settings keep naming it,
  and the next run skips (`Recovery.ReissueCanHalfFail`, `Recovery.SkippedThoughGone`). An Origin
  certificate is in NPM afterwards exactly when one had to be issued or the recorded one was still
  there (`Recovery.IssueIsExact`).
* A zone name with a trailing dot makes a pair of names that covers nothing, because only the
  hostname is stripped (`Coverage.TrailingDotCoversNothing`); the pair covers its own zone exactly
  when there is none (`Coverage.PairCoversItself`).

## Model

| member | source | states |
|---|---|---|
| NpmServer.Npm.Send | src/edgekit/services/npm.py:136-156 | a request has its whole effect or none; the answer does not tell which when it failed; only a re-point may be ignored |
| NpmServer.NoWorseTransitive | src/edgekit/services/npm.py:373-380 | "no host newly refers to a missing or empty certificate" composes over steps |
| NpmServer.NoWorseKeepsLoadable | src/edgekit/services/npm.py:377-380 | what that buys: nginx can still load the configuration, every certificate a host has being in NPM with its content |
| NpmClient.HostsUsing | src/edgekit/services/npm.py:422-427 | names exactly the hosts on a certificate, each once |
| NpmClient.FindCertificates | src/edgekit/services/npm.py:360-362 | names exactly the records under a label, each once |
| NpmClient.CertificateExists | src/edgekit/services/npm.py:364-366 | true exactly when NPM holds the record |
| NpmClient.RepointHosts | src/edgekit/services/npm.py:491-509 | at every moment only hosts on the old record have moved and nothing else changed; every one is attempted unless a request got no answer; success means no request failed, and the hosts named in an error are exactly those whose re-point failed; all moved when all took effect |
| NpmClient.CutAbandonsTheRest | src/edgekit/services/npm.py:491-504 | whichever re-point gets no answer, the hosts after it are never tried |
| NpmClient.AllTriedExactly | src/edgekit/services/npm.py:491-509 | every host was tried if and only if no request went unanswered, or only the last host's |
| NpmClient.MoveAll | src/edgekit/services/npm.py:402-406 | the moves off all superseded records compose; on failure the last record was still worked through |
| NpmClient.SweepAll | src/edgekit/services/npm.py:408-418 | a superseded record is deleted exactly when no host uses it |
| NpmClient.CreateRecord | src/edgekit/services/npm.py:384-397 | the new record is the only change; on success it holds the certificate; an upload answered with an error, and no other, is followed by the deletion of that record, and the certificates are as before exactly when the deletion took effect |
| NpmClient.UploadCustomCertificate | src/edgekit/services/npm.py:368-420 | safe at every intermediate state; moves only hosts of the label; if a move fails nothing is deleted |
| NpmClient.HonestUpload | src/edgekit/services/npm.py:371-380 | with no failure exactly one record is left under the label, exactly its hosts moved, and nothing else changed |
| NpmClient.UsedRecordIsKept | src/edgekit/services/npm.py:408-418 | a record a host still uses survives an upload, failed or not, even after an ignored re-point |
| NpmClient.FindLetsEncrypt | src/edgekit/services/npm.py:431-440 | a certificate for exactly these names, up to case and order, that no other such certificate outlives; none only when there is none |
| NpmClient.CreateLetsEncrypt | src/edgekit/services/npm.py:442-489 | at most one new record whichever request shape NPM takes |
| Certificates.MoveHosts | src/edgekit/services/certificates.py:114-121 | only hosts on the recorded certificate move, and only when it is another one |
| Certificates.UploadAndMove | src/edgekit/services/certificates.py:309-316 | the upload and the move off the recorded certificate together: safe throughout, and exactly the hosts of both move when nothing fails |
| Certificates.AlreadyInstalled | src/edgekit/services/certificates.py:361-381 | an id is answered exactly when the record matches the certificate and NPM holds it; nothing is written |
| Certificates.InstallManual | src/edgekit/services/certificates.py:384-423 | unchanged writes nothing anywhere; an install records exactly what it uploaded; a failure leaves the settings alone |
| Certificates.IssueAndInstall | src/edgekit/services/certificates.py:271-335 | skips without a request when an Origin certificate with more than thirty days left is recorded; otherwise an upload of what was issued, which is then recorded; answered requests mean success |
| Certificates.ObtainLetsEncrypt | src/edgekit/services/certificates.py:463-498 | a certificate for exactly the wanted names that is not due, or one newly issued because none was |
| Certificates.InstallLetsEncrypt | src/edgekit/services/certificates.py:430-516 | only hosts on the recorded certificate move; no fingerprint is kept; a failure leaves the settings alone |
| Certificates.SkippedHasThirtyDays | src/edgekit/services/certificates.py:286-300 | in seconds: an issue without error leaves a recorded certificate with more than thirty days left or one just issued; thirty days or less are always replaced, and more are always skipped for unless forced |
| Certificates.ReusedHasThirtyDays | src/edgekit/services/certificates.py:463-498 | in seconds: what direct mode reuses has more than thirty days left or no known end, and no certificate for the names outlives it; one with more than thirty days left is always reused unless forced |
| Certificates.UnchangedExactly | src/edgekit/services/certificates.py:361-381 | a manual install with every request done answers "unchanged" if and only if the recorded id is in NPM, the fingerprint is this certificate's and the recorded kind is Origin or, from an older release, none |
| InstallRuns.InstallsNeverStrandAHost | src/edgekit/services/npm.py:373-380 | at every intermediate state of any sequence of installs, whatever fails, no host newly refers to a missing or empty certificate |
| InstallRuns.StepKeepsTruth | src/edgekit/services/certificates.py:338-358 | every operation keeps the recorded fingerprint true of what NPM holds |
| InstallRuns.RunKeepsTruth | src/edgekit/services/certificates.py:338-358 | so does every run, with anything happening to NPM in between |
| InstallRuns.UnchangedIsTrue | src/edgekit/services/certificates.py:361-381 | "unchanged" is answered only when NPM holds that exact certificate under the recorded id |
| InstallRuns.SecondInstallIsUnchanged | src/edgekit/services/certificates.py:396-397 | installing the installed certificate changes nothing |
| InstallRuns.LetsEncryptForcesReupload | src/edgekit/services/certificates.py:350-352 | after a Let's Encrypt install no Origin certificate is believed to be installed |
| Coverage.MatchingIsByLabel | src/edgekit/services/certificates.py:142-151 | matching is section 6.4.3 of RFC 6125: label by label, a leading `*` for one whole label |
| Coverage.PairCoversExactly | src/edgekit/services/certificates.py:258-264 | the wildcard and apex pair covers exactly the zone and the names one label below it |
| Coverage.TrailingDotCoversNothing | src/edgekit/services/certificates.py:142-151 | the pair of a zone with a trailing dot covers no hostname |
| Coverage.PairCoversItself | src/edgekit/services/certificates.py:258-264 | the pair covers its own zone if and only if that has no trailing dot |
| Coverage.TwoBelowIsNotCovered | src/edgekit/services/certificates.py:142-151 | nothing deeper is covered |
| Coverage.SpellingDoesNotMatter | src/edgekit/services/certificates.py:144-144 | case and trailing dots of the hostname make no difference |
| Coverage.PairWarnings | src/edgekit/services/certificates.py:234-255 | however the zone is written, for the pair of its trimmed name there is no warning exactly when every served domain is the apex or one label below it |
| Coverage.TrimmedName | src/edgekit/services/certificates.py:243-243 | trimming the zone takes off exactly the whitespace around it and the dots that end it |
| Coverage.WarningLists | src/edgekit/services/certificates.py:242-255 | the two warnings name the trimmed zone and list the uncovered domains, each exactly when there is cause |
| Coverage.UncoveredInOrder | src/edgekit/services/certificates.py:249-249 | the uncovered domains are listed in the order they are given in, each as often |
| Coverage.ProbeStandsForAll | src/edgekit/services/certificates.py:244-248 | the single probed name stands for every new subdomain |
| ProxyHosts.RollbackCoversPush | src/edgekit/services/npm.py:75-95 | every field a push writes is replayed by a rollback, except the challenge flags |
| ProxyHosts.FindProxyHost | src/edgekit/services/npm.py:519-523 | a host listing the domain, or none does |
| ProxyHosts.UpsertProxyHost | src/edgekit/services/npm.py:525-535 | one host written: the one that listed the domain, or a new one when none did |
| ProxyHosts.VerifyOrRollback | src/edgekit/services/hosts.py:284-322 | undone exactly when `nginx -t` ran and refused; an unrunnable test undoes nothing |
| ProxyHosts.PushHost | src/edgekit/services/hosts.py:276-279 | every state on the way is before, pushed, or undone |
| ProxyHosts.PushStateKeepsOneHostPerDomain | src/edgekit/services/npm.py:525-535 | no domain ever gets a second host |
| ProxyHosts.RollbackRestores | src/edgekit/services/npm.py:537-544 | every writable field is back if and only if NPM reported all of them |
| ProxyHosts.RollbackRemovesNewHost | src/edgekit/services/hosts.py:311-312 | undoing a creation leaves the table of hosts as it was |
| ProxyHosts.PushIsTransactional | src/edgekit/services/hosts.py:284-297 | after a test that ran, either nginx loads the new configuration or all writable fields and the set of hosts are as before |
| ProxyHosts.PushedCarries | src/edgekit/services/npm.py:75-95 | after a push that took hold NPM's host under the answered id has the row's domain alone, the certificate, and the row's target, port, scheme, websockets and exploit blocking; SSL is forced, and HTTP/2 on, if and only if the row asks and the host has a certificate; HSTS, caching, access list and custom configuration stay off |
| Hosts.PushDns | src/edgekit/services/hosts.py:250-263 | answered requests leave the name published and the record id in the row; an error Cloudflare answers changes no row and lets the push go on |
| Hosts.PushNpm | src/edgekit/services/hosts.py:265-282 | after a push that took hold the row records the certificate and names the NPM host that lists its domain and is as the row says; otherwise it is untouched |
| Hosts.Push | src/edgekit/services/hosts.py:243-282 | DNS and NPM together: no other row changes; with every request done only nginx can refuse it, the name is published, and a row that was pushed names the host that carries it |
| Hosts.PushLeavesOthers | src/edgekit/services/hosts.py:276-282 | a push, done or undone, changes nothing for any other domain |
| Hosts.NeverRefused | src/edgekit/services/hosts.py:284-297 | where nginx can load everything and the certificate is on disk no push is rolled back |
| Hosts.AttachCertificate | src/edgekit/services/hosts.py:324-344 | success lists exactly the rows that were stale, each now on the current certificate in NPM and naming the NPM host that lists its domain and carries it; an error lists exactly the domains whose rows are still not up to date; it succeeds when every request is done and nginx can load everything; certificates never change |
| Recovery.AttachIsExact | src/edgekit/services/hosts.py:333-335 | every host serves the current certificate if and only if the rows passed over told the truth |
| Recovery.InstallRecovers | src/edgekit/services/certificates.py:414-417 | from any wreckage, one successful install and an attach put every managed host on the new id in NPM and locally, re-points ignored or not; with none ignored the label is swept |
| Recovery.ReuseIsExact | src/edgekit/services/certificates.py:463-499 | reusing a certificate recovers if and only if each row that already names it has its host on it or on the recorded one |
| Recovery.HalfSwitchIsLegal | src/edgekit/services/npm.py:491-509 | a server may answer an Origin install so that its re-point takes effect and is reported lost |
| Recovery.SwitchCanHalfFail | src/edgekit/services/certificates.py:384-417 | that install then fails as specified, leaving record and row on the old certificate and NPM on the new one |
| Recovery.SwitchBackStrandsHost | src/edgekit/services/certificates.py:120-121 | switching back from there leaves the host on the Origin certificate |
| Recovery.IssueIsExact | src/edgekit/services/certificates.py:286-300 | after an issue without error NPM holds the recorded Origin certificate if and only if one was issued or the skipped-for one was still there |
| Recovery.HalfIssueIsLegal | src/edgekit/services/npm.py:408-418 | a server may delete the superseded record of a forced re-issue and report it lost |
| Recovery.ReissueCanHalfFail | src/edgekit/services/certificates.py:309-319 | that re-issue then fails as specified, leaving the settings naming a record NPM no longer holds |
| Recovery.SkippedThoughGone | src/edgekit/services/certificates.py:286-300 | the next issue answers "skipped" for it and attaching passes the host over |
| Cloudflare.UpsertA | src/edgekit/services/cloudflare.py:252-282 | the name's first A record is the wanted one afterwards; a right one is not written; nothing else changes |
| Cloudflare.UpsertPublishes | src/edgekit/services/cloudflare.py:252-282 | publishing one name disturbs no other published name |
| Cloudflare.ReconcileProxyStatus | src/edgekit/services/cloudflare.py:299-321 | switches and names exactly the misfits at the address; a settled zone is only read |
| Cloudflare.SetSslMode | src/edgekit/services/cloudflare.py:332-341 | the mode is set and nothing else changes; a set mode is not written |
| Cloudflare.UpsertKeepsAgreed | src/edgekit/services/cloudflare.py:252-282 | publishing one more name with the mode's status keeps the whole zone agreeing |
| Cloudflare.PublishZone | src/edgekit/services/provision.py:413-421 | all names published and every record at the address agreeing; others untouched; a second run writes nothing |
| Cloudflare.TaggedAreWritten | src/edgekit/services/cloudflare.py:260-282 | over any run the records carrying the comment are those that did before and those edgekit wrote |
| Cloudflare.DeleteManaged | src/edgekit/uninstall.py:143-158 | exactly the records carrying the comment go, in order, and a failure leaves the rest; success means every request was done |
| Cloudflare.UninstallDeletesOwn | src/edgekit/uninstall.py:152-155 | after any run uninstall deletes a record if and only if it was tagged before or written by edgekit |
| Health.OkExactly | src/edgekit/services/health.py:805-928 | OK means a trusted certificate, the mode's path and an answer below 500, and asks for no retry |
| Health.FailExactly | src/edgekit/services/health.py:836-908 | FAIL means exactly: public DNS was asked and has no address, or browsers are shown a certificate they reject, or over the right path the answer is 525 or 526 |
| Health.FindingNamesCause | src/edgekit/services/health.py:836-928 | each cause has its own sentence: what the operator reads is what the probe saw |
| Health.OriginIssuer | src/edgekit/services/health.py:677-679 | the Origin certificate is recognised exactly by its authority's name, in any case, anywhere in the issuer |
| Health.RetryExactly | src/edgekit/services/health.py:805-811 | a retry is asked exactly for states a DNS change explains |
| Health.RetriedExactly | src/edgekit/services/provision.py:599-600 | a domain is asked again exactly when this run changed DNS and its answer is one a DNS change explains |
| Health.AssessRound | src/edgekit/services/provision.py:594-600 | each domain gets the verdict on its last probe; exactly the ones worth it are asked again |
| Health.VerifyHttps | src/edgekit/services/provision.py:571-634 | at most thirteen rounds whatever the probes take, each of the domains left open, until none is or 120 seconds would be passed; fails exactly when the last probe of some domain is one browsers reject; 525 is reported exactly when proxied and seen last; one round when DNS was not applied |
| Health.PendingShrinks | src/edgekit/services/provision.py:594-610 | the domains asked about only ever get fewer |
| Health.EveryDomainJudged | src/edgekit/services/provision.py:597-598 | every domain ends with a verdict |
| Health.JudgedOnLatest | src/edgekit/services/provision.py:597-598 | the probe a domain is judged on is the one of the last round that asked about it |
| Agreement.ManualReady | src/edgekit/services/provision.py:471-496 | after a successful manual install the rows an attach will pass over serve the recorded certificate |
| Agreement.IssueReady | src/edgekit/services/provision.py:498-507 | the same for an issued one |
| Agreement.LetsEncryptReady | src/edgekit/services/provision.py:450-461 | the same for Let's Encrypt, new or reused |
| Agreement.PushKeepsInStep | src/edgekit/services/provision.py:547-554 | publishing one more host keeps every other host on its certificate |
| Agreement.UpsertKeepsDns | src/edgekit/services/hosts.py:255-260 | and keeps DNS as the mode wants it |
| Agreement.PushLasts | src/edgekit/services/hosts.py:280-281 | pushes keep rows and settings naming only ids that were handed out |
| Agreement.AgreementIsTrusted | src/edgekit/services/provision.py:98-108 | an edge in agreement with one mode is a sound start for any other |
| Provision.Provisioner.StepZone | src/edgekit/services/provision.py:378-404 | done exactly when the API is configured, the token is valid, the zone is visible and every required permission is there |
| Provision.Provisioner.StepDns | src/edgekit/services/provision.py:406-427 | done exactly when edgekit manages the zone and every request was done; then apex and wildcard are published, every record at the address agrees, and DNS is remembered as applied |
| Provision.Provisioner.StepSsl | src/edgekit/services/provision.py:429-440 | done exactly when the mode is proxied, edgekit manages the zone and every request was done; then the zone is strict, with its records untouched |
| Provision.Provisioner.StepCertificate | src/edgekit/services/provision.py:442-448 | done means the recorded certificate is in NPM, of the mode's kind and in date; it is done when a certificate can be had and every request is done; otherwise the database is as before |
| Provision.Provisioner.SuppliedStep | src/edgekit/services/provision.py:471-496 | an expired or mismatched supplied pair is refused before NPM is touched; any other is installed when every request is done |
| Provision.Provisioner.LetsEncryptStep | src/edgekit/services/provision.py:450-461 | done when token, zone and e-mail are there, DNS is not skipped and every request is done; what it records is new or has more than thirty days left, under the zone's label |
| Provision.Provisioner.IssuedStep | src/edgekit/services/provision.py:498-507 | done when Cloudflare issues and every request is done; the recorded certificate has not expired, provided what was issued has not |
| Provision.Provisioner.StepAttach | src/edgekit/services/provision.py:556-564 | done keeps or brings every host onto the recorded certificate, and it is done when every request is and nginx can load everything; otherwise the database is as before |
| Provision.Provisioner.PlacePanel | src/edgekit/services/provision.py:530-553 | the panel's row is the existing one with its target corrected or a new one that forces SSL, speaks HTTP/2, passes websockets and blocks exploits; refused exactly for a bad port, name or target or a name already taken |
| Provision.Provisioner.StepPanel | src/edgekit/services/provision.py:509-554 | the panel is published at its name and NPM's host for it forwards to the panel's address and port; neither DNS nor any host falls out of agreement; it is done when a row can be placed, every request is done and nginx can load everything |
| Provision.Provisioner.StepVerify | src/edgekit/services/provision.py:571-634 | every published name is judged, in rounds over those left open while DNS settles; failed exactly when the last probe of one is one browsers reject |
| Provision.Provisioner.SettlingSteps | src/edgekit/services/provision.py:98-108 | the six steps that change something: none fails when the mode is intended, the outside world allows every step, every request is done, nginx could load everything before and the recorded certificates are sound; when none fails everything agrees |
| Provision.Provisioner.RunTls | src/edgekit/services/provision.py:98-108 | every step runs once, in order and under its own name, skipped exactly when there is nothing for it to do; when none of the six that change something fails, proxy status, SSL mode, certificate and every host agree with the mode, in NPM and in the committed rows, and the certificate is in date; when the outside world allows it and every request is done none of them fails, so agreement is reached outright; whatever fails, the database names only what NPM handed out |
| Provision.FreshRunAgrees | src/edgekit/services/provision.py:98-108 | after any history of runs with any failures, a run in which none of the steps that change something fails and which ends on a new certificate brings agreement |
| Provision.ModeSwitchesAgree | src/edgekit/services/provision.py:98-108 | over any sequence of mode switches in which none of those steps fails every mode is agreed with in turn, certificates new or reused |
| Visitors.ReportedExactly | src/edgekit/services/health.py:805-928 | the check reports a certificate or path problem if and only if DNS status and mode differ or browsers come straight to an unfit certificate |
| Visitors.SomethingAnswers | src/edgekit/services/provision.py:415-418 | after publishing the zone its apex and wildcard are published and every name has an address |
| Visitors.AgreementIsSeen | src/edgekit/services/provision.py:571-577 | after a run ending in agreement no browser is shown the Origin certificate, and only 525 and 526 fail; a probe that gets no certificate is only a warning |
| Firewall.RunScript | src/edgekit/system/firewall.py:36-54 | the rules are in place, or those before the one that failed |
| Firewall.RulesAreTheScripts | src/edgekit/system/firewall.py:248-259 | the rules checked and removed are those of the script's three `add` calls, word for word |
| Firewall.PresentMeansNothingToDo | src/edgekit/system/firewall.py:262-271 | `rules_present` is true exactly when running the script would change nothing |
| Firewall.ReplayConverges | src/edgekit/system/firewall.py:262-271 | any number of runs equals one, makes `rules_present` true and keeps the other rules in order |
| Firewall.RemoveRule | src/edgekit/system/firewall.py:396-399 | every copy goes, counted exactly, and no other rule |
| Firewall.RemoveRules | src/edgekit/system/firewall.py:387-401 | terminates, counts exactly whatever fails, and otherwise leaves just the other rules in order |
| Firewall.RemovalUndoesScript | src/edgekit/system/firewall.py:378-401 | removal undoes the script if and only if none of its rules was there before |
| Throttle.LoginThrottle.Check | src/edgekit/security.py:98-102 | refused exactly while the key is locked |
| Throttle.LoginThrottle.RecordFailure | src/edgekit/security.py:104-110 | one key's count goes up by one below the limit, and at the limit the key is locked for the lockout from then on with a clean count; no other key changes |
| Throttle.LoginThrottle.RecordSuccess | src/edgekit/security.py:112-113 | forgets the key and no other |
| Throttle.LoginThrottle.Login | src/edgekit/web/routers/auth.py:67-97 | checked before the password is looked at, recorded after |
| Throttle.LoginRateBound | src/edgekit/security.py:87-113 | at most max_failures failures per lockout period begun, in any interval, for any interleaving of keys |
| Throttle.LocksAtTheLimit | src/edgekit/security.py:104-110 | over consecutive failures a key is not locked before the last allowed one, and that one locks it for the whole lockout |
| Throttle.EveryFailureCounts | src/edgekit/security.py:104-110 | what the bound counts is every failure let through inside the interval |
| Throttle.KeysAreIndependent | src/edgekit/security.py:96-113 | a key fares as if it were alone |
| Addresses.NextFreeAddress | src/edgekit/system/wireguard.py:199-215 | the least usable free address, and none exactly when all are taken |
| Addresses.Capacity | src/edgekit/system/wireguard.py:205-209 | there are two to the power of 32 minus the prefix, minus 3, of them (section 3.1 of RFC 4632) |
| Addresses.RoomMeansFree | src/edgekit/system/wireguard.py:212-215 | fewer taken means one is free |
| Addresses.SubnetFits | src/edgekit/config.py:57-64 | the subnet holds the address it was written with and ends within 32 bits |
| Addresses.PrefixDecides | src/edgekit/system/wireguard.py:199-209 | an address is in the subnet if and only if it has its prefix; the hub is the first address after the network's |
| Peers.Registry.ValidateAddress | src/edgekit/services/peers.py:201-214 | accepted exactly when in the subnet, not the hub and free; the error names what is wrong |
| Peers.Registry.Create | src/edgekit/services/peers.py:95-149 | succeeds exactly for a valid unused name, valid networks, a usable free address and a valid unused key; stores exactly what was asked for, with the generated private key or none; the automatic address is the least free one; an error names something that is wrong |
| Peers.Registry.Update | src/edgekit/services/peers.py:151-172 | neither name, address nor key changes, and what is given is stored |
| Peers.Registry.RotateKeys | src/edgekit/services/peers.py:189-199 | succeeds exactly when the new public key is unused; only the keys change |
| Peers.Registry.Delete | src/edgekit/services/peers.py:174-187 | refused exactly for a peer that serves hosts or does not exist |
| Peers.Registry.CreateHost | src/edgekit/services/hosts.py:127-158 | succeeds exactly for a valid new domain, a live peer or a target, and a push NPM took; forwards to the live peer it names; an error names what is wrong |
| Peers.Registry.UpdateHost | src/edgekit/services/hosts.py:180-209 | the domain stays; a new peer is live; an explicit host wins over the peer's address; succeeds exactly when the host and peer exist and NPM took the push |
| Peers.Registry.DeleteHost | src/edgekit/services/hosts.py:213-239 | only that host goes |
| Peers.StepKeeps | src/edgekit/models.py:57-103 | every operation keeps names, addresses, keys and domains unique and peer references live, and moves no peer there before and after it |
| Peers.RunKeeps | src/edgekit/models.py:57-103 | so does every run, whatever fails |
| Peers.PeerStaysPut | src/edgekit/services/peers.py:151-199 | over a run a peer that is never deleted keeps its name and address |
| Peers.ServedPeerStaysPut | src/edgekit/services/peers.py:174-187 | and none is deleted, nor its row id reused, while a host forwards to it |
| Peers.ExhaustedMeansFull | src/edgekit/system/wireguard.py:212-215 | "no free addresses" means there are at least as many peers as addresses |
| Jobs.ParseDecimal | src/edgekit/jobs.py:92-92 | the status read back is the one the shell wrote |
| Jobs.FinishedJobRoundTrip | src/edgekit/jobs.py:48-93 | for output that ends its lines, marker-like or not, the exact status comes back, and marker-free output its last lines |
| Jobs.StatusRecoveredExactly | src/edgekit/jobs.py:48-93 | the status comes back if and only if the output ends its line or already shows that status itself |
| Jobs.ShortOutputShownWhole | src/edgekit/jobs.py:91-91 | output of few enough lines is shown whole, up to trailing whitespace and with a newline for every kind of line break; so is all of it when no lines are asked for |
| Jobs.LongOutputIsCut | src/edgekit/jobs.py:91-91 | longer output is cut at the start of a line and exactly the last lines asked for are left |
| Jobs.MiddleMarkerIsHidden | src/edgekit/jobs.py:90-91 | a marker line in the middle of the output is not shown and counts only as an earlier status |
| Jobs.LogSpelledOut | src/edgekit/jobs.py:48-55 | the line the shell appends, character for character |
| Jobs.RunningHasNoStatus | src/edgekit/jobs.py:92-92 | no status is shown while the job runs |
| Store.Session.Commit | src/edgekit/db.py:50-57 | what the code saw is what is kept |
| Store.Session.Rollback | src/edgekit/db.py:58-60 | what was kept is what the code sees |

## Left out

- HTTP, token login and re-authentication, JSON and timeouts: replaced by how a request can end.
- Parsing certificates, matching keys, signing requests, TLS handshakes, DNS over HTTPS, password hashing and encryption at rest: their outcome is a parameter or an arbitrary choice.
- NPM's administrator bootstrap: it guesses at foreign behaviour, and a half-failed rotation does not converge.
- Shell, systemd, apt, Docker and sysctl calls and the templates: effects outside the repository. The uninstaller's other steps are such calls.
- The firewall's ufw rules, including the panel's source rules read back from `ufw status`: they depend on another program's output format.
- The provisioning steps before the TLS steps, the wizard, the command line, the web routes and the panel's pages: interface and plumbing.
- The audit log, log messages, progress reports and the wording of errors: a verdict or an error is a constructor here.
- `resync_all` and `repoint_peer_hosts`: the same push over all hosts, adding nothing to `AttachCertificate`.
- Overlap of extra AllowedIPs: the code makes no promise.
- Settings are typed values here, so a stored id that is not a number or a date that does not parse is not modelled.
- Lower-casing is ASCII, digits are ASCII and addresses are numbers: other alphabets and spellings of an address are not modelled. Job output is text after newline translation.
- In `upload_custom_certificate` the test that a superseded id is the new one never holds when ids are not reused, so it has no counterpart.
- Coverage warnings are not tied to the stored pair: a supplied certificate's names are not part of `Pem`, and the provisioning step only logs the warnings.
- Login: the password check is a parameter, and two clock readings inside one check are one.
- Provision.Provisioner.RunTls: premises name what it cannot see: that recorded ids were handed out by NPM (`Agreement.Lasting`, which every run keeps) and, only where no new certificate is installed, that rows and NPM agree on ids and that NPM holds the certificate an issue was skipped for; `Recovery` shows what happens otherwise. That no step fails also takes a configuration nginx could load before the run: a push is rolled back when any host, not only its own, has no usable certificate. Nothing else touches the tables between the runs of `Provision.History`.
- Provision.Provisioner.StepVerify: asks about the hostnames in row order, where the code sorts them; each is judged by itself.
- Visitors.AgreementIsSeen: covers names whose records are all here, with Cloudflare's own certificate trusted, Let's Encrypt's unexpired and every custom certificate an Origin one.
- Peers.Registry.Create: the name, key and network syntax checks are flags, preshared keys are not modelled, and the interface is not rewritten.
- Peers.Registry.Update: extra networks, and the error for bad ones, are not modelled.
- Peers.Registry.CreateHost: whether the push succeeded is a parameter; the push itself is `Hosts.Push`.
