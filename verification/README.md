# Verified model of the launch-kit backend

launch-kit is a multi-tenant backend: identity (OAuth 2.0 and OpenID Connect), e-mail marketing and tenant administration
over one SQLite database, with a token-bucket limiter in front. This project models the parts of `backend/` that carry
state, as the code has them, and proves what they promise over every input, every run and every interleaving.

`dafny verify dfyconfig.toml` checks everything.

## How the model is built

* `Schema.dfy` has the tables of `main.go` with their UNIQUE, REFERENCES and ON DELETE CASCADE rules; a statement that
  violates one has no result. `StoreOps.dfy` has every statement and transaction of the three stores as one datatype of
  operations with one meaning, `Exec`. `Sound` is the invariant the rest rests on: the constraints, plus the
  tenant-locality no constraint states.
* The limiter (`TokenBucket`, `BucketTheorems`, `SweepThreshold`, `RateLimiter`): a class that updates its buckets in
  place, a bucket specification over real time, and theorems over all runs of requests and sweeps.
* Campaign sending (`CampaignMachine`, `CampaignMeaning`, `CampaignTimes`, `MarketingStore`, `CampaignSender`,
  `Unsubscription`, `Statistics`, `Template`): a state machine of queue, single worker, handlers and crashes, its invariants, and the
  worker as a class whose every statement is shown to be a step of the machine.
* Tenants (`TenantStore`, `TenantViews`, `TenantConfig`, `TenantImport`, `ImportPeople`, `ImportContacts`,
  `ImportCampaigns`, `ImportMeaning`, `ImportSound`, `TenantExport`, `TenantImporter`, `MigrationRoundTrip`): deletion in foreign-key
  order, export, import, and the round trip of the three.
* Identity (`CodeGrants`, `CodeProvenance`, `RefreshChains`, `Activation`, `ActivationTrace`, `ActivationThreshold`,
  `PasswordReset`, `IamStore`, `TokenRegistry`): machines whose steps are single statements (one request for refresh tokens), with any
  number of requests at once and every other operation of the stores in between; and the registry of signing keys as a
  class.

Fresh ids, clocks, hashes, syntax checks, mail delivery and downloads are parameters or free choices. Strings stand for
byte strings, since the code measures them with `len`.

Some properties fail. The model says exactly when:

* A tenant does not always survive a migration: a self-registered or activated user has the role `user`, which the
  import refuses (`RegisteredUsersAreNotPortable`), and an attachment is lost (`AttachmentsAreNotPortable`). It does if
  and only if its rows are portable (`MigrationReturnsExactlyThePortable`). The comment on the migration constructors
  that all fields are preserved is wrong for the attachment; the model follows the code.
* A contact can be activated twice (`EditingTheEmailBreaksIt`). An operation endangers at-most-once activation if and
  only if it deletes the contact or its tenant or gives the contact another email (`SparingIsExact`).
* Template passes see what earlier passes wrote (`HarmfulNamesAreFilledAgain`). A value is safe in its slot if and only
  if it neither contains a placeholder of a later pass nor ends in the beginning of one (`FilledOnceExactly`), and
  text is kept if and only if that holds of it for every pass (`KeptAsTextExactly`).
* The two counts of a campaign's recipients disagree if and only if it has recipients of which none has one of the three
  statuses (`SummariesAgreeExactly`).

## Model

| member | source | states |
|---|---|---|
| RateLimiter.Limiter.Allow | backend/middleware_ratelimit.go:70-110 | in place, the bucket of this ip and path, and no other, becomes what the bucket specification decides; the answer and Retry-After are the specification's; a path without a limit is always allowed and changes nothing |
| RateLimiter.Limiter.Cleanup | backend/middleware_ratelimit.go:47-66 | a sweep forgets exactly the entries idle for longer than the ttl |
| RateLimiter.CallsAnsweredByOwnKey | backend/middleware_ratelimit.go:76-93 | over any run of calls for many keys, a call is answered as if its own key's calls and sweeps were all there was |
| RateLimiter.AtMostTheLimit | backend/main.go:233-242 | whatever else is served and swept, any interval admits at most limit + rate * length calls of one ip and path |
| BucketTheorems.DeniedExactly | backend/middleware_ratelimit.go:84-109 | a request is denied if and only if admitting it would overfill some window that starts at an earlier admission |
| BucketTheorems.WindowBound | backend/middleware_ratelimit.go:95-109 | for every run with sweeps anywhere, admissions in an interval of length d number at most limit + (limit / 60) * d |
| BucketTheorems.DenialsAreForgotten | backend/middleware_ratelimit.go:101-106 | an answer depends on the earlier admissions alone: leaving every denied request out of the run does not change it |
| BucketTheorems.SweepingIsUnobservable | backend/middleware_ratelimit.go:47-66 | a limiter that forgets idle entries answers every request, Retry-After included, like one that never does |
| SweepThreshold.SweepsHiddenExactly | backend/middleware_ratelimit.go:55-93 | sweeping is unobservable over all runs if and only if the limit is at least 1 and the ttl at least 60 seconds |
| BucketTheorems.RetryAfterIsTight | backend/middleware_ratelimit.go:103-106 | after a denial with value k, with only denials since, a request k seconds later is admitted and one less than k - 1 seconds later is denied |
| StoreInvariants.SoundKept | backend/main.go:313-434 | every operation of every store keeps all constraints and keeps recipients and user links inside a tenant |
| StoreInvariants.RunsAreSound | backend/main.go:374-433 | the same over every run of operations |
| Unsubscription.UnsubscribedStays | backend/marketing/store.go:163-173 | no operation of any store subscribes a contact again |
| Unsubscription.UnsubscribedIsNotMailed | backend/marketing/store.go:731-734 | from any reachable state in which a contact is unsubscribed, whatever happens, a campaign no import touched mails it only if a step before that state prepared the campaign while the contact was still subscribed |
| Unsubscription.UnsubscribingStopsMail | backend/marketing/store.go:163-173 | after a contact's unsubscribe link is followed, every mail it still gets from a campaign no import touched is of one that a step before that request had prepared |
| TenantStore.Delete | backend/tenant/tenant.go:147-175 | the ordered loop of deletes in one transaction succeeds exactly when nothing outside refers to the tenant's contacts or users, and otherwise rolls back; an unknown id changes nothing |
| TenantStore.CascadeIs | backend/tenant/tenant.go:154-164 | no statement of the cascade violates a foreign key if and only if the tenant is detachable, and it leaves exactly the rows it should |
| TenantStore.LocalTenantsGo | backend/tenant/tenant.go:147-175 | under the invariant every existing tenant can be deleted and the tables stay sound |
| TenantStore.DeletionIsCleanAfterAnyRun | backend/tenant/tenant.go:147-175 | after any run, deleting an existing tenant leaves no row of it and nothing dangling and keeps every row and link of the others; deleting an unknown one changes nothing |
| CampaignMachine.StepKeepsInv | backend/marketing/sender.go:247-342 | every step of worker, handlers, enqueues and crashes keeps: no campaign that was mailed is a draft again, and the worker's targets beyond its position were not mailed |
| CampaignMachine.MailedAtMostOnce | backend/marketing/sender.go:182-342 | over every interleaving, duplicates in the queue and crashes included, Send is called at most once for each campaign and contact |
| CampaignMeaning.StatusesAreHonest | backend/marketing/sender.go:255-340 | in every reachable state of a campaign no import touched: a draft has no rows and no mail; sent means every row is sent; failed means none is queued and one failed or nothing was attempted |
| CampaignTimes.TimesAreHonest | backend/marketing/store.go:777-811 | in every reachable state, of campaigns no import touched: a campaign has a time exactly if it is sent or failed, a row has a sending time exactly if it is sent, and an error message only if it failed |
| CampaignTimes.OpenedAtFirst | backend/marketing/store.go:790-798 | the opening time of such a row is that of a step of the run that asked for its tracking pixel while it was there unopened; later ones change nothing |
| CampaignMeaning.DoneLeavesNothingQueued | backend/marketing/sender.go:335-340 | when the worker finishes with a campaign that still exists, no recipient is queued and the final status agrees with the rows, whatever opens and unsubscribes arrived meanwhile |
| CampaignMeaning.OnlyEligibleAreMailed | backend/marketing/store.go:731-760 | for every mail of a campaign no import touched, an earlier step of the run prepared the campaign's recipients, and in the tables of that step the contact was of the tenant, not unsubscribed, and a member of a segment that the campaign targets |
| CampaignMeaning.DoneSettles | backend/marketing/sender.go:268-340 | the step that ends a campaign, by success, failure or a failed download, settles its rows and status |
| MarketingStore.PrepareCampaignRecipients | backend/marketing/store.go:723-772 | afterwards the contacts with a row are those who had one and those of the tenant who are not unsubscribed and members of a segment the campaign targets; new rows are queued and empty, old ones unchanged, the count is the number of new ones; refused exactly when the campaign is gone and somebody would get a row |
| MarketingStore.SelectAddressed | backend/marketing/store.go:730-736 | the join of the two junction tables yields exactly the subscribed contacts of the tenant in a segment that the campaign targets |
| MarketingStore.SnapshotIsItsDefinition | backend/marketing/store.go:731-760 | whatever order the rows are made in, the contacts with a row afterwards are the addressed ones and those who had one, and a repeat adds nothing |
| MarketingStore.GetCampaignRecipients | backend/marketing/store.go:690-721 | every recipient row of a campaign of the tenant once, joined with its contact, and nothing for another tenant's campaign |
| MarketingStore.CreateCampaign | backend/marketing/store.go:275-319 | the row and exactly its segments in one transaction, exactly if the id is free, every segment exists and none is repeated; otherwise nothing |
| MarketingStore.UpdateCampaign | backend/marketing/store.go:609-658 | tells a missing campaign from one that is no draft; otherwise subject, body, sender and attachment become those given and the segments exactly those given, unless one is missing or repeated, which rolls everything back; times, rows and every other campaign stay |
| CampaignSender.Sender.constructor | backend/marketing/sender.go:142-153 | a new sender on sound tables is an initial state of the machine |
| CampaignSender.Sender.Enqueue | backend/marketing/sender.go:196-202 | a job is queued if there is room for it among the 100 places |
| CampaignSender.Sender.LoadDraft | backend/marketing/sender.go:250-259 | the worker goes on exactly with a draft of the job's tenant |
| CampaignSender.Sender.SetStatus | backend/marketing/store.go:800-811 | each status update of the worker is a step of the machine, and the last one settles the campaign |
| CampaignSender.Sender.Prepare | backend/marketing/sender.go:280-287 | preparing never fails in a sound database and yields the snapshot, because a campaign that is gone has no segments left either |
| CampaignSender.Sender.SendAll | backend/marketing/sender.go:298-333 | the send loop, with other requests served between any two statements, calls Send once for every target, in order, and reports success only if every delivery succeeded |
| CampaignSender.Sender.ProcessCampaign | backend/marketing/sender.go:247-342 | processCampaign starts exactly on drafts, every state it passes is reachable in the machine, it sends exactly to the listed targets with the subject it loaded, and leaves the campaign settled |
| Template.PassesAreSimultaneous | backend/marketing/sender.go:306-311 | for every template of inert text and placeholders and all harmless values, five passes equal one simultaneous substitution |
| Template.FilledOnceExactly | backend/marketing/sender.go:306-311 | a value is filled in once in every such template if and only if no placeholder of a later pass occurs in it and no non-empty suffix of it begins one |
| Template.KeptAsTextExactly | backend/marketing/sender.go:306-311 | text is kept in every template, whatever the harmless values, if and only if no placeholder occurs in it and no non-empty suffix of it begins one |
| Template.EscapingKeepsHarmless | backend/marketing/sender.go:307-308 | HTML escaping makes no value harmful and no harmful value harmless |
| Template.EscapingShows | backend/marketing/sender.go:307-308 | an escaped value has no angle bracket or quote and is shown as it was written |
| Template.HarmfulNamesAreFilledAgain | backend/marketing/sender.go:307-308 | a contact whose name spells the placeholder of its email gets its email in place of its name |
| Template.Render | backend/marketing/sender.go:301-314 | for any template and values, the body is the five replacements of the five literal placeholders in order followed by the literal tracking pixel; whenever the text is inert and the values, before escaping, are harmless, it is the simultaneous substitution |
| Statistics.ListCampaigns | backend/marketing/store.go:539-576 | every campaign of the tenant with its columns and, for each status and for openings, the number of its rows; the total is zero exactly when it has recipients but none with a counted status or has none |
| Statistics.SummariesAgreeExactly | backend/marketing/store.go:539-576 | the grouped LEFT JOIN with its zero-row correction agrees with GetCampaignStats if and only if the campaign has no recipients or one with a counted status |
| Statistics.CountsConserve | backend/marketing/store.go:672-688 | opened never exceeds total, and total = queued + sent + failed if and only if every status is one of the three |
| Statistics.StatisticsInEveryRun | backend/marketing/store.go:672-688 | in every reachable state, for campaigns no import touched, both counts agree, conserve the recipients and fit the status: none in a draft, all sent in a sent one, none queued and one failed in a failed one that has any |
| TenantConfig.ValidateUsers | backend/tenant/export_import.go:357-376 | accepts exactly lists whose emails differ beyond letter case and whose entries have a valid email, a name of 1 to 200 bytes and the role admin or member |
| TenantConfig.MergeAdminAndUsers | backend/tenant/export_import.go:381-404 | makes the first entry with the admin's email an admin, with the admin's password if it has none, in the caller's own slice, or returns a new one with the admin in front and leaves the caller's alone |
| TenantConfig.MergedTwice | backend/tenant/export_import.go:452-458 | merging what is already merged changes nothing, so the handler's check and the import's own merge see the same list |
| TenantConfig.MergeMakesAdmin | backend/tenant/export_import.go:378-404 | a merged list that passes validation has the admin's email, as an admin only, and every other user unchanged |
| TenantExport.Export | backend/tenant/export_import.go:615-843 | in migration mode: every row of the tenant once with its columns and hashes and never a password, links as names and emails, foreign segments and invite tokens left out, SMTP only with a host; nothing for an unknown tenant |
| TenantExport.ExportNames | backend/tenant/export_import.go:824-834 | the names of the owner's segments inside the tenant, each once |
| TenantExport.ExportRecipients | backend/tenant/export_import.go:802-822 | every recipient of the campaign by its contact's email, which no two share |
| TenantImporter.SeedAdmin | backend/iam/store.go:142-157 | an existing user of that email gets the role admin and nothing else changes; otherwise one is created |
| TenantImporter.ImportUsers | backend/tenant/export_import.go:159-178 | the loop leaves the tenant with exactly one user for each entry, with its email, name and role and its hash or that of its password, keeps every other row and never meets SeedAdmin's promoting branch |
| TenantImporter.ImportContacts | backend/tenant/export_import.go:258-300 | the loop leaves exactly the tables, email map and warnings that adding the entries one after the other gives, fails exactly when one of them is refused, and keeps emails and tokens unique |
| TenantImporter.ImportCampaigns | backend/tenant/export_import.go:302-346 | the loop leaves exactly what adding the campaigns with their segments and recipients one after the other gives, with contacts resolved by the map and then by email, and fails exactly when one is refused |
| TenantImporter.ImportTenantConfig | backend/tenant/export_import.go:127-349 | a bad slug is refused and a known one skipped without any change; otherwise an import finishes exactly if the document is acceptable, and then the tenant has its row, exactly one user for each entry of the merged list with its email, name and role and its hash or that of its password, its clients with their ids and hashes, and its segments, contacts and campaigns, while no row that was there changes |
| ImportPeople.UsersAdded | backend/tenant/export_import.go:159-178 | users with different emails are all added, each with its email, name and role and its own hash or that of its password, and no row that was there changes |
| ImportPeople.ClientsAdded | backend/tenant/export_import.go:195-245 | clients are added if and only if no id is taken or repeated, each with its id or a fresh one and with its hash, the hash of its secret or that of a fresh one |
| ImportPeople.SegmentsAdded | backend/tenant/export_import.go:249-256 | segments are added as they describe themselves if and only if no name is repeated |
| ImportContacts.ContactsAdded | backend/tenant/export_import.go:258-300 | of any document's contacts the proper ones are added with their memberships, consent, times and invites and the others skipped, or the import is refused, which happens exactly if proper entries repeat an email or bring an invite token that is repeated or taken |
| ImportCampaigns.CampaignsAdded | backend/tenant/export_import.go:302-346 | any document's campaigns are added as they describe themselves, with the first of several recipients of one email, if and only if each has a valid status, repeats no known segment and, if it has a status or time, names only known recipients |
| MigrationRoundTrip.MigrationReturnsExactlyThePortable | backend/tenant/export_import.go:127-843 | export, delete and import give the tenant back, equal up to internal ids, if and only if its rows are portable |
| ImportSound.ImportKeepsSound | backend/tenant/export_import.go:127-349 | whatever the document says, a finished import keeps every constraint and joins recipients only to campaigns and contacts of the new tenant |
| ImportMeaning.AllAdded | backend/tenant/export_import.go:127-349 | any document is imported if and only if its users and clients pass their checks, no client id is taken or repeated, no segment name is repeated, no proper contact repeats an email or an invite, and every campaign is acceptable; and then the marketing data are those of the document |
| ImportMeaning.PeopleAdded | backend/tenant/export_import.go:153-245 | a finished import has added exactly the users and clients of the document and has changed no row of any table |
| MigrationRoundTrip.DocumentAdded | backend/tenant/export_import.go:127-349 | an exported document imports only if its checks pass and then describes the tenant; if its clients keep their ids, passing is enough |
| MigrationRoundTrip.Migrate | backend/tenant/export_import.go:127-349 | the three requests in a row, as the methods run them, return the tenant exactly when it is portable, and leave sound tables |
| MigrationRoundTrip.RegisteredUsersAreNotPortable | backend/tenant/export_import.go:351-374 | a tenant with one self-registered user is sound and not portable |
| MigrationRoundTrip.AttachmentsAreNotPortable | backend/marketing/store.go:275-301 | a tenant with one campaign with an attachment is sound and not portable |
| CodeGrants.StepKeepsInv | backend/iam/handlers.go:261-505 | every statement of every request, and every other operation, keeps: each recorded event follows those its handler requires, codes are stored and spent once, and a request issues once |
| CodeProvenance.EventsAreTrue | backend/iam/handlers.go:275-304 | in every run each recorded event is of one step, and the tables of that step had what it records: the client with that redirect URI, the user of that email whose hash matched the password, the unused and unexpired code, the client's secret hash, the user |
| CodeGrants.CodesAreSpentOnce | backend/iam/store.go:444-482 | over every interleaving a code is accepted at most once, only in the tenant that issued it and before it expires (RFC 6749 section 4.1.2) |
| CodeProvenance.IssuedTokensTrace | backend/iam/handlers.go:416-505 | behind every step that issues tokens there are, in this order, steps at which the client and redirect URI were registered, the user's password matched, the code was stored with that tenant, client, user, redirect URI, scope, nonce and challenge for ten minutes, the code was unused and not expired, the verifier's S256 hash was the challenge or the secret matched the client's hash, and the user was there; the request named that redirect URI and no other client; the refresh token is for that client, user and scope; and no other step issues tokens for that code (RFC 6749 section 4.1.3, RFC 7636 section 4.6) |
| IamStore.ConsumeAuthCode | backend/iam/store.go:444-482 | accepts exactly an unused, unexpired code of the tenant, marks it used, and explains a refusal correctly |
| IamStore.TokenAuthorizationCode | backend/iam/handlers.go:416-505 | tokens are issued if and only if the code is the tenant's, unused and not expired, client and redirect URI are those of the code, the S256 preimage or without a challenge the client's secret is shown, and the user exists; the code is spent even when a later check fails |
| IamStore.TokenRefreshToken | backend/iam/handlers.go:507-567 | rotates if and only if the token is the tenant's, not revoked and not expired and its user exists; the new one is for the same client, user and scope for thirty days, and the old one is revoked even if the user is gone |
| IamStore.ConsumeResetToken | backend/iam/store.go:675-699 | changes exactly the password and token of a user with this unexpired token, or nothing |
| RefreshChains.OnlyTheLastIsLive | backend/iam/store.go:486-530 | in every reachable state at most the last token of a grant's chain is live, and tenant, user, client and scope are constant along it (RFC 6749 section 6) |
| RefreshChains.RotatedOnce | backend/iam/handlers.go:507-567 | over every run, a refresh token is rotated at most once, within thirty days of the step that gave it, by its tenant, while its user exists, and only if it was not revoked in any state since; the new token is for the same client, user and scope |
| RefreshChains.RevokingEnds | backend/iam/handlers.go:646-667 | revoking the last token leaves nothing of the chain live (RFC 7009 section 2) |
| RefreshChains.EndedForGood | backend/iam/handlers.go:507-567 | a chain with nothing live never grows or revives, whatever requests follow |
| Activation.ActivatedAtMostOnce | backend/iam/store.go:536-586 | over every interleaving of lookups, transactions and other requests that neither delete the contact or its tenant nor give it another email, it is activated at most once and then linked to a user of its tenant and email |
| ActivationThreshold.SparingIsExact | backend/iam/store.go:536-586 | for any sound tables and any contact with an open invite, an operation leaves activation at most once in every run with otherwise sparing requests if and only if it does not delete the contact or its tenant and does not change its email |
| Activation.CommitsExactly | backend/iam/store.go:550-584 | the transaction goes through if and only if no user of the tenant has the email that was looked up; then it adds a user with that email and name, the hash, the role user and no reset token, links the contact, ends its invite and changes nothing else |
| ActivationTrace.ActivationsTrace | backend/iam/store.go:536-586 | behind every activation of a run there are a lookup at which the invite was open and unused, and later the transaction of the same request, which stored a user with the email and name of the lookup, its hash and the role user, linked the contact if it was still there and changed nothing else |
| Activation.OthersKeepLink | backend/main.go:374-390 | no operation that spares the contact changes its tenant, email or link or removes its user |
| Activation.EditingTheEmailBreaksIt | backend/iam/store.go:536-586 | with an edit of the email between two lookups both activations go through |
| Activation.ActivateContact | backend/iam/store.go:536-622 | by itself an activation adds a user with the contact's tenant, email and name, the hash, the role user and no reset token, links the contact and ends its invite and changes nothing else, or changes nothing and says why |
| PasswordReset.TokensAreSpentOnce | backend/iam/store.go:630-699 | over every interleaving, a step that changes a password by a reset token follows the step that gave this user the token and the lookup by the same request within the hour after; the user has had the token ever since, so no newer one replaced it; the step stores the new hash, ends the token and changes nothing else; and no other step changes a password by it |
| TokenRegistry.Registry.LoadOrCreateRSAKey | backend/iam/store.go:49-79 | returns a key of this tenant and makes one only if there is none |
| TokenRegistry.Registry.ForTenant | backend/iam/registry.go:36-74 | fills the cache once per tenant; the service always signs with a key of that tenant |
| TokenRegistry.Registry.MintForUser | backend/iam/token.go:25-81 | every token for a user is signed with a key of the tenant and has exactly the claims of the source: the user's id, email, name and role at that moment, issuer, audience, the tenant, an hour's expiry and the nonce if there is one |
| TokenRegistry.Registry.MintForClient | backend/iam/token.go:44-59 | the same for client credentials, without user claims |
| TokenRegistry.Registry.CheckAdmin | backend/iam/handlers.go:716-778 | accepts if and only if the token is signed with the key and issuer of the tenant it names, not expired, for the request's or the platform's tenant, and of a client or an admin whose user exists there; and what is accepted was minted in that tenant for a user who was an admin then, or for a client |
| TokenRegistry.Registry.CheckAdminCrossTenant | backend/iam/handlers.go:783-829 | accepts if and only if the token names a tenant, is signed with its key and issuer, not expired and of an admin whose user exists there, of the platform tenant whenever one is configured; never a client, and minted for a user who was an admin then |

## Left out

- HTTP, JSON decoding, HTML pages, CORS, security headers, MIME and SMTP: no deep property; delivery and downloads are free choices.
- bcrypt, SHA-256, RSA, the JWT library and uuids: abstract functions, ideal signatures and an injective supply of unused ids.
- The limiter's floating point rounding (reals instead) and the unsynchronised race between `cleanup` and `allow`: a sweep is one step per key.
- Concurrent first lookups in `TokenRegistry.ForTenant` and concurrent requests for one refresh token: the code does not serialise them and nothing is claimed for them.
- The order of query results: every ORDER BY is modelled as any order, which covers ties.
- Disk errors and the foreign-key pragma: statements and transactions are atomic and every connection enforces foreign keys, as `openDB` intends.
- The rest of the store methods that are one statement each: operations on tables as values in `StoreOps.Exec`, not methods on objects.
- `ImportContacts` (bulk) is a run of contact creations of which the refused ones are ignored.
- The draft checks before UpdateCampaign, DeleteCampaign and Enqueue: the check and the write are separate statements, so edits and deletions are allowed in any status, which every theorem then covers.
- Runs of the grant, refresh and reset machines start without codes and tokens, as a new installation does; those of campaigns and activations start on any sound tables.
- CampaignMeaning.StatusesAreHonest, CampaignMeaning.DoneSettles, CampaignMeaning.DoneLeavesNothingQueued: say nothing of campaigns whose status or rows came from a document, or that were more than fresh drafts at the start, because nothing in the code makes those honest; the at-most-once theorem covers them.
- Unsubscription.UnsubscribedIsNotMailed, Unsubscription.UnsubscribingStopsMail, CampaignMeaning.OnlyEligibleAreMailed: the same, since an import adds recipients without asking whether they are subscribed; a contact's id is not used again for a new contact.
- MarketingStore.GetCampaignRecipients: the status, error and time columns are dropped, since the worker does not read them, and the order by email is any order.
- TenantImporter.ImportTenantConfig: says nothing about what a refused import leaves behind, because the code promises nothing.
- TenantExport.Export: seed mode is not modelled; it drops hashes and non-draft campaigns.
- MigrationRoundTrip.MigrationReturnsExactlyThePortable: invite and unsubscribe tokens, links from contacts to users, and creation times of tenants, users, clients and segments are not part of what comes back.
- Template.Render: the mail log of the machine records no bodies.
- ImportContacts.ContactsAdded, ImportMeaning.AllAdded: invite tokens that a document brings are taken to differ from the fresh ones of the same import.
- `NewStaticTokenRegistry`, `StartSync` and `compat.go`: test scaffolding.
- E-mail and slug syntax: parameters of the import.
