# HARICA certificate-manager client, modelled in Dafny

This project models the Go client for the HARICA certificate manager portal
(`https://cm.harica.gr`). It also models the `gen-cert` command that drives it.

- **Session.** A `Client` logs in with email and password, plus a TOTP code when a seed is given. It keeps the bearer
  token and a transport configured with that token and an anti-forgery token. `prepareClient` renews the session when
  there is no transport, no token, or a token that expires within the 15-minute refresh interval.
- **Anti-forgery token.** Each login fetches the landing page twice. Each time it searches the parsed HTML depth-first
  for the hidden `__RequestVerificationToken` input.
- **Portal operations.** The domain and organization checks, the certificate request, pending reviews, review
  approval and certificate retrieval are each one authenticated POST.
- **`gen-cert`.** It creates a requester and a validator client. It checks the domains, requests the certificate,
  approves every sub-review of the validator's pending reviews of that transaction, and prints the PEM bundle. The
  first failing step ends the run.

Modules:

- `Wrappers`: Option and Result.
- `Models`: the JSON shapes the core reads.
- `Foreign`: errors, time, and the JWT, TOTP and JSON libraries, all as function values.
- `Html`: the parsed node tree.
- `Http`: transports and requests. The portal is a `Portal` object that logs every request it receives and answers
  from fixed answer functions of the log so far and the request. Every state the network can produce is a possible
  oracle, so every contract holds whatever the portal answers.
- `Helper`: `client/helper.go`.
- `Client`: `client/client.go`.
- `GenCert`: `cmd/genCert.go`.

Each state-changing method is proved equal to a specification function: `PrepareClient` to `PrepareSpec`, `Login`
and `LoginTotp` to `LoginSpec`, `ProcessHtml` to `Find`, `ApprovePlan` to `ApproveAll`, and `Issue` to `IssueSpec`.
What the source promises is then proved about those functions.

The code departs from the design it was written to in a few places, and the model follows the code:

- A page without the anti-forgery input yields the empty token and no error. There is no "token not found" error.
- The portal operations do not call `prepareClient` themselves. Only the refresh job renews the session.
- The anti-forgery token is fetched at login, twice, and never per request.
- A non-success HTTP status is not an error. The resulting reply, whatever it is, is an answer of the oracle.
- There is no "workflow mismatch" error. When no pending review carries the transaction id, `gen-cert` approves
  nothing and still fetches the certificate (`GenCert.NoMatchStillFetches`). Every review carrying the id is
  approved, not only the first.
- Renewal is strict. The design renews once the current time reaches the expiry minus 15 minutes. The code, and
  `Client.Decide`, renew only when the expiry is strictly before now plus 15 minutes.
- The session is not replaced atomically. A login stores the new token before it fetches the second anti-forgery
  token. When that fetch fails, the new token sits next to the old transport (`Client.StaleTransportAfterPartialLogin`).

## Model

| member | source | states |
|---|---|---|
| Client.TrimLeftCutsLeadingQuotes | client/client.go:145 | the result is a suffix of the input, everything cut was a `"`, and it does not start with `"` |
| Client.TrimRightCutsTrailingQuotes | client/client.go:145 | the result is a prefix of the input, everything cut was a `"`, and it does not end with `"` |
| Client.TrimQuotesShape | client/client.go:115 | trimming keeps a contiguous middle part, removes only quotes, and leaves no quote at either end |
| Client.TrimQuotesOfLiteral | client/client.go:145 | a JSON string literal of the token yields the token back |
| Client.TrimQuotesIdempotent | client/client.go:145 | trimming twice is trimming once |
| Client.Decide | client/client.go:70-93 | fails iff a stored token does not parse or has no readable expiry, with that error; logs in iff there is no token, or the expiry is readable and (no transport or expiry before now + 15 min) |
| Client.Credentials | client/client.go:107-111 | the login body has exactly the keys email, password (and token with a code), with the given values |
| Client.SubmitSpec | client/client.go:137-158 | the login POST comes first; the login goes on iff the POST succeeds and its trimmed reply parses, and otherwise stops there with the POST's or the parser's error and changes nothing; going on, the token stored is the trimmed reply and the second request is the landing-page GET with that bearer token only; the login succeeds iff that page yields a token (otherwise it fails with the scrape error), and the transport then installed carries the new bearer token, the scraped anti-forgery token and the debug flag; the transport is unchanged on any failure |
| Client.LoginWithToken | client/client.go:103-128 | the POST is sent unless code generation fails, which sends nothing and returns that error; the request sent is exactly that POST, without bearer token, with the given anti-forgery header and a JSON body of the credentials; it goes to `/api/User/Login2FA` with email, password and the generated code when there is a TOTP factor, and to `/api/User/Login` with email and password otherwise, carrying the given anti-forgery token; the login goes on iff the POST succeeds and its trimmed reply parses, otherwise failing with that error; the rest is as SubmitSpec |
| Client.LoginSpec | client/client.go:97-159 | a login first fetches the landing page without credentials (a failure there ends it with that error); once that page and the code succeed the second request is exactly the login POST: it POSTs the fields above with the anti-forgery token scraped from that page and the generated code (a generation failure ends it after the first fetch, with that error); it fetches the page again, with the new bearer token only, iff the POST succeeds and its trimmed reply parses, and otherwise fails with the POST's or the parser's error; state unchanged unless all three were sent; the token stored is the trimmed POST reply; success iff the second fetch yields a token (otherwise the scrape error), and the transport installed carries both tokens |
| Client.PrepareSpec | client/client.go:70-95 | a login is performed iff Decide says so, with the TOTP login iff the seed is non-empty; otherwise state and log are unchanged, with the token's error on failure; success leaves a transport |
| Client.PrepareTwiceIsPrepareOnce | client/client.go:83-94 | right after a successful prepare, a second one at the same time is a no-op when the new token lasts a refresh interval |
| Client.StaleTransportAfterPartialLogin | client/client.go:120-125 | a login that stores a new token and then fails on the second page fetch keeps the old transport, and later prepares keep it while the new token is fresh |
| Client.UnreadableExpiryBlocksRenewal | client/client.go:79-82 | a stored token without a readable expiry makes every prepare fail with that error and send nothing |
| Client.DomainDtos | client/client.go:214-217 | one `{domain}` record per name, same length and order |
| Client.BuildDomainDtos | client/client.go:214-217 | the append loop builds exactly DomainDtos |
| Client.Client.constructor | client/client.go:37 | a new client has no transport, scheduler or token, and debug off |
| Client.Client.ApplyOptions | client/client.go:38-40 | options apply in order; the last `WithDebug` sets the debug flag |
| Client.Client.Submit | client/client.go:137-158 | the shared tail of both logins behaves as SubmitSpec |
| Client.Client.LoginTotp | client/client.go:97-129 | behaves as LoginSpec with the TOTP factor at `now` |
| Client.Client.Login | client/client.go:131-159 | behaves as LoginSpec without a second factor |
| Client.Client.PrepareClient | client/client.go:70-95 | behaves as PrepareSpec |
| Client.Client.RefreshTick | client/client.go:49-55 | one run of the refresh job is a prepare with the captured credentials; its error is dropped |
| Client.Client.CheckMatchingOrganization | client/client.go:184-198 | one POST to `CheckMachingOrganization` with one record per domain, or `null` for no domains; the result is the portal's answer |
| Client.Client.GetCertificate | client/client.go:200-211 | one POST with body `{"id": id}`; the result is the portal's answer |
| Client.Client.CheckDomainNames | client/client.go:213-228 | one POST with one record per domain, in order, and the session's credentials; the result is the portal's answer |
| Client.Client.RequestCertificate | client/client.go:230-251 | one multipart POST with exactly the seven fields: the serialised checked domains twice, the CSR and transaction type verbatim, `isManualCsr` and `consentSameKey` true, duration 1 |
| Client.Client.GetPendingReviews | client/client.go:253-268 | one POST of the query (start 0, status Pending, no filters); the result is the portal's answer |
| Client.Client.ApproveRequest | client/client.go:270-285 | one multipart POST with exactly reviewId, isValid, informApplicant, reviewMessage, reviewValue; the error is the portal's answer |
| Client.NewClient | client/client.go:36-62 | construction is a prepare from the empty state with the last debug option; it fails iff that prepare fails or the scheduler cannot be set up; a client is returned with a transport and the refresh job |
| Helper.FirstSupplied | client/helper.go:21-48 | empty iff no node supplies a token; otherwise the value of the first supplying node |
| Helper.FirstSuppliedAppend | client/helper.go:42-47 | searching a concatenation searches the second part only when the first supplies nothing |
| Helper.FindIsFirstInPreOrder | client/helper.go:23-48 | the search returns the value of the first node, in pre-order over the nodes it examines, that is a token input with a non-empty first value |
| Helper.FindInIsFirstInPreOrder | client/helper.go:42-47 | the same for a list of sibling subtrees |
| Helper.FirstValueAt | client/helper.go:30-35 | the value taken is that of the first attribute with key `value` |
| Helper.NoValueAttribute | client/helper.go:28-39 | an input without a value attribute supplies nothing |
| Helper.ProcessHtml | client/helper.go:23-48 | the recursive walk with early returns yields the found token if one is already set, and otherwise exactly Find |
| Helper.VerificationTokenOf | client/helper.go:10-51 | a failed fetch or parse is returned as that error; otherwise the token is the first supplying node's value in pre-order over the examined nodes, `""` without error when none supplies one |
| Helper.GetVerificationToken | client/helper.go:10-52 | one GET of the landing page through the given transport, then the search |
| GenCert.PlanLength | cmd/genCert.go:58-68 | the sub-reviews approved are as many as the matching reviews have in total |
| GenCert.PlanAppend | cmd/genCert.go:58-68 | planning a concatenation of review lists plans each part, in order |
| GenCert.PlanMembers | cmd/genCert.go:58-68 | a sub-review is approved iff it belongs to a review with the requested transaction id |
| GenCert.PlanEmpty | cmd/genCert.go:58-68 | nothing is approved iff every matching review has no sub-reviews |
| GenCert.ApprovalRequests | cmd/genCert.go:60-61 | one approval request per sub-review, as many requests as sub-reviews |
| GenCert.ApprovalRequestAt | cmd/genCert.go:60-61 | the k-th approval request is the one for the k-th sub-review |
| GenCert.ApproveAll | cmd/genCert.go:58-68 | approvals add at most one request per sub-review, all of them when none fails, and at least one when one fails |
| GenCert.ApproveAllIssuesPrefix | cmd/genCert.go:58-68 | the approvals sent are those of a prefix of the plan, in order |
| GenCert.ApproveAllReportsLastAnswer | cmd/genCert.go:61-65 | the error reported is the portal's answer to the last approval sent |
| GenCert.ApproveAllEarlierSucceeded | cmd/genCert.go:61-65 | every approval before the last one sent succeeded (all when there is no error) |
| GenCert.ApproveAndFetch | cmd/genCert.go:58-74 | the run stops at the approvals iff ApproveAll reports a refusal, with the approvals' log and that refusal as its error; otherwise all approvals are sent, then the certificate fetch for the transaction; the PEM bundle is printed iff the fetch succeeds, and a failed fetch exits with the fetch error |
| GenCert.IssueSpec | cmd/genCert.go:41-74 | each step runs iff the previous one succeeded, in the order domain check, certificate request, pending reviews, approvals, fetch; a failing step ends the log with its own request and reports its error; the certificate is requested with the checked domains and fetched for the returned transaction id |
| GenCert.NoMatchStillFetches | cmd/genCert.go:58-69 | when no pending review carries the transaction id, nothing is approved and the fourth request is the certificate fetch |
| GenCert.ApprovalCount | cmd/genCert.go:58-68 | a run past the approvals sent four requests plus the total sub-review count of the matching reviews |
| GenCert.ApprovalsTargetTheTransaction | cmd/genCert.go:59-61 | every approval sent names a sub-review of a review with the requested transaction id, with its value |
| GenCert.ApprovePlan | cmd/genCert.go:58-68 | the nested approval loop with its early exit behaves as ApproveAll over the plan |
| GenCert.Issue | cmd/genCert.go:41-74 | the steps after client creation behave as IssueSpec |
| GenCert.Run | cmd/genCert.go:28-75 | the requester is created first; creation fails iff its login or its scheduler fails, and the run then exits with that error and only that login traffic; then the validator, likewise; then the issuance, from the log after both logins, behaves as IssueSpec |

## Left out

- HTTP transport: resty, TLS, cookies, headers other than Authorization and RequestVerificationToken (such as
  Content-Type), status codes and response decoding. Each reply is an answer of the portal oracle, already decoded.
- HTML parsing: the parser's result is part of the page answer, either a node tree or a parse error.
- JWT parsing, TOTP generation and JSON serialisation are abstract functions. The serialisation error that
  `RequestCertificate` discards is not modelled.
- A token whose claims carry no expiry makes the JWT library return neither an expiry nor an error, and
  `prepareClient` then dereferences a nil time. Claims in the model always have an expiry, an error, or a parse failure.
- The agreement between the expiry a token encodes and the expiry the JWT library reads back is a property of that
  library. It is not modelled.
- Time: each operation reads one `now`. `loginTotp` reads the clock again, which the model folds into the same instant.
- Scheduler: creating and starting the gocron scheduler is the `Scheduling` parameter of `NewClient`. The periodic job
  is `RefreshTick`, one run at a time. Concurrency between the job and requests is not modelled.
- Client.Client.RefreshTick: the logged error is dropped, as the job does, and logging is not modelled.
- `Shutdown`, `GetRevocationReasons` and `GetDomainValidations` are not part of this model. They are not used by the
  issuance workflow.
- `gen-cert`: flag parsing, required-flag checks, logging, `os.Exit` and `fmt.Print` become the `Flags` value and
  the `RunOutcome` result.
- The root `client.go` is not part of this model.
- Response models keep only the fields the core reads.
