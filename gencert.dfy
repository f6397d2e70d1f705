/**
 * The `gen-cert` command (cmd/genCert.go): create a requester and a validator
 * client, check the domains, request the certificate, list the validator's
 * pending reviews, approve every sub-review of the reviews whose transaction
 * id equals the requested one, and fetch the certificate. Every failing step
 * ends the run (the command logs and exits with status 1).
 */
module GenCert {
  import opened Wrappers
  import opened Foreign
  import opened Models
  import opened Http
  import opened Client

  const ApprovalMessage := "Auto Approval"

  /** The command's flag variables. */
  datatype Flags = Flags(domains: seq<string>, csr: string, transactionType: string,
                         requesterEmail: string, requesterPassword: string, requesterTotpSeed: string,
                         validatorEmail: string, validatorPassword: string, validatorTotpSeed: string,
                         debug: bool)

  datatype Step = CreateRequester | CreateValidator | CheckDomains | RequestCert | ListReviews | Approve | FetchCert

  /** The run prints the PEM bundle, or exits with status 1 after the step that failed. */
  datatype RunOutcome = Printed(pem: string) | Exited(step: Step, error: Error)

  function StepIndex(s: Step): nat {
    match s
    case CreateRequester => 0
    case CreateValidator => 1
    case CheckDomains => 2
    case RequestCert => 3
    case ListReviews => 4
    case Approve => 5
    case FetchCert => 6
  }

  /** The run got past step `s`. */
  predicate Passed(out: RunOutcome, s: Step) {
    out.Printed? || StepIndex(out.step) > StepIndex(s)
  }

  // ---------------------------------------------------------------------------
  // Which sub-reviews are approved

  /** The sub-reviews of every review whose transaction id is `txId`, in list order. */
  function Plan(reviews: seq<ReviewResponse>, txId: string): seq<ReviewGetDto> {
    if reviews == [] then []
    else (if reviews[0].transactionId == txId then reviews[0].reviewGetDtos else []) + Plan(reviews[1..], txId)
  }

  /** The summed number of sub-reviews of the matching reviews. */
  function MatchingTotal(reviews: seq<ReviewResponse>, txId: string): nat {
    if reviews == [] then 0
    else (if reviews[0].transactionId == txId then |reviews[0].reviewGetDtos| else 0) + MatchingTotal(reviews[1..], txId)
  }

  lemma {:induction false} PlanLength(reviews: seq<ReviewResponse>, txId: string)
    ensures |Plan(reviews, txId)| == MatchingTotal(reviews, txId)
  {
    if reviews != [] {
      PlanLength(reviews[1..], txId);
    }
  }

  /** Planning a concatenation plans each part, in order. */
  lemma {:induction false} PlanAppend(a: seq<ReviewResponse>, b: seq<ReviewResponse>, txId: string)
    ensures Plan(a + b, txId) == Plan(a, txId) + Plan(b, txId)
  {
    if a == [] {
      assert a + b == b;
    } else {
      assert (a + b)[1..] == a[1..] + b;
      PlanAppend(a[1..], b, txId);
    }
  }

  /** A sub-review is planned iff it belongs to a review of the transaction. */
  lemma {:induction false} PlanMembers(reviews: seq<ReviewResponse>, txId: string, s: ReviewGetDto)
    ensures s in Plan(reviews, txId) <==>
      exists i :: 0 <= i < |reviews| && reviews[i].transactionId == txId && s in reviews[i].reviewGetDtos
  {
    if reviews != [] {
      PlanMembers(reviews[1..], txId, s);
      assert forall i :: 1 <= i < |reviews| ==> reviews[i] == reviews[1..][i - 1];
      if s in Plan(reviews[1..], txId) {
        var i :| 0 <= i < |reviews[1..]| && reviews[1..][i].transactionId == txId && s in reviews[1..][i].reviewGetDtos;
        assert reviews[i + 1] == reviews[1..][i];
      }
    }
  }

  /** Nothing is planned iff every review of the transaction has no sub-reviews (in particular, when none matches). */
  lemma {:induction false} PlanEmpty(reviews: seq<ReviewResponse>, txId: string)
    ensures Plan(reviews, txId) == [] <==>
      forall i :: 0 <= i < |reviews| && reviews[i].transactionId == txId ==> reviews[i].reviewGetDtos == []
  {
    if reviews != [] {
      PlanEmpty(reviews[1..], txId);
      assert forall i :: 1 <= i < |reviews| ==> reviews[i] == reviews[1..][i - 1];
    }
  }

  // ---------------------------------------------------------------------------
  // Issuing the approvals

  function ApprovalRequest(vt: Transport, s: ReviewGetDto): Request {
    ApproveRequestRequest(vt, s.reviewId, ApprovalMessage, s.reviewValue)
  }

  /** One approval request per sub-review, in order. */
  function ApprovalRequests(vt: Transport, subs: seq<ReviewGetDto>): (reqs: seq<Request>)
    ensures |reqs| == |subs|
  {
    if subs == [] then [] else [ApprovalRequest(vt, subs[0])] + ApprovalRequests(vt, subs[1..])
  }

  /** The `k`-th approval request is that of the `k`-th sub-review. */
  lemma {:induction false} ApprovalRequestAt(vt: Transport, subs: seq<ReviewGetDto>, k: int)
    requires 0 <= k < |subs|
    ensures ApprovalRequests(vt, subs)[k] == ApprovalRequest(vt, subs[k])
  {
    if k > 0 {
      ApprovalRequestAt(vt, subs[1..], k - 1);
    }
  }

  /** The portal's log after the approvals, and the error that stopped them. */
  datatype ApprovalRun = ApprovalRun(log: Log, err: Option<Error>)

  /**
   * Approving `subs` one at a time, stopping at the first failure: at most
   * one request per sub-review, one for each exactly when nothing failed.
   */
  function ApproveAll(o: Oracle, log: Log, vt: Transport, subs: seq<ReviewGetDto>): (r: ApprovalRun)
    ensures log <= r.log
    ensures |r.log| <= |log| + |subs|
    ensures r.err.None? ==> |r.log| == |log| + |subs|
    ensures r.err.Some? ==> |r.log| > |log|
    decreases |subs|
  {
    if subs == [] then ApprovalRun(log, None)
    else
      var req := ApprovalRequest(vt, subs[0]);
      match o.approval(log, req)
      case Some(e) => ApprovalRun(log + [req], Some(e))
      case None =>
        var rest := ApproveAll(o, log + [req], vt, subs[1..]);
        ApprovalRun(rest.log, rest.err)
  }

  /** The requests the approvals issue are those of a prefix of `subs`, in order. */
  lemma {:induction false} ApproveAllIssuesPrefix(o: Oracle, log: Log, vt: Transport, subs: seq<ReviewGetDto>)
    ensures var r := ApproveAll(o, log, vt, subs);
      r.log == log + ApprovalRequests(vt, subs[..|r.log| - |log|])
    decreases |subs|
  {
    if subs != [] {
      var req := ApprovalRequest(vt, subs[0]);
      var r := ApproveAll(o, log, vt, subs);
      if o.approval(log, req).Some? {
        assert r.log == log + [req];
        assert subs[..1] == [subs[0]];
        assert ApprovalRequests(vt, [subs[0]]) == [req];
      } else {
        var rest := ApproveAll(o, log + [req], vt, subs[1..]);
        assert r.log == rest.log;
        ApproveAllIssuesPrefix(o, log + [req], vt, subs[1..]);
        var n := |rest.log| - |log + [req]|;
        var p := subs[..n + 1];
        assert p[0] == subs[0] && p[1..] == subs[1..][..n];
        assert ApprovalRequests(vt, p) == [req] + ApprovalRequests(vt, subs[1..][..n]);
        assert r.log == log + ApprovalRequests(vt, p);
      }
    }
  }

  /** The error the approvals report is the portal's answer to the last approval issued. */
  lemma {:induction false} ApproveAllReportsLastAnswer(o: Oracle, log: Log, vt: Transport, subs: seq<ReviewGetDto>)
    requires ApproveAll(o, log, vt, subs).err.Some?
    ensures var r := ApproveAll(o, log, vt, subs);
      r.err == o.approval(r.log[..|r.log| - 1], r.log[|r.log| - 1])
    decreases |subs|
  {
    var req := ApprovalRequest(vt, subs[0]);
    if o.approval(log, req).None? {
      ApproveAllReportsLastAnswer(o, log + [req], vt, subs[1..]);
    }
  }

  /**
   * Every approval before the last one issued succeeded (all of them when no
   * error is reported): the approvals stop at the first one the portal refuses.
   */
  lemma {:induction false} ApproveAllEarlierSucceeded(o: Oracle, log: Log, vt: Transport, subs: seq<ReviewGetDto>, k: int)
    requires var r := ApproveAll(o, log, vt, subs);
      |log| <= k < |r.log| && (r.err.None? || k < |r.log| - 1)
    ensures var r := ApproveAll(o, log, vt, subs);
      o.approval(r.log[..k], r.log[k]).None?
    decreases |subs|
  {
    var req := ApprovalRequest(vt, subs[0]);
    var r := ApproveAll(o, log, vt, subs);
    if o.approval(log, req).None? {
      if k == |log| {
        assert r.log[..k] == log;
      } else {
        ApproveAllEarlierSucceeded(o, log + [req], vt, subs[1..], k);
      }
    }
  }

  // ---------------------------------------------------------------------------
  // The whole issuance

  /** What the issuance did: the log, the outcome, and the values the steps returned. */
  datatype IssueRun = IssueRun(log: Log, out: RunOutcome, checked: seq<DomainResponse>, txId: string,
                               reviews: seq<ReviewResponse>)

  /** Approving the plan and, if every approval succeeds, fetching the certificate. */
  function ApproveAndFetch(o: Oracle, log: Log, rt: Transport, vt: Transport, plan: seq<ReviewGetDto>,
                           txId: string): (r: (Log, RunOutcome))
    ensures r.1.Exited? ==> r.1.step in {Approve, FetchCert}
    ensures !Passed(r.1, Approve) ==>
      |log| < |r.0| <= |log| + |plan| && r.0 == log + ApprovalRequests(vt, plan[..|r.0| - |log|])
    // the run stops at the approvals iff one was refused, with the approvals' log and that refusal
    ensures !Passed(r.1, Approve) <==> ApproveAll(o, log, vt, plan).err.Some?
    ensures !Passed(r.1, Approve) ==>
      r.0 == ApproveAll(o, log, vt, plan).log && Some(r.1.error) == ApproveAll(o, log, vt, plan).err
    ensures Passed(r.1, Approve) ==>
      r.0 == log + ApprovalRequests(vt, plan) + [GetCertificateRequest(rt, txId)] &&
      var fetched := o.certificate(log + ApprovalRequests(vt, plan), GetCertificateRequest(rt, txId));
      (r.1.Printed? <==> fetched.Ok?) && (r.1.Printed? ==> r.1.pem == fetched.value.pemBundle) &&
      (r.1.Exited? ==> r.1.step == FetchCert && r.1.error == fetched.error)
  {
    var approvals := ApproveAll(o, log, vt, plan);
    ApproveAllIssuesPrefix(o, log, vt, plan);
    if approvals.err.Some? then (approvals.log, Exited(Approve, approvals.err.value))
    else
      assert plan[..|plan|] == plan;
      var fetch := GetCertificateRequest(rt, txId);
      match o.certificate(approvals.log, fetch)
      case Err(e) => (approvals.log + [fetch], Exited(FetchCert, e))
      case Ok(cert) => (approvals.log + [fetch], Printed(cert.pemBundle))
  }

  /**
   * The issuance as the command runs it once both clients exist; `rt` and `vt`
   * are the requester's and the validator's transports.
   */
  function IssueSpec(o: Oracle, log: Log, rt: Transport, vt: Transport, domains: seq<string>, csr: string,
                     transactionType: string, lib: Libraries): (r: IssueRun)
    ensures r.out.Exited? ==> StepIndex(r.out.step) >= StepIndex(CheckDomains)
    // 1. the domain check, with the command's domains
    ensures var c1 := CheckDomainNamesRequest(rt, domains);
      (Passed(r.out, CheckDomains) <==> o.domains(log, c1).Ok?) &&
      (!Passed(r.out, CheckDomains) ==> r.log == log + [c1] && r.out.error == o.domains(log, c1).error) &&
      (Passed(r.out, CheckDomains) ==> r.checked == o.domains(log, c1).value)
    // 2. the certificate request, with the checked domains unchanged
    ensures Passed(r.out, CheckDomains) ==>
      var pre := log + [CheckDomainNamesRequest(rt, domains)];
      var c2 := RequestCertificateRequest(rt, lib.marshal(r.checked), csr, transactionType);
      (Passed(r.out, RequestCert) <==> o.requested(pre, c2).Ok?) &&
      (!Passed(r.out, RequestCert) ==> r.log == pre + [c2] && r.out.error == o.requested(pre, c2).error) &&
      (Passed(r.out, RequestCert) ==> r.txId == o.requested(pre, c2).value.transactionId)
    // 3. the validator's pending reviews
    ensures Passed(r.out, RequestCert) ==>
      var pre := log + [CheckDomainNamesRequest(rt, domains),
                        RequestCertificateRequest(rt, lib.marshal(r.checked), csr, transactionType)];
      var c3 := PendingReviewsRequest(vt);
      (Passed(r.out, ListReviews) <==> o.reviews(pre, c3).Ok?) &&
      (!Passed(r.out, ListReviews) ==> r.log == pre + [c3] && r.out.error == o.reviews(pre, c3).error) &&
      (Passed(r.out, ListReviews) ==> r.reviews == o.reviews(pre, c3).value)
    // 4. the approvals of the matching sub-reviews, then 5. the certificate of the same transaction
    ensures Passed(r.out, ListReviews) ==>
      var pre := log + [CheckDomainNamesRequest(rt, domains),
                        RequestCertificateRequest(rt, lib.marshal(r.checked), csr, transactionType),
                        PendingReviewsRequest(vt)];
      (r.log, r.out) == ApproveAndFetch(o, pre, rt, vt, Plan(r.reviews, r.txId), r.txId)
  {
    var c1 := CheckDomainNamesRequest(rt, domains);
    var log1 := log + [c1];
    match o.domains(log, c1)
    case Err(e) => IssueRun(log1, Exited(CheckDomains, e), [], "", [])
    case Ok(checked) =>
      var c2 := RequestCertificateRequest(rt, lib.marshal(checked), csr, transactionType);
      var log2 := log1 + [c2];
      match o.requested(log1, c2)
      case Err(e) => IssueRun(log2, Exited(RequestCert, e), checked, "", [])
      case Ok(transaction) =>
        var txId := transaction.transactionId;
        var c3 := PendingReviewsRequest(vt);
        var log3 := log2 + [c3];
        assert log2 == log + [c1, c2];
        assert log3 == log + [c1, c2, c3];
        match o.reviews(log2, c3)
        case Err(e) => IssueRun(log3, Exited(ListReviews, e), checked, txId, [])
        case Ok(reviews) =>
          var (log5, out) := ApproveAndFetch(o, log3, rt, vt, Plan(reviews, txId), txId);
          IssueRun(log5, out, checked, txId, reviews)
  }

  /**
   * When no pending review carries the requested transaction id, no approval
   * is sent and the run still fetches the certificate: four requests in all.
   */
  lemma NoMatchStillFetches(o: Oracle, log: Log, rt: Transport, vt: Transport, domains: seq<string>, csr: string,
                            transactionType: string, lib: Libraries)
    requires var r := IssueSpec(o, log, rt, vt, domains, csr, transactionType, lib);
      Passed(r.out, ListReviews) && forall i :: 0 <= i < |r.reviews| ==> r.reviews[i].transactionId != r.txId
    ensures var r := IssueSpec(o, log, rt, vt, domains, csr, transactionType, lib);
      Passed(r.out, Approve) && |r.log| == |log| + 4 && r.log[|log| + 3] == GetCertificateRequest(rt, r.txId)
  {
    var r := IssueSpec(o, log, rt, vt, domains, csr, transactionType, lib);
    PlanEmpty(r.reviews, r.txId);
  }

  /**
   * A run that gets past the approvals sent exactly one approval per sub-review
   * of the matching reviews: the summed sub-review counts, plus four other requests.
   */
  lemma ApprovalCount(o: Oracle, log: Log, rt: Transport, vt: Transport, domains: seq<string>, csr: string,
                      transactionType: string, lib: Libraries)
    requires Passed(IssueSpec(o, log, rt, vt, domains, csr, transactionType, lib).out, Approve)
    ensures var r := IssueSpec(o, log, rt, vt, domains, csr, transactionType, lib);
      |r.log| == |log| + 4 + MatchingTotal(r.reviews, r.txId)
  {
    var r := IssueSpec(o, log, rt, vt, domains, csr, transactionType, lib);
    PlanLength(r.reviews, r.txId);
  }

  /**
   * Every approval the run sends names a sub-review of a review with the
   * requested transaction id, with the fixed message and that sub-review's value.
   */
  lemma ApprovalsTargetTheTransaction(o: Oracle, log: Log, rt: Transport, vt: Transport, domains: seq<string>,
                                      csr: string, transactionType: string, lib: Libraries, k: nat)
    requires var r := IssueSpec(o, log, rt, vt, domains, csr, transactionType, lib);
      Passed(r.out, ListReviews) && |log| + 3 <= k < |r.log| && (k < |r.log| - 1 || !Passed(r.out, Approve))
    ensures var r := IssueSpec(o, log, rt, vt, domains, csr, transactionType, lib);
      exists i, j :: 0 <= i < |r.reviews| && r.reviews[i].transactionId == r.txId && 0 <= j < |r.reviews[i].reviewGetDtos| &&
        r.log[k] == ApproveRequestRequest(vt, r.reviews[i].reviewGetDtos[j].reviewId, "Auto Approval",
                                          r.reviews[i].reviewGetDtos[j].reviewValue)
  {
    var r := IssueSpec(o, log, rt, vt, domains, csr, transactionType, lib);
    var plan := Plan(r.reviews, r.txId);
    var pre := log + [CheckDomainNamesRequest(rt, domains),
                      RequestCertificateRequest(rt, lib.marshal(r.checked), csr, transactionType),
                      PendingReviewsRequest(vt)];
    var m := k - |pre|;
    assert 0 <= m < |plan|;
    if Passed(r.out, Approve) {
      assert r.log[k] == ApprovalRequests(vt, plan)[m];
      ApprovalRequestAt(vt, plan, m);
    } else {
      assert r.log[k] == ApprovalRequests(vt, plan[..|r.log| - |pre|])[m];
      ApprovalRequestAt(vt, plan[..|r.log| - |pre|], m);
      assert plan[..|r.log| - |pre|][m] == plan[m];
    }
    PlanMembers(r.reviews, r.txId, plan[m]);
    var i :| 0 <= i < |r.reviews| && r.reviews[i].transactionId == r.txId && plan[m] in r.reviews[i].reviewGetDtos;
    var j :| 0 <= j < |r.reviews[i].reviewGetDtos| && r.reviews[i].reviewGetDtos[j] == plan[m];
  }

  /**
   * The approval loop of the command: for every pending review of the
   * transaction, approve each of its sub-reviews, stopping at the first error.
   */
  method ApprovePlan(validator: Client, reviews: seq<ReviewResponse>, txId: string, portal: Portal)
    returns (err: Option<Error>)
    requires validator.client.Some?
    modifies portal
    ensures ApprovalRun(portal.log, err) ==
            ApproveAll(portal.answers, old(portal.log), validator.client.value, Plan(reviews, txId))
  {
    ghost var o, vt := portal.answers, validator.client.value;
    ghost var goal := ApproveAll(o, portal.log, vt, Plan(reviews, txId));
    assert reviews[0..] == reviews;
    for i := 0 to |reviews|
      invariant goal == ApproveAll(o, portal.log, vt, Plan(reviews[i..], txId))
    {
      var r := reviews[i];
      assert reviews[i..][1..] == reviews[i + 1..];
      assert Plan(reviews[i..], txId) ==
             (if r.transactionId == txId then r.reviewGetDtos else []) + Plan(reviews[i + 1..], txId);
      if r.transactionId == txId {
        ghost var rest := Plan(reviews[i + 1..], txId);
        assert r.reviewGetDtos[0..] == r.reviewGetDtos;
        for j := 0 to |r.reviewGetDtos|
          invariant goal == ApproveAll(o, portal.log, vt, r.reviewGetDtos[j..] + rest)
        {
          var s := r.reviewGetDtos[j];
          ghost var before := portal.log;
          assert (r.reviewGetDtos[j..] + rest)[0] == s;
          assert (r.reviewGetDtos[j..] + rest)[1..] == r.reviewGetDtos[j + 1..] + rest;
          err := validator.ApproveRequest(s.reviewId, ApprovalMessage, s.reviewValue, portal);
          assert portal.log == before + [ApprovalRequest(vt, s)];
          if err.Some? {
            return;
          }
        }
        assert r.reviewGetDtos[|r.reviewGetDtos|..] + rest == rest;
      } else {
        assert [] + Plan(reviews[i + 1..], txId) == Plan(reviews[i + 1..], txId);
      }
    }
    err := None;
  }

  /** The steps after both clients exist: the body of the command from the domain check on. */
  method Issue(requester: Client, validator: Client, domains: seq<string>, csr: string, transactionType: string,
               lib: Libraries, portal: Portal) returns (out: RunOutcome)
    requires requester.client.Some? && validator.client.Some?
    modifies portal
    ensures var r := IssueSpec(portal.answers, old(portal.log), requester.client.value, validator.client.value,
                               domains, csr, transactionType, lib);
      portal.log == r.log && out == r.out
  {
    var d := requester.CheckDomainNames(domains, portal);
    if d.Err? {
      return Exited(CheckDomains, d.error);
    }
    var transaction := requester.RequestCertificate(d.value, csr, transactionType, lib, portal);
    if transaction.Err? {
      return Exited(RequestCert, transaction.error);
    }
    var reviews := validator.GetPendingReviews(portal);
    if reviews.Err? {
      return Exited(ListReviews, reviews.error);
    }
    var txId := transaction.value.transactionId;
    var err := ApprovePlan(validator, reviews.value, txId, portal);
    if err.Some? {
      return Exited(Approve, err.value);
    }
    var cert := requester.GetCertificate(txId, portal);
    if cert.Err? {
      return Exited(FetchCert, cert.error);
    }
    return Printed(cert.value.pemBundle);
  }

  /** The client state of a client whose only option is `WithDebug(debug)`, before its first login. */
  function Initial(debug: bool): ClientState {
    ClientState(None, "", debug)
  }

  /**
   * The `Run` closure of the command: create the requester, then the
   * validator, then issue. `requester`, `validator` and `created` name the
   * clients and the log at the point where both exist.
   */
  method Run(flags: Flags, now: Time, lib: Libraries, requesterScheduling: Scheduling,
             validatorScheduling: Scheduling, portal: Portal)
    returns (out: RunOutcome, ghost requester: Client?, ghost validator: Client?, ghost created: Log)
    modifies portal
    ensures var e1 := PrepareSpec(portal.answers, lib, Initial(flags.debug), old(portal.log), flags.requesterEmail,
                                  flags.requesterPassword, flags.requesterTotpSeed, now);
      (requester == null <==> (e1.err.Some? || !requesterScheduling.Started?)) &&
      (requester == null ==> validator == null && portal.log == e1.log && out.Exited? && out.step == CreateRequester &&
                             (e1.err.Some? ==> out.error == e1.err.value) &&
                             (e1.err.None? ==> !requesterScheduling.Started? && out.error == requesterScheduling.error)) &&
      (requester != null ==> (
        requester.Snapshot() == e1.state &&
        var e2 := PrepareSpec(portal.answers, lib, Initial(flags.debug), e1.log, flags.validatorEmail,
                              flags.validatorPassword, flags.validatorTotpSeed, now);
        (validator == null <==> (e2.err.Some? || !validatorScheduling.Started?)) &&
        (validator == null ==> portal.log == e2.log && out.Exited? && out.step == CreateValidator &&
                               (e2.err.Some? ==> out.error == e2.err.value) &&
                               (e2.err.None? ==> !validatorScheduling.Started? && out.error == validatorScheduling.error)) &&
        (validator != null ==> validator.Snapshot() == e2.state && created == e2.log)))
    ensures requester != null && validator != null ==>
      requester.client.Some? && validator.client.Some? &&
      var r := IssueSpec(portal.answers, created, requester.client.value, validator.client.value,
                         flags.domains, flags.csr, flags.transactionType, lib);
      portal.log == r.log && out == r.out
  {
    var r, err := NewClient(flags.requesterEmail, flags.requesterPassword, flags.requesterTotpSeed,
                            [WithDebug(flags.debug)], now, lib, requesterScheduling, portal);
    if err.Some? {
      return Exited(CreateRequester, err.value), null, null, portal.log;
    }
    var v, err' := NewClient(flags.validatorEmail, flags.validatorPassword, flags.validatorTotpSeed,
                             [WithDebug(flags.debug)], now, lib, validatorScheduling, portal);
    if err'.Some? {
      return Exited(CreateValidator, err'.value), r, null, portal.log;
    }
    created := portal.log;
    out := Issue(r, v, flags.domains, flags.csr, flags.transactionType, lib, portal);
    requester, validator := r, v;
  }
}
