/**
 * The HTTP side of the client: what a resty client carries into every request,
 * the requests themselves, and the portal that answers them. The portal is
 * modelled as a log of the requests it received and an oracle that answers
 * each request as a function of the requests before it, so any deterministic
 * server behaviour (including failures) is covered.
 */
module Http {
  import opened Wrappers
  import opened Foreign
  import opened Models
  import Html

  const BaseURL := "https://cm.harica.gr"

  datatype Verb = Get | Post

  /** The client-level headers a resty client adds to each request, and its debug flag. */
  datatype Transport = Transport(authorization: Option<string>, verificationToken: Option<string>, debug: bool)

  /** `resty.New()`: no headers, no debugging. */
  const Fresh := Transport(None, None, false)

  datatype Body =
    | NoBody
    | JsonFields(fields: map<string, string>)
    | JsonDomains(items: seq<Domain>)
    | JsonNull                                  // a nil Go slice serialises as `null`
    | JsonReviewQuery(query: ReviewRequest)
    | Multipart(form: map<string, string>)

  /** A request as it leaves the client, with the two headers that carry credentials. */
  datatype Request = Request(verb: Verb, url: string, authorization: Option<string>,
                             verificationToken: Option<string>, body: Body)

  /** Landing page fetch: the GET failed, the markup did not parse, or the parsed tree. */
  datatype Page = GetFailed(error: Error) | ParseFailed(error: Error) | Parsed(doc: Html.Node)

  type Log = seq<Request>

  /** The portal's answer to each kind of request, given the requests it has already seen. */
  datatype Oracle = Oracle(
    page: (Log, Request) -> Page,
    login: (Log, Request) -> Fallible<string>,
    domains: (Log, Request) -> Fallible<seq<DomainResponse>>,
    organizations: (Log, Request) -> Fallible<seq<OrganizationResponse>>,
    requested: (Log, Request) -> Fallible<CertificateRequestResponse>,
    reviews: (Log, Request) -> Fallible<seq<ReviewResponse>>,
    certificate: (Log, Request) -> Fallible<CertificateResponse>,
    approval: (Log, Request) -> Option<Error>)

  class Portal {
    const answers: Oracle
    var log: Log

    constructor (answers: Oracle)
      ensures this.answers == answers && log == []
    {
      this.answers := answers;
      log := [];
    }

    method GetPage(req: Request) returns (p: Page)
      modifies this
      ensures log == old(log) + [req] && p == answers.page(old(log), req)
    {
      p := answers.page(log, req);
      log := log + [req];
    }

    method PostText(req: Request) returns (r: Fallible<string>)
      modifies this
      ensures log == old(log) + [req] && r == answers.login(old(log), req)
    {
      r := answers.login(log, req);
      log := log + [req];
    }

    method PostDomains(req: Request) returns (r: Fallible<seq<DomainResponse>>)
      modifies this
      ensures log == old(log) + [req] && r == answers.domains(old(log), req)
    {
      r := answers.domains(log, req);
      log := log + [req];
    }

    method PostOrganizations(req: Request) returns (r: Fallible<seq<OrganizationResponse>>)
      modifies this
      ensures log == old(log) + [req] && r == answers.organizations(old(log), req)
    {
      r := answers.organizations(log, req);
      log := log + [req];
    }

    method PostRequested(req: Request) returns (r: Fallible<CertificateRequestResponse>)
      modifies this
      ensures log == old(log) + [req] && r == answers.requested(old(log), req)
    {
      r := answers.requested(log, req);
      log := log + [req];
    }

    method PostReviews(req: Request) returns (r: Fallible<seq<ReviewResponse>>)
      modifies this
      ensures log == old(log) + [req] && r == answers.reviews(old(log), req)
    {
      r := answers.reviews(log, req);
      log := log + [req];
    }

    method PostCertificate(req: Request) returns (r: Fallible<CertificateResponse>)
      modifies this
      ensures log == old(log) + [req] && r == answers.certificate(old(log), req)
    {
      r := answers.certificate(log, req);
      log := log + [req];
    }

    method PostNoResult(req: Request) returns (err: Option<Error>)
      modifies this
      ensures log == old(log) + [req] && err == answers.approval(old(log), req)
    {
      err := answers.approval(log, req);
      log := log + [req];
    }
  }
}
