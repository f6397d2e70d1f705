/**
 * The JSON shapes exchanged with the certificate portal (package models), cut down
 * to the fields the issuance workflow reads or forwards.
 */
module Models {

  /** One entry of the portal's domain check (models.DomainResponse); forwarded unchanged. */
  datatype DomainResponse = DomainResponse(domain: string, isValid: bool, errorMessage: string)

  /** One entry of the organization match check (models.OrganizationResponse); opaque here. */
  datatype OrganizationResponse = OrganizationResponse(id: string, organizationName: string)

  /** Answer to a certificate request; the transaction id travels under the JSON key `id`. */
  datatype CertificateRequestResponse = CertificateRequestResponse(transactionId: string, requiresConsentKey: bool)

  /** One approvable sub-review of a transaction (models.ReviewGetDTOs). */
  datatype ReviewGetDto = ReviewGetDto(reviewId: string, reviewValue: string)

  /** One reviewable transaction (models.ReviewResponse). */
  datatype ReviewResponse = ReviewResponse(transactionId: string, reviewGetDtos: seq<ReviewGetDto>)

  /** An issued certificate (models.CertificateResponse); only the PEM bundle is used. */
  datatype CertificateResponse = CertificateResponse(pemBundle: string, serial: string)

  /** Query for reviewable transactions (models.ReviewRequest); filters are opaque. */
  datatype ReviewRequest = ReviewRequest(startIndex: int, status: string, filterPostDtos: seq<string>)

  /** The `{domain}` record that client.go posts for every domain name. */
  datatype Domain = Domain(domain: string)
}
