/**
 * Errors, time and the foreign libraries the client calls: JWT decoding
 * (golang-jwt, without signature verification), TOTP code generation
 * (RFC 6238, pquerna/otp) and JSON serialisation of the domain list.
 * They are passed around as values so that every operation is a function of them.
 */
module Foreign {
  import opened Wrappers
  import opened Models

  /** Where an error comes from; the reason text is opaque. */
  datatype Error =
    | HttpError(reason: string)       // resty: the request could not be made or read
    | HtmlError(reason: string)       // x/net/html: the page could not be parsed
    | JwtError(reason: string)        // golang-jwt: token or claim unreadable
    | TotpError(reason: string)       // pquerna/otp: no code for this seed
    | SchedulerError(reason: string)  // gocron: scheduler or job not created

  type Fallible<T> = Result<T, Error>

  /** Wall-clock time in seconds, as compared with the `exp` claim (section 4.1.4 of RFC 7519). */
  type Time = int

  /**
   * What `jwt.ParseUnverified` followed by `GetExpirationTime` makes of a token:
   * it does not parse, it parses but its expiry cannot be read, or it expires at `at`.
   */
  datatype Claims = Malformed(error: Error) | ExpiryUnreadable(error: Error) | Expires(at: Time)

  datatype Libraries = Libraries(
    parseToken: string -> Claims,
    generateCode: (string, Time) -> Fallible<string>,
    marshal: seq<DomainResponse> -> string)
}
