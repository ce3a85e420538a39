/** The claims of a JSON Web Token as the dashboard reads them. No signature is
    ever checked: the payload segment is only base64-decoded and parsed. */
module Jwt {
  import opened Js
  import opened Strings

  /** The payload fields the checks look at. `isImpersonation` is its truthiness. */
  datatype Claims = Claims(
    sub: Option<string>,
    email: Option<string>,
    role: Option<string>,
    isImpersonation: bool,
    exp: Option<int>,
    impersonatedBy: Option<string>)

  /** The outcome of `JSON.parse(atob(segment))`: the claims, or the message of the thrown error. */
  datatype Decoded = Payload(claims: Claims) | Thrown(message: string)

  /** The browser's `atob` followed by `JSON.parse`, passed in as a value. */
  type Decoder = string -> Decoded

  /** `token.split('.')` has exactly three parts. */
  predicate ThreeParts(token: string) {
    Count(token, '.') == 2
  }

  /** The payload segment `token.split('.')[1]`. */
  function PayloadSegment(token: string): string
    requires ThreeParts(token)
  {
    Split(token, '.')[1]
  }

  /** The text before the first '@': `email.split('@')[0]`. */
  function UserName(email: string): (r: string)
    ensures r == BeforeFirst(email, '@')
    ensures '@' !in r && |r| <= |email|
  {
    SplitHead(email, '@');
    Split(email, '@')[0]
  }
}
