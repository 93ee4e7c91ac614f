/** `src/app/auth/verify/page.tsx`: the e-mail verification callback page,
    which reads the `token` and `type` URL parameters. */
module VerifyPage {
  import opened Common
  import opened EmailCallback

  const VerifyTexts := Texts(
    "token",
    "Verifying your email...",
    "Invalid verification link",
    "Email verified successfully! Redirecting to login...",
    "An error occurred while verifying your email")

  /** The page starts in "loading" and ends in "error" for a link without
      `token` or `type`, in "error" for an exception, and in "success"
      otherwise, each with its fixed message. */
  lemma VerifyOutcomes(q: QueryParams, raised: bool)
    ensures Initial(VerifyTexts) == View(Loading, "Verifying your email...")
    ensures !Truthy(Param(q, "token")) || !Truthy(Param(q, "type")) ==>
              Outcome(VerifyTexts, q, raised) == View(Error, "Invalid verification link")
    ensures Truthy(Param(q, "token")) && Truthy(Param(q, "type")) && raised ==>
              Outcome(VerifyTexts, q, raised) == View(Error, "An error occurred while verifying your email")
    ensures Truthy(Param(q, "token")) && Truthy(Param(q, "type")) && !raised ==>
              Outcome(VerifyTexts, q, raised) == View(Success, "Email verified successfully! Redirecting to login...")
  {
  }

  /** Opening the page: the initial view, then the effect. */
  method Open(q: QueryParams, raised: bool) returns (page: Page)
    ensures fresh(page) && page.Valid() && page.texts == VerifyTexts
    ensures View(page.status, page.message) == Outcome(VerifyTexts, q, raised)
  {
    page := new Page(VerifyTexts);
    page.Run(q, raised);
  }
}
