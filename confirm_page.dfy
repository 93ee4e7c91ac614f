/** `src/app/auth/confirm/page.tsx`: the e-mail confirmation callback page,
    which reads the `token_hash` and `type` URL parameters. */
module ConfirmPage {
  import opened Common
  import opened EmailCallback
  import VerifyPage

  const ConfirmTexts := Texts(
    "token_hash",
    "Confirming your email...",
    "Invalid confirmation link",
    "Email confirmed successfully! Redirecting to login...",
    "An error occurred while confirming your email")

  /** The page starts in "loading" and ends in "error" for a link without
      `token_hash` or `type`, in "error" for an exception, and in "success"
      otherwise, each with its fixed message. */
  lemma ConfirmOutcomes(q: QueryParams, raised: bool)
    ensures Initial(ConfirmTexts) == View(Loading, "Confirming your email...")
    ensures !Truthy(Param(q, "token_hash")) || !Truthy(Param(q, "type")) ==>
              Outcome(ConfirmTexts, q, raised) == View(Error, "Invalid confirmation link")
    ensures Truthy(Param(q, "token_hash")) && Truthy(Param(q, "type")) && raised ==>
              Outcome(ConfirmTexts, q, raised) == View(Error, "An error occurred while confirming your email")
    ensures Truthy(Param(q, "token_hash")) && Truthy(Param(q, "type")) && !raised ==>
              Outcome(ConfirmTexts, q, raised) == View(Success, "Email confirmed successfully! Redirecting to login...")
  {
  }

  /** The two pages read different token parameters: a link carrying only
      `token_hash` confirms here but is an invalid link for the verify page,
      and one carrying only `token` is the other way round. */
  lemma TokenKeysDiffer()
    ensures Outcome(ConfirmTexts, map["token_hash" := "abc", "type" := "signup"], false).status == Success
    ensures Outcome(VerifyPage.VerifyTexts, map["token_hash" := "abc", "type" := "signup"], false).status == Error
    ensures Outcome(ConfirmTexts, map["token" := "abc", "type" := "signup"], false).status == Error
    ensures Outcome(VerifyPage.VerifyTexts, map["token" := "abc", "type" := "signup"], false).status == Success
  {
    assert "token" != "token_hash";
  }

  /** Opening the page: the initial view, then the effect. */
  method Open(q: QueryParams, raised: bool) returns (page: Page)
    ensures fresh(page) && page.Valid() && page.texts == ConfirmTexts
    ensures View(page.status, page.message) == Outcome(ConfirmTexts, q, raised)
  {
    page := new Page(ConfirmTexts);
    page.Run(q, raised);
  }
}
