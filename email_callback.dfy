/** The shape shared by the two e-mail callback pages (`/auth/verify` and
    `/auth/confirm`): a status that starts at "loading" with a waiting
    message, and an effect that checks two URL parameters, waits for the
    (simulated) confirmation, and ends in "error" or "success" with a fixed
    message. The pages differ in the name of the token parameter and in
    their texts. */
module EmailCallback {
  import opened Common

  datatype Texts = Texts(
    tokenKey: string,
    loading: string,
    invalidLink: string,
    success: string,
    failure: string)

  /** What the page shows: `status` and `message`. */
  datatype View = View(status: PageStatus, message: string)

  /** The page's state before the effect has finished. */
  function Initial(texts: Texts): (v: View)
    ensures v.status == Loading && v.message == texts.loading
  {
    View(Loading, texts.loading)
  }

  /** Both the token parameter and `type` are present and non-empty. */
  function LinkComplete(texts: Texts, q: QueryParams): (r: bool)
    ensures r <==> texts.tokenKey in q && "type" in q && q[texts.tokenKey] != "" && q["type"] != ""
  {
    Truthy(Param(q, texts.tokenKey)) && Truthy(Param(q, "type"))
  }

  /** Where the effect ends: an incomplete link is an error at once; with a
      complete link, an exception thrown while waiting is an error too, and
      otherwise the page reports success. `raised` says whether that
      exception happened. */
  function Outcome(texts: Texts, q: QueryParams, raised: bool): (v: View)
    ensures v.status != Loading
    ensures v.status == Success <==> LinkComplete(texts, q) && !raised
    ensures !LinkComplete(texts, q) ==> v == View(Error, texts.invalidLink)
    ensures LinkComplete(texts, q) && raised ==> v == View(Error, texts.failure)
    ensures v.status == Success ==> v.message == texts.success
  {
    if !LinkComplete(texts, q) then View(Error, texts.invalidLink)
    else if raised then View(Error, texts.failure)
    else View(Success, texts.success)
  }

  /** The message always belongs to the status it is shown with. */
  ghost predicate Consistent(texts: Texts, v: View)
  {
    && (v.status == Loading ==> v.message == texts.loading)
    && (v.status == Success ==> v.message == texts.success)
    && (v.status == Error ==> v.message == texts.invalidLink || v.message == texts.failure)
  }

  /** The initial view and every outcome are consistent, and no outcome is
      "loading": once the effect has run, the page never goes back. */
  lemma OutcomesConsistent(texts: Texts, q: QueryParams, raised: bool)
    ensures Consistent(texts, Initial(texts))
    ensures Consistent(texts, Outcome(texts, q, raised))
    ensures Outcome(texts, q, raised).status != Loading
  {
  }

  class Page {
    const texts: Texts
    var status: PageStatus
    var message: string

    ghost predicate Valid()
      reads this
    {
      Consistent(texts, View(status, message))
    }

    constructor (texts: Texts)
      ensures Valid()
      ensures this.texts == texts && View(status, message) == Initial(texts)
    {
      this.texts := texts;
      status := Loading;
      message := texts.loading;
    }

    /** The effect body (`verifyEmail` / `confirmEmail`), with its early
        return and its catch branch. The effect re-runs when the URL
        parameters change, so it may also start from a finished state. */
    method Run(q: QueryParams, raised: bool)
      requires Valid()
      modifies this`status, this`message
      ensures Valid()
      ensures View(status, message) == Outcome(texts, q, raised)
      ensures status != Loading
    {
      var token := Param(q, texts.tokenKey);
      var kind := Param(q, "type");
      if !Truthy(token) || !Truthy(kind) {
        status := Error;
        message := texts.invalidLink;
        return;
      }
      if raised {
        status := Error;
        message := texts.failure;
        return;
      }
      status := Success;
      message := texts.success;
    }
  }
}
