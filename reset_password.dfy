/** `src/app/auth/reset-password/page.tsx`: the form that sets a new password
    after a reset link. `onSubmit` is split at its `await`: `BeginSubmit`
    runs before the call to the authentication service, `CompleteSubmit`
    after it with the service's answer. Its schema, `resetPasswordSchema`,
    is `Forms.PasswordPairIssues`. */
module ResetPassword {
  import opened Common

  const ResetErrorFallback := "An error occurred while resetting your password"

  class Page {
    var isLoading: bool
    var error: Option<string>
    var isSuccess: bool

    constructor ()
      ensures !isLoading && error == None && !isSuccess
    {
      isLoading, error, isSuccess := false, None, false;
    }

    method BeginSubmit()
      modifies this`isLoading, this`error
      ensures isLoading && error == None
    {
      isLoading := true;
      error := None;
    }

    /** Success sets `isSuccess` (the delayed redirect is not modelled);
        failure shows the message or the fallback; loading ends either way,
        and `isSuccess` is never cleared. */
    method CompleteSubmit(result: ProviderResult)
      modifies this`isLoading, this`error, this`isSuccess
      ensures !isLoading
      ensures old(isSuccess) ==> isSuccess
      ensures result.Ok? ==> isSuccess && error == old(error)
      ensures result.Err? ==> isSuccess == old(isSuccess)
      ensures result.Err? ==> error == Some(ErrorText(result.message, ResetErrorFallback))
    {
      if result.Ok? {
        isSuccess := true;
      } else {
        error := Some(ErrorText(result.message, ResetErrorFallback));
      }
      isLoading := false;
    }
  }

  /** A whole submission: success leaves no error, failure always shows one. */
  method Submit(page: Page, result: ProviderResult)
    modifies page
    ensures !page.isLoading
    ensures result.Ok? ==> page.isSuccess && page.error == None
    ensures result.Err? ==> page.isSuccess == old(page.isSuccess)
    ensures result.Err? ==> page.error == Some(ErrorText(result.message, ResetErrorFallback))
  {
    page.BeginSubmit();
    page.CompleteSubmit(result);
  }
}
