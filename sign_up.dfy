/** The sign-up screen: field edits clear a shown error, submit requires the terms checkbox,
    and a successful sign-up stores the token and the user and empties the form. */
module SignUp {
  import opened Js
  import Api
  import opened Storage

  const TermsMessage := "Please accept the Terms of Service and Privacy Policy"
  const SignupFailedMessage := "Failed to create account"

  const EmptyForm: Object := map["username" := Str(""), "email" := Str(""), "password" := Str("")]

  /** `{ username, email, password }` taken from the form, nothing else. */
  function SignupBody(form: Object): (b: Object)
    ensures b.Keys == EmptyForm.Keys
    ensures forall k :: k in EmptyForm ==> b[k] == Prop(form, k)
  {
    map["username" := Prop(form, "username"), "email" := Prop(form, "email"), "password" := Prop(form, "password")]
  }

  class SignUpPage {
    var formData: Object
    var error: Value
    var loading: bool
    var termsAccepted: bool
    var navigation: Option<string>

    constructor ()
      ensures formData == EmptyForm && error == Str("") && !loading && !termsAccepted && navigation == None
    {
      formData, error, loading, termsAccepted, navigation := EmptyForm, Str(""), false, false, None;
    }

    /** Only the named field changes, and a shown error is cleared. */
    method HandleChange(name: string, value: string)
      modifies this
      ensures formData == old(formData)[name := Str(value)]
      ensures error == if Truthy(old(error)) then Str("") else old(error)
      ensures !Truthy(error)
      ensures loading == old(loading) && termsAccepted == old(termsAccepted) && navigation == old(navigation)
    {
      formData := formData[name := Str(value)];
      if Truthy(error) {
        error := Str("");
      }
    }

    method SetTermsAccepted(checked: bool)
      modifies this
      ensures termsAccepted == checked
      ensures formData == old(formData) && error == old(error) && loading == old(loading) && navigation == old(navigation)
    {
      termsAccepted := checked;
    }

    /** The error is cleared; unaccepted terms set the terms error and stop without touching
        loading; otherwise loading is set and the sign-up call made. */
    method BeginSubmit() returns (request: Option<Api.Request>)
      modifies this
      ensures request.None? <==> !termsAccepted
      ensures request.None? ==> error == Str(TermsMessage) && loading == old(loading)
      ensures request.Some? ==> error == Str("") && loading && request.value == Api.Signup(Obj(SignupBody(formData)))
      ensures formData == old(formData) && termsAccepted == old(termsAccepted) && navigation == old(navigation)
    {
      error := Str("");
      if !termsAccepted {
        error := Str(TermsMessage);
        request := None;
        return;
      }
      loading := true;
      request := Some(Api.Signup(Obj(SignupBody(formData))));
    }

    /** After the call. On success `response.data.user.token` and the user are stored, the
        three fields emptied and the dashboard opened; reading the token of a missing user
        throws, which ends like a failed call without a server message. Loading ends off. */
    method FinishSubmit(outcome: Api.Response, storage: LocalStorage, stringify: Value -> string)
      modifies this, storage
      ensures !loading && termsAccepted == old(termsAccepted)
      ensures var user := if outcome.Ok? then Member(outcome.data, "user") else Undefined;
              if outcome.Ok? && !Nullish(user) then
                storage.items == old(storage.items)["token" := TemplateText(Member(user, "token"))]
                                                   ["user" := stringify(user)] &&
                formData == EmptyForm && navigation == Some("/dashboard") && error == old(error)
              else
                storage.items == old(storage.items) && formData == old(formData) && navigation == old(navigation) &&
                error == Api.FailureText(if outcome.Err? then outcome.message else Undefined, SignupFailedMessage)
    {
      var user := if outcome.Ok? then Member(outcome.data, "user") else Undefined;
      if outcome.Ok? && !Nullish(user) {
        storage.SetItem("token", TemplateText(Member(user, "token")));
        storage.SetItem("user", stringify(user));
        formData := EmptyForm;
        navigation := Some("/dashboard");
      } else {
        error := Api.FailureText(if outcome.Err? then outcome.message else Undefined, SignupFailedMessage);
      }
      loading := false;
    }
  }

  /** A whole submit on a fresh page with the terms left unchecked: the terms error, no
      call, loading never set. */
  method SubmitWithoutTerms(username: string, email: string, password: string)
    returns (request: Option<Api.Request>, error: Value, loading: bool)
    ensures request == None && error == Str(TermsMessage) && !loading
  {
    var page := new SignUpPage();
    page.HandleChange("username", username);
    page.HandleChange("email", email);
    page.HandleChange("password", password);
    request := page.BeginSubmit();
    error, loading := page.error, page.loading;
  }
}
