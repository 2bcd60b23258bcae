/** `HeaderAuthPanel`: the login/registration modal in the page header. */
module AuthPanel {
  import opened Wrappers
  import opened Api
  import opened AuthContext

  const AuthFailed := "Authentication failed. Check credentials."

  /** The form object the panel starts with and resets to. */
  const EmptyForm: map<string, string> := map["username" := "", "password" := "", "email" := ""]

  class HeaderAuthPanel {
    const auth: AuthProvider
    var showModal: bool
    var isRegister: bool
    /** The form object; `handleChange` writes whatever key the input names. */
    var form: map<string, string>
    var error: string

    /** The three keys the submit handler reads are always present. */
    ghost predicate Valid()
      reads this
    {
      "username" in form && "password" in form && "email" in form
    }

    constructor (auth: AuthProvider)
      ensures Valid()
      ensures this.auth == auth
      ensures !showModal && !isRegister && form == EmptyForm && error == ""
    {
      this.auth := auth;
      showModal := false;
      isRegister := false;
      form := EmptyForm;
      error := "";
    }

    /** `toggleModal`: opens a closed modal and closes an open one. */
    method ToggleModal()
      modifies this`showModal
      ensures showModal == !old(showModal)
    {
      showModal := !showModal;
    }

    /** The link under the form that switches between login and sign-up. */
    method ToggleRegister()
      modifies this`isRegister
      ensures isRegister == !old(isRegister)
    {
      isRegister := !isRegister;
    }

    /** `handleChange`: the input's `name` key takes the input's value and every
        other key keeps its own. */
    method HandleChange(name: string, value: string)
      requires Valid()
      modifies this`form
      ensures Valid()
      ensures name in form && form[name] == value
      ensures form.Keys == old(form).Keys + {name}
      ensures forall k :: k in old(form) && k != name ==> form[k] == old(form)[k]
    {
      form := form[name := value];
    }

    /** `handleSubmit`: registers or logs in with the form's fields; success
        closes the modal, resets the form and clears the error, failure shows
        the fixed message. A rejected call (a network error) escapes the
        handler before any of that, so the panel is left as it was. */
    method HandleSubmit(loginReply: Http<Tokens>, registerReached: Option<bool>)
      returns (sent: AuthRequest, outcome: Settled<bool>)
      requires Valid() && auth.Valid()
      modifies this`showModal, this`form, this`error, auth`authTokens, auth`storage
      ensures Valid() && auth.Valid()
      ensures isRegister ==>
        sent == Register(old(form)["username"], old(form)["email"], old(form)["password"])
      ensures !isRegister ==> sent == Login(old(form)["username"], old(form)["password"])
      ensures isRegister ==> auth.authTokens == old(auth.authTokens) && auth.storage == old(auth.storage)
      ensures isRegister ==> outcome == (if registerReached.Some? then Resolved(registerReached.value) else Rejected)
      ensures !isRegister ==> (outcome == Resolved(true) <==> loginReply.Answered? && loginReply.ok && loginReply.body.Some?)
      ensures !isRegister ==> (outcome == Resolved(false) <==> loginReply.Answered? && !loginReply.ok)
      ensures !isRegister && outcome == Resolved(true) ==>
        loginReply.Answered? && loginReply.body.Some? &&
        auth.authTokens == loginReply.body && auth.storage == old(auth.storage)[TokensKey := loginReply.body.value]
      ensures outcome != Resolved(true) ==> auth.authTokens == old(auth.authTokens) && auth.storage == old(auth.storage)
      ensures outcome == Resolved(true) ==> !showModal && form == EmptyForm && error == ""
      ensures outcome == Resolved(false) ==>
        showModal == old(showModal) && form == old(form) && error == AuthFailed
      ensures outcome.Rejected? ==>
        showModal == old(showModal) && form == old(form) && error == old(error)
    {
      if isRegister {
        outcome, sent := auth.RegisterUser(form["username"], form["email"], form["password"], registerReached);
      } else {
        outcome, sent := auth.LoginUser(form["username"], form["password"], loginReply);
      }
      if outcome == Resolved(true) {
        showModal := false;
        form := EmptyForm;
        error := "";
      } else if outcome == Resolved(false) {
        error := AuthFailed;
      }
    }
  }
}
