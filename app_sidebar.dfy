/**
 * The sidebar's two modal flags and the six handlers that set them. The
 * flags are independent: nothing closes one modal when the other opens,
 * except the two switch handlers.
 */
module AppSidebar {

  /** `AppModal`: nothing while closed, the content while open. */
  function Modal<C>(isOpen: bool, content: C): (r: seq<C>)
    ensures r == [] <==> !isOpen
    ensures isOpen ==> r == [content]
  {
    if isOpen then [content] else []
  }

  class Sidebar {
    var loginOpen: bool
    var signupOpen: bool

    constructor ()
      ensures !loginOpen && !signupOpen
    {
      loginOpen := false;
      signupOpen := false;
    }

    method CloseLoginModal()
      modifies this
      ensures !loginOpen && signupOpen == old(signupOpen)
    {
      loginOpen := false;
    }

    method CloseSignupModal()
      modifies this
      ensures !signupOpen && loginOpen == old(loginOpen)
    {
      signupOpen := false;
    }

    method HandleLoginClick()
      modifies this
      ensures loginOpen && signupOpen == old(signupOpen)
    {
      loginOpen := true;
    }

    method HandleSignupClick()
      modifies this
      ensures signupOpen && loginOpen == old(loginOpen)
    {
      signupOpen := true;
    }

    method HandleLoginToSignup()
      modifies this
      ensures !loginOpen && signupOpen
    {
      loginOpen := false;
      signupOpen := true;
    }

    method HandleSignupToLogin()
      modifies this
      ensures !signupOpen && loginOpen
    {
      signupOpen := false;
      loginOpen := true;
    }
  }

  /** The flags are not exclusive: a login click then a sign-up click leaves both modals open. */
  method BothModalsCanOpen() returns (login: bool, signup: bool)
    ensures login && signup
  {
    var s := new Sidebar();
    s.HandleLoginClick();
    s.HandleSignupClick();
    login, signup := s.loginOpen, s.signupOpen;
  }

  /** Switching from either modal, from any state, leaves exactly the other one open. */
  method SwitchLeavesOneOpen(login0: bool, signup0: bool) returns (login: bool, signup: bool)
    ensures !login && signup
  {
    var s := new Sidebar();
    s.loginOpen, s.signupOpen := login0, signup0;
    s.HandleLoginToSignup();
    login, signup := s.loginOpen, s.signupOpen;
  }
}
