/** The admin dashboard: the gate that shows a spinner, nothing, or the
    dashboard; the redirect to the login page; the tabs; and sign-out. */
module AdminDashboard {
  import opened Records
  import opened Auth
  import opened AuthContext

  datatype Editor = ContentTab | ServicesTab | ContactTab

  datatype View = Spinner | Blank | Dashboard(editor: Option<Editor>)

  /** `activeTab === id && <Editor />` for the three tab ids. */
  function EditorFor(tab: string): (r: Option<Editor>)
    ensures r == Some(ContentTab) <==> tab == "content"
    ensures r == Some(ServicesTab) <==> tab == "services"
    ensures r == Some(ContactTab) <==> tab == "contact"
    ensures r.None? <==> tab !in {"content", "services", "contact"}
  {
    if tab == "content" then Some(ContentTab)
    else if tab == "services" then Some(ServicesTab)
    else if tab == "contact" then Some(ContactTab)
    else None
  }

  /** What the page renders. */
  function Render(loading: bool, isAuthenticated: bool, isAdmin: bool, tab: string): (r: View)
    ensures r == Spinner <==> loading
    ensures r.Dashboard? <==> !loading && isAuthenticated && isAdmin
    ensures r.Dashboard? ==> r.editor == EditorFor(tab)
  {
    if loading then Spinner
    else if !isAuthenticated || !isAdmin then Blank
    else Dashboard(EditorFor(tab))
  }

  /** The redirect effect: once loading is over, anyone but an
      authenticated admin is sent to the login page. */
  function ShouldRedirect(loading: bool, isAuthenticated: bool, isAdmin: bool): (r: bool)
    ensures r <==> !loading && !(isAuthenticated && isAdmin)
  {
    !loading && (!isAuthenticated || !isAdmin)
  }

  /** The blank page is exactly the redirect case: the dashboard is never
      shown to someone being redirected, and every state other than the
      spinner is either the dashboard or a redirect. */
  lemma GateIsExclusive(loading: bool, isAuthenticated: bool, isAdmin: bool, tab: string)
    ensures Render(loading, isAuthenticated, isAdmin, tab) == Blank <==> ShouldRedirect(loading, isAuthenticated, isAdmin)
    ensures !(Render(loading, isAuthenticated, isAdmin, tab).Dashboard? && ShouldRedirect(loading, isAuthenticated, isAdmin))
  {
  }

  /** Against the context's state, the gate reduces to the admin flag: an
      admin is always authenticated. */
  lemma GateOnContext(p: AuthProvider, tab: string)
    requires p.Valid()
    ensures Render(p.loading, p.IsAuthenticated(), p.isAdmin, tab).Dashboard? <==> !p.loading && p.isAdmin
    ensures ShouldRedirect(p.loading, p.IsAuthenticated(), p.isAdmin) <==> !p.loading && !p.isAdmin
  {
  }

  /** The toast shown after a sign-out attempt. */
  datatype Toast = ToastSuccess(text: string) | ToastError(text: string)

  const SignedOutText := "Sesión cerrada correctamente"
  const SignOutErrorText := "Error al cerrar sesión"

  class AdminPage {
    var activeTab: string

    constructor ()
      ensures activeTab == "content"
      ensures EditorFor(activeTab) == Some(ContentTab)
    {
      activeTab := "content";
    }

    method SelectTab(id: string)
      modifies this`activeTab
      ensures activeTab == id
    {
      activeTab := id;
    }

    /** `handleSignOut`: `ok` says whether the sign-out call succeeded;
        only then is the user sent to the login page. */
    method SignOut(ok: bool) returns (redirect: bool, toast: Toast)
      ensures redirect <==> ok
      ensures toast == (if ok then ToastSuccess(SignedOutText) else ToastError(SignOutErrorText))
    {
      if ok {
        toast := ToastSuccess(SignedOutText);
        redirect := true;
      } else {
        toast := ToastError(SignOutErrorText);
        redirect := false;
      }
    }
  }
}
