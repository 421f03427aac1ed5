/** The landing page's role-based redirect. */
module HomePage {
  import opened Options
  import opened Types

  /**
   * The route the landing page pushes once authentication has settled: none while
   * loading or signed out, otherwise one dashboard chosen by role.
   */
  function Redirect(loading: bool, user: Option<User>): (route: Option<string>)
    ensures route.None? <==> loading || user.None?
    ensures route.Some? && user.value.role == "admin" ==> route.value == "/admin/dashboard"
    ensures route.Some? && user.value.role == "tour_guide" ==> route.value == "/tour-guide/dashboard"
    ensures route.Some? && user.value.role != "admin" && user.value.role != "tour_guide" ==>
              route.value == "/dashboard"
  {
    if !loading && user.Some? then
      if user.value.role == "admin" then Some("/admin/dashboard")
      else if user.value.role == "tour_guide" then Some("/tour-guide/dashboard")
      else Some("/dashboard")
    else None
  }

  /** The former spelling 'tour guide' is an ordinary role and lands on the user dashboard. */
  lemma OldGuideSpellingIsOrdinary(u: User)
    requires u.role == "tour guide"
    ensures Redirect(false, Some(u)) == Some("/dashboard")
  {
  }
}
