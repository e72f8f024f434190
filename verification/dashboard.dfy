/** The dashboard page's choice of which dashboard to show, as a total function of the
    current user. */
module Dashboard {
  import opened Wrappers
  import opened Roles
  import Session

  datatype Variant = Unauthorized | DirectorDashboard | ManagerDashboard | TeamLeadDashboard | EmployeeDashboard

  /** No user or no (non-empty) role: unauthorized. Otherwise director, manager and team-lead
      roles get their own dashboards, tested in that order, and every other role (employee,
      intern, or a role the application does not know) falls back to the employee dashboard. */
  function Select(user: Option<Session.User>): (v: Variant)
    ensures v == Unauthorized <==> user.None? || !Truthy(user.value.role)
    ensures v == DirectorDashboard <==> user.Some? && ClassOf(user.value.role) == Some(DirectorClass)
    ensures v == ManagerDashboard <==> user.Some? && ClassOf(user.value.role) == Some(ManagerClass)
    ensures v == TeamLeadDashboard <==> user.Some? && ClassOf(user.value.role) == Some(TeamLeadClass)
    ensures v == EmployeeDashboard <==>
      user.Some? && Truthy(user.value.role) &&
      ClassOf(user.value.role) in {None, Some(EmployeeClass), Some(InternClass)}
  {
    if user.None? || !Truthy(user.value.role) then Unauthorized
    else if IsDirector(user.value.role) then DirectorDashboard
    else if IsManager(user.value.role) then ManagerDashboard
    else if IsTeamLead(user.value.role) then TeamLeadDashboard
    else EmployeeDashboard
  }

  /** The page as a whole: read the current user from the store, then select. */
  function ForStore(store: Session.Store, parse: Session.Parser): (v: Variant)
    ensures v == Unauthorized <==>
      !Session.IsAuthenticated(store, parse) || !Truthy(Session.GetCurrentUser(store, parse).value.role)
  {
    Select(Session.GetCurrentUser(store, parse))
  }

  /** Once signed out, every store shows the unauthorized state. */
  lemma SignedOutIsUnauthorized(store: Session.Store, parse: Session.Parser)
    ensures ForStore(Session.ClearCurrentUser(store), parse) == Unauthorized
  {
  }

  /** The dashboard agrees with the simple designation of the same role: director, manager
      and team lead match one to one, and the employee dashboard serves employees, interns and
      staff alike. */
  lemma SelectAgreesWithDesignation(user: Session.User)
    requires Truthy(user.role)
    ensures Select(Some(user)) == DirectorDashboard <==> SimpleDesignation(user.role) == "Director"
    ensures Select(Some(user)) == ManagerDashboard <==> SimpleDesignation(user.role) == "Manager"
    ensures Select(Some(user)) == TeamLeadDashboard <==> SimpleDesignation(user.role) == "Team Lead"
    ensures Select(Some(user)) == EmployeeDashboard <==>
      SimpleDesignation(user.role) in {"Employee", "Intern", "Staff"}
  {
  }

  /** Example selections: no user, no role, and one role of each class with its own dashboard. */
  lemma SelectExamples(id: Option<string>, token: Option<string>)
    ensures Select(None) == Unauthorized
    ensures Select(Some(Session.User(id, token, None))) == Unauthorized
    ensures Select(Some(Session.User(id, token, Some("engineering_director")))) == DirectorDashboard
    ensures Select(Some(Session.User(id, token, Some("client_relations_manager")))) == ManagerDashboard
    ensures Select(Some(Session.User(id, token, Some("team_lead")))) == TeamLeadDashboard
  {
  }

  /** Example fallbacks: an intern and a role the application does not know both get the
      employee dashboard. */
  lemma SelectFallbackExamples(id: Option<string>, token: Option<string>)
    ensures Select(Some(Session.User(id, token, Some("intern")))) == EmployeeDashboard
    ensures Select(Some(Session.User(id, token, Some("zzz_unknown")))) == EmployeeDashboard
  {
  }
}
