/** Role classification and the display lookups of the client's authentication helpers.

    A role arrives as an optional string (a user record may lack one). The application knows
    fourteen role literals, split into five classes; `RoleTable` is the single reference for
    that partition and for each literal's display title. The membership predicates below are
    written the way the client writes them (lists of literals, null-safe tests) and are proved
    to agree with the table. */
module Roles {
  import opened Wrappers

  datatype RoleClass = DirectorClass | ManagerClass | TeamLeadClass | EmployeeClass | InternClass

  /** What the application knows about one role literal. */
  datatype RoleInfo = RoleInfo(cls: RoleClass, title: string)

  /** The fourteen known role literals with their class and display title. */
  const RoleTable: map<string, RoleInfo> := map[
    "global_hr_director" := RoleInfo(DirectorClass, "Global HR Director"),
    "global_operations_director" := RoleInfo(DirectorClass, "Global Operations Director"),
    "engineering_director" := RoleInfo(DirectorClass, "Engineering Director"),
    "director_tech_team" := RoleInfo(DirectorClass, "Director – Tech Team"),
    "director_business_development" := RoleInfo(DirectorClass, "Director – Business Development"),
    "talent_acquisition_manager" := RoleInfo(ManagerClass, "Talent Acquisition Manager"),
    "project_tech_manager" := RoleInfo(ManagerClass, "Project/Tech Manager"),
    "quality_assurance_manager" := RoleInfo(ManagerClass, "Quality Assurance Manager"),
    "software_development_manager" := RoleInfo(ManagerClass, "Software Development Manager"),
    "systems_integration_manager" := RoleInfo(ManagerClass, "Systems Integration Manager"),
    "client_relations_manager" := RoleInfo(ManagerClass, "Client Relations Manager"),
    "team_lead" := RoleInfo(TeamLeadClass, "Team Lead"),
    "employee" := RoleInfo(EmployeeClass, "Employee"),
    "intern" := RoleInfo(InternClass, "Intern")
  ]

  /** The class of a role according to `RoleTable`; `None` for an absent or unknown role. */
  function ClassOf(role: Option<string>): Option<RoleClass> {
    if role.Some? && role.value in RoleTable then Some(RoleTable[role.value].cls) else None
  }

  /** The director literals, as the client lists them. */
  const DirectorRoles: seq<string> := [
    "global_hr_director",
    "global_operations_director",
    "engineering_director",
    "director_tech_team",
    "director_business_development"
  ]

  /** The manager literals, as the client lists them. */
  const ManagerRoles: seq<string> := [
    "talent_acquisition_manager",
    "project_tech_manager",
    "quality_assurance_manager",
    "software_development_manager",
    "systems_integration_manager",
    "client_relations_manager"
  ]

  /** Null-safe membership in the director list. */
  predicate IsDirector(role: Option<string>)
    ensures IsDirector(role) <==> ClassOf(role) == Some(DirectorClass)
  {
    Truthy(role) && role.value in DirectorRoles
  }

  /** Null-safe membership in the manager list. */
  predicate IsManager(role: Option<string>)
    ensures IsManager(role) <==> ClassOf(role) == Some(ManagerClass)
  {
    Truthy(role) && role.value in ManagerRoles
  }

  /** Strict equality with `team_lead`; an absent role is not equal to it. */
  predicate IsTeamLead(role: Option<string>)
    ensures IsTeamLead(role) <==> ClassOf(role) == Some(TeamLeadClass)
  {
    role == Some("team_lead")
  }

  predicate IsEmployee(role: Option<string>)
    ensures IsEmployee(role) <==> ClassOf(role) == Some(EmployeeClass)
  {
    role == Some("employee")
  }

  predicate IsIntern(role: Option<string>)
    ensures IsIntern(role) <==> ClassOf(role) == Some(InternClass)
  {
    role == Some("intern")
  }

  /** An absent role satisfies none of the predicates. */
  lemma AbsentRoleIsNothing()
    ensures !IsDirector(None) && !IsManager(None) && !IsTeamLead(None)
    ensures !IsEmployee(None) && !IsIntern(None)
  {
  }

  /** No role satisfies two of the predicates. */
  lemma PredicatesExclusive(role: Option<string>)
    ensures IsDirector(role) ==> !IsManager(role) && !IsTeamLead(role) && !IsEmployee(role) && !IsIntern(role)
    ensures IsManager(role) ==> !IsTeamLead(role) && !IsEmployee(role) && !IsIntern(role)
    ensures IsTeamLead(role) ==> !IsEmployee(role) && !IsIntern(role)
    ensures IsEmployee(role) ==> !IsIntern(role)
  {
  }

  /** Every known literal satisfies exactly the predicate of its class, and an unknown role none. */
  lemma PredicatesCoverTable(role: Option<string>)
    ensures ClassOf(role).Some? <==>
      IsDirector(role) || IsManager(role) || IsTeamLead(role) || IsEmployee(role) || IsIntern(role)
  {
  }

  /** The user-facing name of a role: its title when it is one of the fourteen known literals,
      `"Unknown"` when it is absent or empty, and the raw string otherwise. */
  function DisplayName(role: Option<string>): (name: string)
    ensures !Truthy(role) ==> name == "Unknown"
    ensures ClassOf(role).Some? ==> name == RoleTable[role.value].title
    ensures Truthy(role) && ClassOf(role).None? ==> name == role.value
    ensures name != ""
  {
    if Truthy(role) then
      if role.value in RoleTable then RoleTable[role.value].title else role.value
    else
      "Unknown"
  }

  /** Two known roles with the same display name are the same role. */
  lemma DisplayNameIdentifiesKnownRole(a: Option<string>, b: Option<string>)
    requires ClassOf(a).Some? && ClassOf(b).Some?
    requires DisplayName(a) == DisplayName(b)
    ensures a == b
  {
    TitleDeterminesRole(a.value);
    TitleDeterminesRole(b.value);
  }

  /** The literal whose title has the given length and first character; the fourteen titles
      differ in one or the other. */
  function RoleOfTitleShape(length: nat, first: char): string {
    if length == 6 then "intern"
    else if length == 8 then "employee"
    else if length == 9 then "team_lead"
    else if length == 18 then "global_hr_director"
    else if length == 20 then
      (if first == 'E' then "engineering_director"
       else if first == 'D' then "director_tech_team"
       else "project_tech_manager")
    else if length == 24 then "client_relations_manager"
    else if length == 25 then "quality_assurance_manager"
    else if length == 26 then
      (if first == 'G' then "global_operations_director" else "talent_acquisition_manager")
    else if length == 27 then "systems_integration_manager"
    else if length == 28 then "software_development_manager"
    else "director_business_development"
  }

  /** Every known literal is recovered from the shape of its title. */
  lemma TitleDeterminesRole(role: string)
    requires role in RoleTable
    ensures RoleTable[role].title != ""
    ensures RoleOfTitleShape(|RoleTable[role].title|, RoleTable[role].title[0]) == role
  {
  }

  /** Example display names: an absent role, the empty role, an unmapped and a mapped one. */
  lemma DisplayNameExamples()
    ensures DisplayName(None) == "Unknown"
    ensures DisplayName(Some("")) == "Unknown"
    ensures DisplayName(Some("made_up_role")) == "made_up_role"
    ensures DisplayName(Some("director_tech_team")) == "Director – Tech Team"
  {
  }

  /** The six values `SimpleDesignation` can return. */
  const Designations: set<string> := {"Director", "Manager", "Team Lead", "Employee", "Intern", "Staff"}

  /** Collapses a role to a designation, testing Director, Manager, Team Lead, Employee and
      Intern in that order and falling back to `"Staff"`. */
  function SimpleDesignation(role: Option<string>): (d: string)
    ensures d in Designations
    ensures d == "Director" <==> IsDirector(role)
    ensures d == "Manager" <==> IsManager(role)
    ensures d == "Team Lead" <==> IsTeamLead(role)
    ensures d == "Employee" <==> IsEmployee(role)
    ensures d == "Intern" <==> IsIntern(role)
    ensures d == "Staff" <==> ClassOf(role).None?
  {
    if !Truthy(role) then "Staff"
    else if IsDirector(role) then "Director"
    else if IsManager(role) then "Manager"
    else if IsTeamLead(role) then "Team Lead"
    else if IsEmployee(role) then "Employee"
    else if IsIntern(role) then "Intern"
    else "Staff"
  }

  /** The colour class of each known department. */
  const DepartmentColors: map<string, string> := map[
    "hr" := "bg-blue-500",
    "operations" := "bg-green-500",
    "engineering" := "bg-purple-500",
    "tech" := "bg-orange-500",
    "business_development" := "bg-pink-500",
    "quality_assurance" := "bg-yellow-500",
    "systems_integration" := "bg-indigo-500",
    "client_relations" := "bg-red-500"
  ]

  const DefaultColor: string := "bg-gray-500"

  /** `colorMap[department] || 'bg-gray-500'`: the mapped colour, or the grey default when the
      lookup misses (or, were a mapped colour empty, when it is falsy). */
  function DepartmentColor(department: string): (c: string)
    ensures department in DepartmentColors ==> c == DepartmentColors[department]
    ensures department !in DepartmentColors ==> c == DefaultColor
    ensures c != ""
  {
    if department in DepartmentColors && DepartmentColors[department] != "" then
      DepartmentColors[department]
    else
      DefaultColor
  }

  /** The colour tells the department apart: known departments get pairwise distinct colours,
      none of them the default grey. */
  lemma DepartmentColorIdentifies(a: string, b: string)
    requires a in DepartmentColors
    ensures DepartmentColor(a) != DefaultColor
    ensures DepartmentColor(a) == DepartmentColor(b) ==> a == b
  {
  }
}
