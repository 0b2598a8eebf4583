/**
 * `accessControlProvider.can` of src/accessControlProvider.ts: the decision table that tells the
 * dashboard whether the signed-in user may reach a resource with an action.
 * Reading the token from browser storage and decoding it happen outside: the decoded identity
 * is an input.
 */
module AccessControl {

  import opened Options
  import opened JsValues

  /** The decoded access token, or its absence (no token stored). */
  datatype Identity = NoToken | Token(roleName: Option<string>)

  /** What `can` resolves to: `{ can }` or `{ can, reason }`. */
  datatype Decision = Decision(can: bool, reason: Option<string>)

  const Denial: string := "No tienes permiso"

  function Allow(): Decision { Decision(true, None) }
  function Deny(): Decision { Decision(false, None) }

  /** `resource && [...].includes(resource)`. */
  predicate ResourceIn(resource: Option<string>, names: seq<string>) {
    resource.Some? && resource.value != "" && resource.value in names
  }

  /** `params?.id`, truthy. */
  predicate HasTruthyId(params: Option<map<string, JsValue>>) {
    params.Some? && "id" in params.value && Truthy(params.value["id"])
  }

  /** `can({ action, resource, params })`. */
  function Can(identity: Identity, resource: Option<string>, action: string,
               params: Option<map<string, JsValue>>): Decision
  {
    if resource == Some("login") then Allow()
    else if identity.NoToken? then Deny()
    else if identity.roleName.None? || identity.roleName.value == "" then Deny()
    else
      var role := identity.roleName.value;
      if role == "ADMINISTRADOR" then Allow()
      else if role == "GERENTE" then
        if ResourceIn(resource, ["users", "couriers"]) then Deny() else Allow()
      else if role == "DESPACHADOR" then
        if ResourceIn(resource, ["orders", "products", "categories", "dashboard"]) then Allow() else Deny()
      else if role == "REPARTIDOR" then
        if resource == Some("couriers") && action == "list" then Allow()
        else if resource == Some("dashboard") then Allow()
        else Deny()
      else if role == "CLIENTE" then
        if resource == Some("orders") && action == "list" && HasTruthyId(params) then Allow()
        else if ResourceIn(resource, ["dashboard"]) then Allow()
        else Deny()
      else Decision(false, Some(Denial))
  }

  // ----- an independent statement of the table, over an enumeration of the roles -----

  datatype Role = Administrator | Manager | Dispatcher | Courier | Customer

  function ParseRole(name: string): (r: Option<Role>)
    ensures r.Some? ==> name in ["ADMINISTRADOR", "GERENTE", "DESPACHADOR", "REPARTIDOR", "CLIENTE"]
  {
    match name
    case "ADMINISTRADOR" => Some(Administrator)
    case "GERENTE" => Some(Manager)
    case "DESPACHADOR" => Some(Dispatcher)
    case "REPARTIDOR" => Some(Courier)
    case "CLIENTE" => Some(Customer)
    case _ => None
  }

  /** Which resources and actions each role is granted. */
  predicate Grants(role: Role, resource: Option<string>, action: string, hasId: bool) {
    match role
    case Administrator => true
    case Manager => resource !in {Some("users"), Some("couriers")}
    case Dispatcher => resource in {Some("orders"), Some("products"), Some("categories"), Some("dashboard")}
    case Courier => (resource == Some("couriers") && action == "list") || resource == Some("dashboard")
    case Customer => (resource == Some("orders") && action == "list" && hasId) || resource == Some("dashboard")
  }

  /** The provider agrees with the table for every identity, resource, action and parameters. */
  lemma CanMatchesTable(identity: Identity, resource: Option<string>, action: string,
                        params: Option<map<string, JsValue>>)
    ensures Can(identity, resource, action, params) ==
      if resource == Some("login") then Allow()
      else if identity.NoToken? || identity.roleName.None? || identity.roleName.value == "" then Deny()
      else match ParseRole(identity.roleName.value)
        case Some(role) => Decision(Grants(role, resource, action, HasTruthyId(params)), None)
        case None => Decision(false, Some(Denial))
  {
  }

  // ----- the table row by row -----

  lemma LoginAlwaysAllowed(identity: Identity, action: string, params: Option<map<string, JsValue>>)
    ensures Can(identity, Some("login"), action, params) == Decision(true, None)
  {
  }

  lemma NoRoleDenied(identity: Identity, resource: Option<string>, action: string,
                     params: Option<map<string, JsValue>>)
    requires resource != Some("login")
    requires identity.NoToken? || identity.roleName.None? || identity.roleName == Some("")
    ensures Can(identity, resource, action, params) == Decision(false, None)
  {
  }

  lemma AdministratorAllowed(resource: Option<string>, action: string, params: Option<map<string, JsValue>>)
    ensures Can(Token(Some("ADMINISTRADOR")), resource, action, params) == Decision(true, None)
  {
  }

  lemma ManagerRule(resource: Option<string>, action: string, params: Option<map<string, JsValue>>)
    ensures Can(Token(Some("GERENTE")), resource, action, params).reason == None
    ensures Can(Token(Some("GERENTE")), resource, action, params).can <==>
      resource != Some("users") && resource != Some("couriers")
  {
  }

  lemma DispatcherRule(resource: Option<string>, action: string, params: Option<map<string, JsValue>>)
    requires resource != Some("login")
    ensures Can(Token(Some("DESPACHADOR")), resource, action, params).reason == None
    ensures Can(Token(Some("DESPACHADOR")), resource, action, params).can <==>
      resource in {Some("orders"), Some("products"), Some("categories"), Some("dashboard")}
  {
  }

  lemma CourierRule(resource: Option<string>, action: string, params: Option<map<string, JsValue>>)
    requires resource != Some("login")
    ensures Can(Token(Some("REPARTIDOR")), resource, action, params).reason == None
    ensures Can(Token(Some("REPARTIDOR")), resource, action, params).can <==>
      (resource == Some("couriers") && action == "list") || resource == Some("dashboard")
  {
  }

  lemma CustomerRule(resource: Option<string>, action: string, params: Option<map<string, JsValue>>)
    requires resource != Some("login")
    ensures Can(Token(Some("CLIENTE")), resource, action, params).reason == None
    ensures Can(Token(Some("CLIENTE")), resource, action, params).can <==>
      (resource == Some("orders") && action == "list" && HasTruthyId(params)) || resource == Some("dashboard")
  {
  }

  /** A customer listing orders is let through exactly when `params.id` is truthy. */
  lemma CustomerOrdersNeedId()
    ensures !Can(Token(Some("CLIENTE")), Some("orders"), "list", Some(map[])).can
    ensures Can(Token(Some("CLIENTE")), Some("orders"), "list", Some(map["id" := Str("5")])).can
    ensures !Can(Token(Some("CLIENTE")), Some("orders"), "list", Some(map["id" := Str("")])).can
    ensures !Can(Token(Some("CLIENTE")), Some("orders"), "list", Some(map["id" := Num(0)])).can
  {
  }

  lemma UnknownRoleDenied(role: string, resource: Option<string>, action: string,
                          params: Option<map<string, JsValue>>)
    requires resource != Some("login") && role != ""
    requires role !in ["ADMINISTRADOR", "GERENTE", "DESPACHADOR", "REPARTIDOR", "CLIENTE"]
    ensures Can(Token(Some(role)), resource, action, params) == Decision(false, Some("No tienes permiso"))
  {
  }

  /** A reason accompanies exactly the denials of an unrecognised role. */
  lemma ReasonOnlyForUnknownRole(identity: Identity, resource: Option<string>, action: string,
                                 params: Option<map<string, JsValue>>)
    ensures Can(identity, resource, action, params).reason.Some? <==>
      resource != Some("login") && identity.Token? && identity.roleName.Some? &&
      identity.roleName.value != "" && ParseRole(identity.roleName.value).None?
    ensures Can(identity, resource, action, params).reason.Some? ==> !Can(identity, resource, action, params).can
  {
  }
}
