/**
 * The persona router: GET of the list or of one persona by id; any other
 * method or path is 404 `{ message: "Not found" }`.
 */
module PersonasRouter {
  import opened Text
  import opened Js
  import opened Http
  import opened PersonasController

  datatype PersonaRoute =
    | GetPersonasRoute  // GET .../api/personas
    | GetPersonaRoute   // GET .../api/personas/<digits>

  /** The guard of each rule. */
  predicate Matches(req: Request, r: PersonaRoute) {
    match r
    case GetPersonasRoute => MethodAndSuffix(req, "GET", "/api/personas")
    case GetPersonaRoute => req.httpMethod == Some("GET") && MatchesId(req.path, "/api/personas/", "")
  }

  /** No path ends both in `/api/personas` and in `/api/personas/<digits>`. */
  lemma RulesDisjoint(req: Request)
    ensures !(Matches(req, GetPersonasRoute) && Matches(req, GetPersonaRoute))
  {
    if Matches(req, GetPersonasRoute) {
      EndsWithAt(req.path.value, "/api/personas", 1);
    }
    if Matches(req, GetPersonaRoute) {
      IdTail(req.path.value, "/api/personas/", "");
    }
  }

  /** `handler`'s guards: a route exactly when its rule matches; only GET is ever routed. */
  function Dispatch(req: Request): (r: Option<PersonaRoute>)
    ensures forall x :: r == Some(x) <==> Matches(req, x)
    ensures r.Some? ==> req.httpMethod == Some("GET")
  {
    RulesDisjoint(req);
    if MethodAndSuffix(req, "GET", "/api/personas") then Some(GetPersonasRoute)
    else if req.httpMethod == Some("GET") && MatchesId(req.path, "/api/personas/", "") then Some(GetPersonaRoute)
    else None
  }

  /** `handler`: the v2-then-v1 method and path, then the matching controller. */
  function Handle(ev: Event, service: PersonaService): (r: Outcome<Response>)
    ensures Dispatch(Normalise(ev)).None? ==> r == Returned(NotFound)
    ensures Matches(Normalise(ev), GetPersonasRoute) ==> r == Returned(GetPersonas(service))
    ensures Matches(Normalise(ev), GetPersonaRoute) ==> r == GetPersona(ev, service)
  {
    match Dispatch(Normalise(ev))
    case None => Returned(NotFound)
    case Some(GetPersonasRoute) => Returned(GetPersonas(service))
    case Some(GetPersonaRoute) => GetPersona(ev, service)
  }

  /** Any method but GET is 404, whatever the path. */
  lemma OnlyGet(ev: Event, service: PersonaService)
    requires Normalise(ev).httpMethod != Some("GET")
    ensures Handle(ev, service) == Returned(NotFound)
  {
  }

  /** A v2 GET of `<stage>/api/personas/<n>` asks the service for persona n. */
  lemma GetPersonaEndToEnd(ev: Event, stage: string, n: nat, service: PersonaService)
    requires ev.contextMethod == Some("GET") && ev.rawPath == Some(stage + "/api/personas/" + DecimalText(n))
    ensures Handle(ev, service) == Returned(Settle(service(GetPersonaCall(n)), 200, p => Payload(p), "Failed to fetch persona"))
  {
    PersonaIdRoundTrip(stage, n);
    GetPersonaAsksForId(ev, stage, n, service);
  }
}
