/**
 * The persona controllers: list every persona, or fetch one by the id at
 * the end of `rawPath`. getPersona reads `rawPath` only, so an event
 * without one (payload format 1.0) makes it throw.
 */
module PersonasController {
  import opened Text
  import opened Js
  import opened Http

  /** A call to the persona service. */
  datatype PersonaCall = GetPersonasCall | GetPersonaCall(personaId: nat)

  type PersonaService = PersonaCall -> ServiceOutcome

  const InvalidPersonaId: Response := Response(400, ErrorBody("Invalid persona ID"))

  /** `getPersonas`: 200 with the list, or 500 "Failed to fetch personas". */
  function GetPersonas(service: PersonaService): (r: Response)
    ensures r.status in {200, 500}
    ensures service(GetPersonasCall).Resolved? ==> r == Response(200, Payload(service(GetPersonasCall).value))
    ensures service(GetPersonasCall).Rejected? ==> r == Response(500, ErrorBody("Failed to fetch personas"))
  {
    Settle(service(GetPersonasCall), 200, ps => Payload(ps), "Failed to fetch personas")
  }

  /** The persona id at the end of a path, `/api/personas/<digits>`. */
  function PersonaId(path: string): Option<nat> {
    IdFrom(path, "/api/personas/", "")
  }

  /** A persona id written at the end of the path is the one read back, whatever precedes it. */
  lemma PersonaIdRoundTrip(stage: string, n: nat)
    ensures PersonaId(stage + "/api/personas/" + DecimalText(n)) == Some(n)
  {
    assert stage + "/api/personas/" + DecimalText(n) == stage + "/api/personas/" + DecimalText(n) + "";
    IdFromDecimal(stage, "/api/personas/", n, "");
  }

  /**
   * `getPersona`: without rawPath it throws; without an id at its end, 400
   * and the service is not called; otherwise the service is asked for that
   * id, and the answer is 200 with the persona or 500.
   */
  function GetPersona(ev: Event, service: PersonaService): (r: Outcome<Response>)
    ensures r.Threw? <==> ev.rawPath.None?
    ensures r.Threw? ==> r.error == TypeError
    ensures r.Returned? ==> r.value.status in {200, 400, 500}
    ensures r.Returned? ==>
      (r.value == InvalidPersonaId <==> PersonaId(ev.rawPath.value).None?)
    ensures r.Returned? && PersonaId(ev.rawPath.value).Some? ==>
      var o := service(GetPersonaCall(PersonaId(ev.rawPath.value).value));
      (o.Resolved? ==> r.value == Response(200, Payload(o.value)))
      && (o.Rejected? ==> r.value == Response(500, ErrorBody("Failed to fetch persona")))
  {
    match ev.rawPath
    case None => Threw(TypeError)
    case Some(path) =>
      match PersonaId(path)
      case None => Returned(InvalidPersonaId)
      case Some(id) => Returned(Settle(service(GetPersonaCall(id)), 200, p => Payload(p), "Failed to fetch persona"))
  }

  /** Without an id the answer is 400 whatever the service would have done. */
  lemma InvalidPersonaIdSkipsService(ev: Event, s1: PersonaService, s2: PersonaService)
    requires ev.rawPath.Some? && PersonaId(ev.rawPath.value).None?
    ensures GetPersona(ev, s1) == GetPersona(ev, s2) == Returned(InvalidPersonaId)
  {
  }

  /** `.../api/personas/n` asks the service for persona n. */
  lemma GetPersonaAsksForId(ev: Event, stage: string, n: nat, service: PersonaService)
    requires ev.rawPath == Some(stage + "/api/personas/" + DecimalText(n))
    ensures GetPersona(ev, service) == Returned(Settle(service(GetPersonaCall(n)), 200, p => Payload(p), "Failed to fetch persona"))
  {
    PersonaIdRoundTrip(stage, n);
  }
}
