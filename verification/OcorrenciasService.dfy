/** The incidents service: the profile lookup that never throws, the
    user-id guard in front of the list request, the payload renaming and
    defaults of the create request, and the handling of ok and non-ok replies.
    The network itself is abstracted: each fetch is represented by the reply
    it produced, and each operation returns the requests it issued. */
module OcorrenciasService {
  import opened Wrappers
  import opened Incidents

  const NotIdentifiedMessage := "Usuário não identificado. Tente fazer login novamente."
  const ListFailedMessage := "Falha ao buscar ocorrências"
  const RegisterFailedMessage := "Falha ao registrar ocorrência"

  /** What one `fetch` produced: no connection at all, or a response with its
      `ok` flag, its body as text, and its body parsed as JSON (`None` when
      the body does not parse). */
  datatype Reply<T> = ConnectionFailed | Response(ok: bool, text: string, json: Option<T>)

  /** The JSON of `/user/profile`: JavaScript `null`, or an object whose `id`
      may be missing. */
  datatype ProfileJson = Null | Profile(id: Option<string>)

  /** The body of the create request, with the backend's key names. A field
      read straight from the input is `None` when the input lacks it (the key
      is then dropped from the JSON). */
  datatype Payload = Payload(
    categoria: Option<string>,
    subcategoria: string,
    prioridade: Option<string>,
    descricao: string,
    endereco: Option<string>,
    ponto_referencia: string,
    codigo_viatura: Option<string>,
    gps: seq<real>,
    id_equipes: seq<string>)

  /** A request the service sends. */
  datatype Request = GetProfile | GetOccurrences(userId: string) | PostOccurrence(payload: Payload)

  /** What the service throws: an `Error` with a message, a connection
      failure, or a body that is not JSON. */
  datatype ServiceError = Thrown(message: string) | ConnectionError | MalformedBody

  /** The requests an operation issued, in order, and what it returned or threw. */
  datatype Call<T> = Call(requests: seq<Request>, result: Result<T, ServiceError>)

  /** The object handed to `registerIncident`; every key may be missing. */
  datatype IncidentInput = IncidentInput(
    endereco: Option<string>,
    pontoReferencia: Option<string>,
    tipo: Option<string>,
    subtipo: Option<string>,
    prioridade: Option<string>,
    descricao: Option<string>,
    codigoViatura: Option<string>,
    gps: Option<seq<real>>,
    idEquipes: Option<seq<string>>)

  /** What a successful create returns: the created object the backend echoed,
      or `{success: true}` when the body is not JSON. */
  datatype Created = Echoed(incident: Incident) | SuccessFlag

  /** `getUserProfile`: the parsed profile on an ok reply, `null` on a non-ok
      status, a connection error or an unparsable body. It never throws. */
  function UserProfile(reply: Reply<ProfileJson>): (profile: ProfileJson)
    ensures profile != Null ==> reply.Response? && reply.ok && reply.json == Some(profile)
    ensures reply.Response? && reply.ok && reply.json.Some? ==> profile == reply.json.value
  {
    match reply
    case ConnectionFailed => Null
    case Response(ok, _, json) => if ok then json.GetOr(Null) else Null
  }

  /** The id that passes `!userProfile || !userProfile.id`: present and not
      the empty string. */
  function IdentifiedUser(profile: ProfileJson): (userId: Option<string>)
    ensures userId.Some? <==> profile.Profile? && profile.id.Some? && profile.id.value != ""
    ensures userId.Some? ==> userId == profile.id
  {
    if profile.Profile? && profile.id.Some? && profile.id.value != "" then profile.id else None
  }

  /** `text || fallback`: the response text, or the fixed message when the
      text is empty. */
  function ErrorText(text: string, fallback: string): (message: string)
    ensures text != "" ==> message == text
    ensures text == "" ==> message == fallback
    ensures fallback != "" ==> message != ""
  {
    if text != "" then text else fallback
  }

  /** `getMyIncidents`: the profile lookup, the id guard, then the list
      request for that id. */
  function GetMyIncidents(profileReply: Reply<ProfileJson>, listReply: Reply<seq<Incident>>): (call: Call<seq<Incident>>)
    ensures IdentifiedUser(UserProfile(profileReply)).None? ==>
              call == Call([GetProfile], Err(Thrown(NotIdentifiedMessage)))
    ensures IdentifiedUser(UserProfile(profileReply)).Some? ==>
              call.requests == [GetProfile, GetOccurrences(IdentifiedUser(UserProfile(profileReply)).value)]
    ensures call.result.Ok? <==>
              IdentifiedUser(UserProfile(profileReply)).Some? && listReply.Response? && listReply.ok && listReply.json.Some?
    ensures call.result.Ok? ==> call.result.value == listReply.json.value
    ensures IdentifiedUser(UserProfile(profileReply)).Some? && listReply.Response? && !listReply.ok ==>
              call.result == Err(Thrown(ErrorText(listReply.text, ListFailedMessage)))
  {
    match IdentifiedUser(UserProfile(profileReply))
    case None => Call([GetProfile], Err(Thrown(NotIdentifiedMessage)))
    case Some(userId) =>
      var requests := [GetProfile, GetOccurrences(userId)];
      match listReply
      case ConnectionFailed => Call(requests, Err(ConnectionError))
      case Response(ok, text, json) =>
        if !ok then Call(requests, Err(Thrown(ErrorText(text, ListFailedMessage))))
        else if json.None? then Call(requests, Err(MalformedBody))
        else Call(requests, Ok(json.value))
  }

  /** The object literal of `registerIncident`: keys renamed to the backend's
      names, `''` for a missing or empty optional text, `[0, 0]` for a missing
      `gps`, and no teams whatever the input holds. */
  function BuildPayload(input: IncidentInput): (p: Payload)
    ensures p.categoria == input.tipo && p.prioridade == input.prioridade
    ensures p.endereco == input.endereco && p.codigo_viatura == input.codigoViatura
    ensures (p.subcategoria == "") <==> (input.subtipo.None? || input.subtipo.value == "")
    ensures input.subtipo.Some? ==> p.subcategoria == input.subtipo.value
    ensures (p.descricao == "") <==> (input.descricao.None? || input.descricao.value == "")
    ensures input.descricao.Some? ==> p.descricao == input.descricao.value
    ensures (p.ponto_referencia == "") <==> (input.pontoReferencia.None? || input.pontoReferencia.value == "")
    ensures input.pontoReferencia.Some? ==> p.ponto_referencia == input.pontoReferencia.value
    ensures input.gps.Some? ==> p.gps == input.gps.value
    ensures input.gps.None? ==> p.gps == [0.0, 0.0]
    ensures p.id_equipes == []
  {
    Payload(
      categoria := input.tipo,
      subcategoria := input.subtipo.GetOr(""),
      prioridade := input.prioridade,
      descricao := input.descricao.GetOr(""),
      endereco := input.endereco,
      ponto_referencia := input.pontoReferencia.GetOr(""),
      codigo_viatura := input.codigoViatura,
      gps := input.gps.GetOr([0.0, 0.0]),
      id_equipes := [])
  }

  /** The input a payload came from, with every optional key present and no
      teams: the partner of `BuildPayload`. */
  function InputOf(p: Payload): IncidentInput
  {
    IncidentInput(
      endereco := p.endereco,
      pontoReferencia := Some(p.ponto_referencia),
      tipo := p.categoria,
      subtipo := Some(p.subcategoria),
      prioridade := p.prioridade,
      descricao := Some(p.descricao),
      codigoViatura := p.codigo_viatura,
      gps := Some(p.gps),
      idEquipes := None)
  }

  /** Nothing but the teams is lost: an input whose optional keys are all
      present comes back from its payload unchanged, apart from `idEquipes`. */
  lemma PayloadKeepsInput(input: IncidentInput)
    requires input.pontoReferencia.Some? && input.subtipo.Some? && input.descricao.Some? && input.gps.Some?
    ensures InputOf(BuildPayload(input)) == input.(idEquipes := None)
  {
  }

  /** Every payload the service can send is the payload of its own input. */
  lemma PayloadOfInputOf(p: Payload)
    requires p.id_equipes == []
    ensures BuildPayload(InputOf(p)) == p
  {
  }

  /** A missing optional text and an empty one give the same payload. */
  lemma MissingAndEmptyAgree(input: IncidentInput)
    ensures BuildPayload(input.(subtipo := None, descricao := None, pontoReferencia := None))
         == BuildPayload(input.(subtipo := Some(""), descricao := Some(""), pontoReferencia := Some("")))
  {
  }

  /** `registerIncident`: one POST with the built payload; a non-ok reply
      throws its text (or the fixed message), an ok reply returns the parsed
      body, or `{success: true}` when the body is not JSON. */
  function RegisterIncident(input: IncidentInput, reply: Reply<Incident>): (call: Call<Created>)
    ensures call.requests == [PostOccurrence(BuildPayload(input))]
    ensures call.result.Ok? <==> reply.Response? && reply.ok
    ensures reply.Response? && !reply.ok ==>
              call.result == Err(Thrown(ErrorText(reply.text, RegisterFailedMessage)))
    ensures reply.Response? && reply.ok && reply.json.None? ==> call.result == Ok(SuccessFlag)
    ensures reply.Response? && reply.ok && reply.json.Some? ==> call.result == Ok(Echoed(reply.json.value))
  {
    var requests := [PostOccurrence(BuildPayload(input))];
    match reply
    case ConnectionFailed => Call(requests, Err(ConnectionError))
    case Response(ok, text, json) =>
      if !ok then Call(requests, Err(Thrown(ErrorText(text, RegisterFailedMessage))))
      else if json.None? then Call(requests, Ok(SuccessFlag))
      else Call(requests, Ok(Echoed(json.value)))
  }

  /** A thrown error always carries a non-empty message, whichever of the two
      calls threw it. */
  lemma ThrownMessagesNonEmpty(profileReply: Reply<ProfileJson>, listReply: Reply<seq<Incident>>,
                               input: IncidentInput, createReply: Reply<Incident>)
    ensures GetMyIncidents(profileReply, listReply).result.Err? &&
            GetMyIncidents(profileReply, listReply).result.error.Thrown? ==>
              GetMyIncidents(profileReply, listReply).result.error.message != ""
    ensures RegisterIncident(input, createReply).result.Err? &&
            RegisterIncident(input, createReply).result.error.Thrown? ==>
              RegisterIncident(input, createReply).result.error.message != ""
  {
  }
}
