/** api/test-connection.js: checks that the credentials reach the project. */
module TestConnection {

  import opened Wrappers
  import opened Http

  const Connected := "Conexión exitosa"
  const InvalidCredentials := "Credenciales inválidas. Verifica tu email y API token."
  const ProjectNotFound := "Proyecto no encontrado. Verifica la clave del proyecto."
  const ConnectFailed := "Error al conectar con JIRA"

  /** The project resource: the three fields the reply copies and whatever else it holds. */
  datatype ProjectData = ProjectData(key: string, name: string, projectTypeKey: string, others: map<string, string>)

  /** The reply's `project`. */
  datatype ProjectInfo = ProjectInfo(key: string, name: string, projectTypeKey: string)

  /** The GET the handler sends: the project resource's URL and the Basic credentials. */
  datatype ProjectCall = ProjectCall(url: string, user: string)

  function ProjectUrl(c: Credentials): string {
    c.url + "/rest/api/3/project/" + c.projectKey
  }

  /** The message for a failed call: by the upstream status when there was a response. */
  function FailureMessage(e: UpstreamError): (m: string)
    ensures m == InvalidCredentials <==> e.HttpError? && e.status == 401
    ensures m == ProjectNotFound <==> e.HttpError? && e.status == 404
    ensures m == ConnectFailed <==> !(e.HttpError? && (e.status == 401 || e.status == 404))
  {
    if e.HttpError? && e.status == 401 then InvalidCredentials
    else if e.HttpError? && e.status == 404 then ProjectNotFound
    else ConnectFailed
  }

  function Handle(verb: string, body: Credentials, upstream: Upstream<ProjectData>): (x: Exchange<ProjectCall, ProjectInfo>)
    ensures Conforms(verb, Complete(body), x)
    ensures verb == Post && !Complete(body) ==> x.reply.message == Some(MissingParameters)
    ensures x.call.Some? ==> x.call.value == ProjectCall(ProjectUrl(body), BasicUser(body.email, body.token))
    ensures x.call.Some? && upstream.Ok? ==>
      && x.reply.success && x.reply.message == Some(Connected)
      && x.reply.data == Some(ProjectInfo(upstream.data.key, upstream.data.name, upstream.data.projectTypeKey))
    ensures x.call.Some? && upstream.Err? ==> x.reply.status == 400 && !x.reply.success
    ensures x.call.Some? && FailedWith(upstream, 401) ==> x.reply.message == Some(InvalidCredentials)
    ensures x.call.Some? && FailedWith(upstream, 404) ==> x.reply.message == Some(ProjectNotFound)
    ensures x.call.Some? && upstream.Err? && !FailedWith(upstream, 401) && !FailedWith(upstream, 404) ==>
      x.reply.message == Some(ConnectFailed)
  {
    match Guard(verb, Complete(body), MissingParameters)
    case Some(rejected) => Exchange(None, rejected)
    case None =>
      var call := Some(ProjectCall(ProjectUrl(body), BasicUser(body.email, body.token)));
      match upstream
      case Ok(p) => Exchange(call, Reply(200, true, Some(Connected), Some(ProjectInfo(p.key, p.name, p.projectTypeKey))))
      case Err(e) => Exchange(call, Reject(400, FailureMessage(e)))
  }
}
