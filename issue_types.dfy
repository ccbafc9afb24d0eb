/** api/issue-types.js: the names of the issue types a project offers. */
module IssueTypes {

  import opened Wrappers
  import opened Text
  import opened Http

  const ProjectMissing := "Proyecto no encontrado"
  const LookupFailed := "Error al obtener tipos de issue"

  datatype IssueType = IssueType(id: string, name: string, description: string)

  /** A project of the create-metadata response; `issuetypes` is absent in a malformed one. */
  datatype ProjectMeta = ProjectMeta(key: string, issuetypes: Option<seq<IssueType>>)

  /** The create-metadata response body; `projects` is absent in a malformed one. */
  datatype CreateMeta = CreateMeta(projects: Option<seq<ProjectMeta>>)

  /** The GET the handler sends. */
  datatype MetaCall = MetaCall(url: string, user: string)

  function MetaUrl(c: Credentials): string {
    c.url + "/rest/api/3/issue/createmeta?projectKeys=" + c.projectKey + "&expand=projects.issuetypes.fields"
  }

  function TypeName(t: IssueType): string {
    t.name
  }

  /** The reply's `types`: one name per issue type, in order. */
  function TypeNames(types: seq<IssueType>): (names: seq<string>)
    ensures |names| == |types|
    ensures forall i :: 0 <= i < |types| ==> names[i] == types[i].name
  {
    Map(TypeName, types)
  }

  /** The response has a first project whose issue types can be read. */
  predicate Readable(m: CreateMeta) {
    m.projects.Some? && |m.projects.value| > 0 && m.projects.value[0].issuetypes.Some?
  }

  function Handle(verb: string, body: Credentials, upstream: Upstream<CreateMeta>): (x: Exchange<MetaCall, seq<string>>)
    ensures Conforms(verb, Complete(body), x)
    ensures verb == Post && !Complete(body) ==> x.reply.message == Some(MissingParameters)
    ensures x.call.Some? ==> x.call.value == MetaCall(MetaUrl(body), BasicUser(body.email, body.token))
    ensures x.call.Some? && upstream.Ok? && upstream.data.projects == Some([]) ==>
      x.reply.status == 404 && x.reply.message == Some(ProjectMissing)
    ensures x.call.Some? && upstream.Ok? && Readable(upstream.data) ==>
      x.reply.success && x.reply.message.None? &&
      var types := upstream.data.projects.value[0].issuetypes.value;
      |x.reply.data.value| == |types| &&
      forall i :: 0 <= i < |types| ==> x.reply.data.value[i] == types[i].name
    ensures x.call.Some? && (upstream.Err? || (upstream.data.projects != Some([]) && !Readable(upstream.data))) ==>
      x.reply.status == 400 && x.reply.message == Some(LookupFailed)
  {
    match Guard(verb, Complete(body), MissingParameters)
    case Some(rejected) => Exchange(None, rejected)
    case None =>
      var call := Some(MetaCall(MetaUrl(body), BasicUser(body.email, body.token)));
      match upstream
      case Err(_) => Exchange(call, Reject(400, LookupFailed))
      case Ok(meta) =>
        if meta.projects.None? then Exchange(call, Reject(400, LookupFailed))
        else if |meta.projects.value| == 0 then Exchange(call, Reject(404, ProjectMissing))
        else
          var project := meta.projects.value[0];
          if project.issuetypes.None? then Exchange(call, Reject(400, LookupFailed))
          else Exchange(call, Reply(200, true, None, Some(TypeNames(project.issuetypes.value))))
  }
}
