/** What one webhook request does to the outside world: the effects it
    performs, in order, and how it ends. */
module Outcomes {
  import opened JsonValue

  /** A side effect of `trigger`, recorded with the arguments it was given. */
  datatype Effect =
    | Clone(args: seq<string>)                 // git clone <args>
    | Archive(args: seq<string>, cwd: string)  // git archive <args>, run in cwd
    | Upload(tarball: string, bucket: string)  // upload(tarball, bucket)
    | Submit(project: string, config: map<string, Json>)  // submit(project, config)

  /** The exception that ends a failed request, by where it is raised. */
  datatype Fault =
    | MissingHeader(header: string)        // KeyError on req.headers
    | MalformedPayload                     // json.loads raises on the body
    | MissingEnv(variable: string)         // KeyError on os.environ
    | BadField(field: string, error: SubscriptError)  // an event accessor raises
    | NonTextField(field: string)          // an event field that is not a JSON string
    | ConfigUnreadable                     // cloudbuild.yaml cannot be opened or parsed
    | ConfigNotMapping                     // dict.update rejects the loaded document
    | SourceNotMapping                     // config['source']['object'] = … raises
    | EffectFailed(effect: Effect)         // a collaborator raises

  /** How `trigger` ends: the silent no-build return, an exception escaping
      to the caller after the effects in `trace`, or a completed submission. */
  datatype Outcome =
    | Ignored
    | Failed(trace: seq<Effect>, fault: Fault)
    | Done(trace: seq<Effect>)
  {
    /** The effects performed, whatever the ending. */
    function Effects(): seq<Effect> {
      match this
      case Ignored => []
      case Failed(t, _) => t
      case Done(t) => t
    }
  }
}
