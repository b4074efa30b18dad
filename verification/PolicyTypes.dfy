/** The vocabulary of filesystem policies. */
module PolicyTypes {
  import opened Options
  import opened PolicyScope

  datatype Access = FsRead | FsWrite

  /** Every access belongs to the one area that holds its fallback. */
  datatype Area = ReadArea | WriteArea

  function AreaOf(a: Access): Area {
    if a.FsRead? then ReadArea else WriteArea
  }

  function AccessOf(area: Area): (a: Access)
    ensures AreaOf(a) == area
  {
    if area.ReadArea? then FsRead else FsWrite
  }

  datatype Response = Allowed | Denied

  datatype Lifetime = Once | Session | Local | Global

  predicate Persisted(l: Lifetime) {
    l.Local? || l.Global?
  }

  datatype Fallback = Allow | Deny | AskUser | AskLlm

  /** The automated answer of a fallback, if it has one. */
  function Automatic(f: Fallback): Option<Response> {
    match f
    case Allow => Some(Allowed)
    case Deny => Some(Denied)
    case _ => None
  }

  datatype Status = Status(lifetime: Lifetime, response: Response, reason: string)

  datatype Policy = Policy(pattern: Path, info: map<Access, Status>)

  datatype Source = System | ExistingUserPolicy | NewUserDecision | NewAgentDecision | NewDefaultLlmDecision

  datatype Verdict = Verdict(uri: Path, access: Access, pattern: Path, status: Status, source: Source)
}
