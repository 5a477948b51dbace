/** The media relay's HTTP API as the broadcaster sees it. A request either gets no
    response at all, or a status and a body; the JSON bodies that the broadcaster reads
    are given here already parsed, with every field the code looks at marked as
    missing, a string, or some other JSON value. */
module Relay {
  import opened Wrappers

  /** The broadcaster's error taxonomy: why one of its operations threw. It is declared
      here, beside the replies, because most of its cases classify a relay reply; the
      pipeline cases are raised by `Registry.Broadcaster.PublishAudio`. */
  datatype Failure =
    | InvalidArgument        // "max_readers must be >= 0"
    | HttpError              // "Http error: ...": no response object
    | StatusError(status: int)  // "<status> <error>": the relay answered with another status
    | InvalidJson            // a success body without the expected shape
    | PipelineBuildError     // the push pipeline could not be created or linked
    | PipelineStartError     // the push pipeline refused the playing state

  /** The response to one request: none (a transport failure), or a status and a body. */
  datatype Reply<+T> = Unreachable | Replied(status: int, body: T)

  const OK_200: int := 200
  const BAD_REQUEST_400: int := 400

  /** One member of a JSON object, as `at(key)` and a conversion to string see it. */
  datatype Field = Missing | Str(s: string) | NotString

  /** The body of `GET /v3/config/global/get`. */
  datatype GlobalConf =
    | UnparsableConf
    | GlobalConf(rtspAddress: Field, rtmpAddress: Field, hlsAddress: Field,
                 webrtcAddress: Field, srtAddress: Field)

  /** The body of `GET /v3/paths/list`: `{items: [{name, readers: [{id, type}]}]}`. */
  datatype PathsDoc = UnparsablePaths | PathsDoc(items: Option<seq<PathItem>>)

  datatype PathItem = PathItem(name: Field, readers: Option<seq<ReaderEntry>>)

  datatype ReaderEntry = ReaderEntry(id: Field, kind: Field)

  /** The common check of a reply: no response is an `HttpError`, any status other
      than 200 a `StatusError`. */
  function CheckOk<T>(reply: Reply<T>): (r: Outcome<Failure>)
    ensures r.Pass? <==> reply.Replied? && reply.status == OK_200
    ensures reply.Unreachable? ==> r == Fail(HttpError)
    ensures reply.Replied? && reply.status != OK_200 ==> r == Fail(StatusError(reply.status))
  {
    match reply
    case Unreachable => Fail(HttpError)
    case Replied(status, _) => if status == OK_200 then Pass else Fail(StatusError(status))
  }
}
