/** The vocabulary both builders' Call decisions are stated in: what the test
    passed as a destination, which codec a response selects, what the status
    check decides, and how a call ends. Transport, body reading and the image
    and JSON codecs are foreign code; their verdicts are inputs. */
module Outcomes {
  import Http

  /** The `interface{}` value a test passes to receive the decoded body:
      the nil interface, or a value of some dynamic type, of which the model
      keeps whether it is an `io.Writer` and whether it is a `*web.Error`. */
  datatype Destination = Nil | Value(isWriter: bool, isWebError: bool)

  predicate IsWriter(d: Destination)
  {
    d.Value? && d.isWriter
  }

  datatype Codec = Png | Jpeg | Gif | Json

  /** What the status code and content type decide before the body is read. */
  datatype Plan = Return | FailOnStatus | DecodeWith(codec: Codec)

  datatype Cause = TransportFailed | BodyUnreadable | StatusMismatch | DecodeFailed | EncodeFailed

  /** How a call ends: it returns, `t.Fatal` ends the test, or a failed type
      assertion panics. */
  datatype Outcome = Returned | Fatal(cause: Cause) | Panicked

  /** What the transport and the foreign codecs produced for one exchange. */
  datatype Exchange = Exchange(
    transportOk: bool,        // `http.DefaultClient.Do` returned no error
    statusCode: int,
    header: Http.Multimap,    // the response headers, keys already canonical
    bodyReadOk: bool,         // `ioutil.ReadAll(resp.Body)` succeeded
    decodeOk: bool,           // the selected decoder accepted the body
    encodeOk: bool)           // the image encoder wrote into the destination

  /** `resp.Header.Get("content-type")`: looked up under the canonical key. */
  function ContentType(ex: Exchange): (ct: string)
    ensures Http.ValuesAt(ex.header, "Content-Type") == [] ==> ct == ""
    ensures Http.ValuesAt(ex.header, "Content-Type") != [] ==> ct == Http.ValuesAt(ex.header, "Content-Type")[0]
  {
    Http.FirstValue(ex.header, "Content-Type")
  }

  /** The `switch` on the content type: only the three exact image types pick
      an image codec; anything else, "" and "image/png; q=1" included, is JSON. */
  function CodecFor(contentType: string): (c: Codec)
    ensures c == Png <==> contentType == "image/png"
    ensures c == Jpeg <==> contentType == "image/jpeg"
    ensures c == Gif <==> contentType == "image/gif"
    ensures c == Json <==> contentType !in {"image/png", "image/jpeg", "image/gif"}
  {
    match contentType
    case "image/png" => Png
    case "image/jpeg" => Jpeg
    case "image/gif" => Gif
    case _ => Json
  }

  /** Carrying out a plan once the response is in hand: a status failure
      reads the body for the report and is fatal either way; a decode either
      fails fatally or succeeds, and an image is then re-encoded into the
      destination, which must be an `io.Writer`. */
  function Carry(p: Plan, dest: Destination, ex: Exchange): (o: Outcome)
    ensures p == Return ==> o == Returned
    ensures p == FailOnStatus ==> o == Fatal(if ex.bodyReadOk then StatusMismatch else BodyUnreadable)
    ensures p.DecodeWith? && !ex.decodeOk ==> o == Fatal(DecodeFailed)
    ensures o == Panicked <==> p.DecodeWith? && p.codec != Json && ex.decodeOk && !IsWriter(dest)
    ensures o == Fatal(EncodeFailed) <==> p.DecodeWith? && p.codec != Json && ex.decodeOk && IsWriter(dest) && !ex.encodeOk
    ensures o == Returned <==> p == Return || (p.DecodeWith? && ex.decodeOk && (p.codec == Json || (IsWriter(dest) && ex.encodeOk)))
  {
    match p
    case Return => Returned
    case FailOnStatus => Fatal(if ex.bodyReadOk then StatusMismatch else BodyUnreadable)
    case DecodeWith(c) =>
      if !ex.decodeOk then Fatal(DecodeFailed)
      else if c == Json then Returned
      else if !IsWriter(dest) then Panicked
      else if !ex.encodeOk then Fatal(EncodeFailed)
      else Returned
  }
}
