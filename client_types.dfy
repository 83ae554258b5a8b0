/** The values the browser client passes between its components: a detection
    as the client receives it, a point on the page, what the viewer hands to
    the overlay once the image has loaded, and the failure of a request to
    the backend as the client code inspects it. */
module ClientTypes {
  import opened Common
  import Schemas

  datatype Point = Point(x: real, y: real)

  /** A detection object in the client. Nothing guarantees that the `bbox`
      property is present, so it is optional here. */
  datatype Detection = Detection(kind: string, confidence: real, bbox: Option<seq<real>>)

  /** A detection as the backend's JSON delivers it: the bbox is always there. */
  function FromServer(d: Schemas.Detection): (c: Detection)
    ensures c.bbox == Some(d.bbox)
    ensures c.kind == d.kind && c.confidence == d.confidence
  {
    Detection(d.kind, d.confidence, Some(d.bbox))
  }

  function FromServerList(ds: seq<Schemas.Detection>): (cs: seq<Detection>)
    ensures |cs| == |ds|
    ensures forall i :: 0 <= i < |ds| ==> cs[i] == FromServer(ds[i])
  {
    seq(|ds|, i requires 0 <= i < |ds| => FromServer(ds[i]))
  }

  /** What the viewer passes to `onCanvasReady`: the loaded image's natural
      size, the fit scale and the image's offset inside the container. */
  datatype ImageData = ImageData(imgWidth: nat, imgHeight: nat, scale: real, position: Point)

  /** A rejected request as the client code reads it: `err.response?.status`
      and `err.response?.data?.message`. Both are absent when no response
      arrived. */
  datatype ApiError = ApiError(status: Option<int>, message: Option<string>)

  /** `err.response?.data?.message || fallback`: an absent or empty message
      gives the fallback. */
  function ErrorText(e: ApiError, fallback: string): (t: string)
    ensures e.message.Some? && e.message.value != "" ==> t == e.message.value
    ensures e.message.None? || e.message.value == "" ==> t == fallback
  {
    if e.message.Some? && e.message.value != "" then e.message.value else fallback
  }

  /** The client's view of an error reply of the backend: FastAPI sends the
      body `{"detail": …}`, which has no `message` property. */
  function FromHttpError(status: int, detail: string): (e: ApiError)
    ensures e.status == Some(status) && e.message.None?
  {
    ApiError(Some(status), None)
  }

  /** Whatever the backend answers with an error status, the client shows its
      own fallback text, never the backend's detail. */
  lemma BackendDetailNeverShown(status: int, detail: string, fallback: string)
    ensures ErrorText(FromHttpError(status, detail), fallback) == fallback
  {
  }
}
