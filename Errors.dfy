/**
 * The exceptions the application's background tasks can raise, and the text
 * `f"{e}"` gives for each, which is what the intended error handler would
 * show on the status line.
 */
module Errors {
  import opened Text

  datatype Error =
      /** `RuntimeError(f"{status}: {text}")` raised by the add-voice and speech calls. */
    | StatusError(status: nat, body: string)
      /** `requests.HTTPError` raised by `raise_for_status` on a 4xx or 5xx answer. */
    | HttpError(status: nat, reason: string, url: string)
      /** `KeyError(key)` from a missing field in a decoded JSON answer. */
    | KeyError(key: string)
      /** Anything raised by code outside the model (file system, PDF parser, chat client, transport). */
    | External(detail: string)

  /** `str(e)` for each kind of error. */
  function Message(e: Error): (msg: string) {
    match e
    case StatusError(status, body) => NatToString(status) + ": " + body
    case HttpError(status, reason, url) =>
      NatToString(status) + (if status < 500 then " Client Error: " else " Server Error: ")
        + reason + " for url: " + url
    case KeyError(key) => "'" + key + "'"
    case External(detail) => detail
  }

  /** The message of a status error starts with the status code and carries the body after ": ". */
  lemma StatusErrorMessage(status: nat, body: string)
    ensures var m := Message(StatusError(status, body));
            var code := NatToString(status);
            |m| == |code| + 2 + |body| && m[..|code|] == code && m[|code|..|code| + 2] == ": "
            && m[|code| + 2..] == body
  {
  }

  /** A 400 answer from a voice-service call yields an error whose text begins with "400". */
  lemma BadRequestMessage(body: string)
    ensures Message(StatusError(400, body)) == "400: " + body
  {
    assert NatToString(4) == "4";
    assert NatToString(40) == "40";
    assert NatToString(400) == "400";
  }
}
