/**
 * The voice service client: `eleven_list_voices`, `eleven_add_voice` and
 * `eleven_tts`, each with the HTTP answer abstracted to the status code and
 * the parts of the body the code reads.
 */
module ElevenLabs {
  import opened Wrappers
  import opened Errors
  import opened VoiceCatalog

  newtype byte = b: int | 0 <= b < 256

  const VoicesUrl: string := "https://api.elevenlabs.io/v1/voices"
  const TtsModel: string := "eleven_monolingual_v1"

  /** One element of the "voices" array: the "name" and "voice_id" fields, when present. */
  datatype RawVoice = RawVoice(name: Option<string>, voiceId: Option<string>)

  /** What `r.json()` gives for the voice list. */
  datatype VoicesJson = NotJson | NoVoicesKey | VoicesArray(items: seq<RawVoice>)

  datatype ListResponse = ListResponse(status: nat, reason: string, json: VoicesJson)

  /** What `r.json()` gives for the add-voice answer: no JSON at all, or an object and its "voice_id" field. */
  datatype AddVoiceJson = AddVoiceNotJson | AddVoiceObject(voiceId: Option<string>)

  /** The add-voice answer: status, `r.text`, and the decoded body. */
  datatype AddVoiceResponse = AddVoiceResponse(status: nat, text: string, json: AddVoiceJson)

  /** The speech answer: status, `r.text` and the raw `r.content`. */
  datatype TtsResponse = TtsResponse(status: nat, text: string, content: seq<byte>)

  /** The comprehension over the "voices" array; the first element missing a field raises KeyError. */
  function ParseVoices(items: seq<RawVoice>): (r: Result<seq<VoiceEntry>, Error>)
    ensures r.Ok? <==> forall i :: 0 <= i < |items| ==> items[i].name.Some? && items[i].voiceId.Some?
    ensures r.Ok? ==> |r.value| == |items|
                      && forall i :: 0 <= i < |items| ==>
                           r.value[i] == VoiceEntry(items[i].name.value, items[i].voiceId.value)
    ensures r.Err? ==> r.error == KeyError("name") || r.error == KeyError("voice_id")
  {
    if items == [] then Ok([])
    else if items[0].name.None? then Err(KeyError("name"))
    else if items[0].voiceId.None? then Err(KeyError("voice_id"))
    else
      match ParseVoices(items[1..])
      case Ok(rest) => Ok([VoiceEntry(items[0].name.value, items[0].voiceId.value)] + rest)
      case Err(e) => Err(e)
  }

  /** An element of the "voices" array that has both fields. */
  predicate Complete(v: RawVoice) {
    v.name.Some? && v.voiceId.Some?
  }

  /** Element i is the first that lacks a field. */
  predicate FirstIncomplete(items: seq<RawVoice>, i: int) {
    0 <= i < |items| && !Complete(items[i]) && forall j :: 0 <= j < i ==> Complete(items[j])
  }

  /** The KeyError for an incomplete element: "name" is read before "voice_id". */
  function MissingFieldError(v: RawVoice): (e: Error)
    requires !Complete(v)
    ensures e == KeyError("name") <==> v.name.None?
    ensures e == KeyError("voice_id") <==> v.name.Some? && v.voiceId.None?
  {
    if v.name.None? then KeyError("name") else KeyError("voice_id")
  }

  /**
   * The error of a failing comprehension is decided by the first element that
   * lacks a field, and "name" is read before "voice_id".
   */
  lemma {:induction false} ParseVoicesFirstMissing(items: seq<RawVoice>)
    ensures ParseVoices(items).Err? ==>
              exists i :: FirstIncomplete(items, i) && ParseVoices(items).error == MissingFieldError(items[i])
  {
    if items == [] {
    } else if !Complete(items[0]) {
      assert FirstIncomplete(items, 0);
    } else if ParseVoices(items).Err? {
      var rest := items[1..];
      assert ParseVoices(items).error == ParseVoices(rest).error;
      ParseVoicesFirstMissing(rest);
      var k :| FirstIncomplete(rest, k) && ParseVoices(rest).error == MissingFieldError(rest[k]);
      assert items[k + 1] == rest[k];
      forall j | 0 <= j < k + 1 ensures Complete(items[j]) {
        if j > 0 {
          assert items[j] == rest[j - 1];
        }
      }
      assert FirstIncomplete(items, k + 1);
    }
  }

  /** `raise_for_status()` raises only for a 4xx or 5xx status. */
  predicate RaisesForStatus(status: nat) {
    400 <= status < 600
  }

  /** `eleven_list_voices`. */
  function ElevenListVoices(resp: ListResponse): (r: Result<seq<VoiceEntry>, Error>)
    ensures RaisesForStatus(resp.status) ==> r == Err(HttpError(resp.status, resp.reason, VoicesUrl))
    ensures !RaisesForStatus(resp.status) && resp.json == NoVoicesKey ==> r == Ok([])
    ensures r.Ok? ==> !RaisesForStatus(resp.status) && resp.json != NotJson
  {
    if RaisesForStatus(resp.status) then Err(HttpError(resp.status, resp.reason, VoicesUrl))
    else
      match resp.json
      case NotJson => Err(External("response body is not valid JSON"))
      case NoVoicesKey => Ok([])
      case VoicesArray(items) => ParseVoices(items)
  }

  /** A list answer that decodes and names every field yields one entry per element, in order. */
  lemma ListVoicesEntries(resp: ListResponse)
    requires !RaisesForStatus(resp.status) && resp.json.VoicesArray?
    requires forall i :: 0 <= i < |resp.json.items| ==>
               resp.json.items[i].name.Some? && resp.json.items[i].voiceId.Some?
    ensures var r := ElevenListVoices(resp);
            r.Ok? && |r.value| == |resp.json.items|
            && forall i :: 0 <= i < |r.value| ==> r.value[i].voiceId == resp.json.items[i].voiceId.value
  {
  }

  /** `eleven_add_voice`: status 200 yields the new voice id, any other status raises "<status>: <body>". */
  function ElevenAddVoice(resp: AddVoiceResponse): (r: Result<string, Error>)
    ensures r.Ok? <==> resp.status == 200 && resp.json.AddVoiceObject? && resp.json.voiceId.Some?
    ensures r.Ok? ==> r.value == resp.json.voiceId.value
    ensures resp.status == 200 && resp.json.AddVoiceObject? && resp.json.voiceId.None? ==>
              r == Err(KeyError("voice_id"))
    ensures resp.status != 200 ==>
              r == Err(StatusError(resp.status, resp.text))
              && Message(r.error) == Text.NatToString(resp.status) + ": " + resp.text
  {
    if resp.status == 200 then
      match resp.json
      case AddVoiceNotJson => Err(External("response body is not valid JSON"))
      case AddVoiceObject(Some(id)) => Ok(id)
      case AddVoiceObject(None) => Err(KeyError("voice_id"))
    else Err(StatusError(resp.status, resp.text))
  }

  /** The files on disk, by path. */
  type Files = map<string, seq<byte>>

  datatype TtsWritten = TtsWritten(path: string, files: Files)

  /**
   * `eleven_tts`: status 200 writes the payload verbatim to `outFile` and
   * returns the path; any other status writes nothing and raises.
   */
  function ElevenTts(resp: TtsResponse, outFile: string, files: Files): (r: Result<TtsWritten, Error>)
    ensures r.Ok? <==> resp.status == 200
    ensures r.Ok? ==> r.value.path == outFile && outFile in r.value.files
                      && r.value.files[outFile] == resp.content
                      && forall p :: p != outFile ==>
                           (p in r.value.files <==> p in files) && (p in files ==> r.value.files[p] == files[p])
    ensures r.Err? ==> r.error == StatusError(resp.status, resp.text)
  {
    if resp.status == 200 then Ok(TtsWritten(outFile, files[outFile := resp.content]))
    else Err(StatusError(resp.status, resp.text))
  }

  /** A 400 answer to the add-voice call yields no id and an error whose text starts with "400". */
  lemma AddVoiceBadRequest(text: string, json: AddVoiceJson)
    ensures var r := ElevenAddVoice(AddVoiceResponse(400, text, json));
            r.Err? && Message(r.error) == "400: " + text
  {
    BadRequestMessage(text);
  }

  /** A 200 answer with body {"voice_id": "v123"} yields the id "v123". */
  lemma AddVoiceCreated(text: string)
    ensures ElevenAddVoice(AddVoiceResponse(200, text, AddVoiceObject(Some("v123")))) == Ok("v123")
  {
  }
}
