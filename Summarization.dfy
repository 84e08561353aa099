/**
 * `summarize_pdf`: extract the document's text, cap it at 180000 characters
 * with a fixed marker, embed it with the style instruction in a two-message
 * chat request, and return the service's reply with surrounding whitespace
 * stripped.
 */
module Summarization {
  import opened Wrappers
  import opened Text
  import opened Seqs
  import opened Errors
  import opened Extraction

  const MaxInputChars: nat := 180000
  const TruncationMarker: string := "\n[Truncated due to size]"
  const ChatModel: string := "gpt-4.1-mini"
  const SystemPrompt: string :=
    "You are a helpful assistant that summarizes documents. Only use the provided content; do not invent facts."

  /** The size cap applied before the text is sent. */
  function Truncate(text: string): (r: string)
    ensures |r| <= MaxInputChars + |TruncationMarker|
    ensures |text| <= MaxInputChars ==> r == text
    ensures |text| > MaxInputChars ==>
              |r| == MaxInputChars + |TruncationMarker|
              && r[..MaxInputChars] == text[..MaxInputChars]
              && r[MaxInputChars..] == TruncationMarker
  {
    if |text| > MaxInputChars then text[..MaxInputChars] + TruncationMarker else text
  }

  /** Whatever its length, the text sent begins with the text's first characters, up to the cap. */
  lemma TruncateKeepsPrefix(text: string)
    ensures var n := if |text| <= MaxInputChars then |text| else MaxInputChars;
            n <= |Truncate(text)| && Truncate(text)[..n] == text[..n]
  {
  }

  /**
   * The cap changes nothing exactly when the text fits, or when it is already
   * the cap-length prefix of itself followed by the marker: text over the cap
   * is otherwise never sent as it is.
   */
  lemma TruncateFixedPoints(text: string)
    ensures Truncate(text) == text <==>
              |text| <= MaxInputChars
              || (|text| == MaxInputChars + |TruncationMarker| && text[MaxInputChars..] == TruncationMarker)
  {
    if |text| > MaxInputChars && |text| == MaxInputChars + |TruncationMarker|
       && text[MaxInputChars..] == TruncationMarker {
      assert text == text[..MaxInputChars] + text[MaxInputChars..];
    }
  }

  /** An input of 180050 characters is sent as its first 180000 followed by the marker. */
  lemma OverCapScenario(text: string)
    requires |text| == 180050
    ensures Truncate(text) == text[..180000] + "\n[Truncated due to size]"
    ensures |Truncate(text)| == 180000 + |"\n[Truncated due to size]"|
  {
  }

  datatype ChatMessage = ChatMessage(role: string, content: string)

  /** What the chat client is asked: `api_key`, `model` and `messages` (the temperature is left out). */
  datatype ChatRequest = ChatRequest(apiKey: string, model: string, messages: seq<ChatMessage>)

  const ContentPrefix: string := "PDF content:\n"
  const StylePrefix: string := "\n\nSummarize in this style: "
  const NarrationSuffix: string := "\nReturn clean bullet points and short paragraphs suitable for audio narration."

  /** The user message: the (capped) document text, then the style instruction. */
  function UserPrompt(pdfText: string, stylePrompt: string): (prompt: string) {
    ContentPrefix + pdfText + StylePrefix + stylePrompt + NarrationSuffix
  }

  /** The request `summarize_pdf` sends for a document whose extracted text is `pdfText`. */
  function BuildRequest(apiKey: string, pdfText: string, stylePrompt: string): (req: ChatRequest) {
    ChatRequest(apiKey, ChatModel,
      [ChatMessage("system", SystemPrompt), ChatMessage("user", UserPrompt(Truncate(pdfText), stylePrompt))])
  }

  /**
   * The request names the chat model and carries the fixed system directive
   * first, then a user message made of "PDF content:\n", the capped text, the
   * style instruction with the style prompt, and the request for narration-ready
   * bullet points, in that order.
   */
  lemma RequestEmbedsCappedText(apiKey: string, pdfText: string, stylePrompt: string)
    ensures var req := BuildRequest(apiKey, pdfText, stylePrompt);
            var body := Truncate(pdfText);
            var user := req.messages[1].content;
            |req.messages| == 2 && req.messages[0] == ChatMessage("system", SystemPrompt)
            && req.messages[1].role == "user" && req.apiKey == apiKey && req.model == ChatModel
            && |ContentPrefix| + |body| + |StylePrefix| + |NarrationSuffix| <= |user|
            && user[..|ContentPrefix|] == ContentPrefix
            && user[|ContentPrefix|..|ContentPrefix| + |body|] == body
            && user[|ContentPrefix| + |body|..|ContentPrefix| + |body| + |StylePrefix|] == StylePrefix
            && user[|ContentPrefix| + |body| + |StylePrefix|..|user| - |NarrationSuffix|] == stylePrompt
            && user[|user| - |NarrationSuffix|..] == NarrationSuffix
  {
    FiveParts(ContentPrefix, Truncate(pdfText), StylePrefix, stylePrompt, NarrationSuffix);
  }

  /**
   * What `summarize_pdf` returns: the stripped reply when the document could be
   * read and the chat call answered, otherwise the first error raised.
   */
  function Summarize(document: Result<seq<PageResult>, Error>, reply: Result<string, Error>)
    : (summary: Result<string, Error>)
  {
    match document
    case Err(e) => Err(e)
    case Ok(_) =>
      match reply
      case Ok(text) => Ok(Strip(text))
      case Err(e) => Err(e)
  }

  /**
   * `summarize_pdf`. The document is what opening and parsing the file gave
   * (an error when it could not be opened), and `reply` is the chat service's
   * answer to the request. `request` is the call made, if one was.
   */
  method SummarizePdf(apiKey: string, document: Result<seq<PageResult>, Error>, stylePrompt: string,
                      reply: Result<string, Error>)
    returns (request: Option<ChatRequest>, summary: Result<string, Error>)
    ensures document.Err? ==> request == None
    ensures document.Ok? ==> request == Some(BuildRequest(apiKey, Assemble(document.value), stylePrompt))
    ensures summary == Summarize(document, reply)
    ensures summary.Ok? ==> document.Ok? && reply.Ok? && summary.value == Strip(reply.value)
  {
    if document.Err? {
      return None, Err(document.error);
    }
    var pdfText := ExtractPdfText(document.value);
    if |pdfText| > MaxInputChars {
      pdfText := pdfText[..MaxInputChars] + TruncationMarker;
    }
    request := Some(ChatRequest(apiKey, ChatModel,
      [ChatMessage("system", SystemPrompt), ChatMessage("user", UserPrompt(pdfText, stylePrompt))]));
    match reply
    case Ok(text) => summary := Ok(Strip(text));
    case Err(e) => summary := Err(e);
  }
}
