/** The `/chat` route: it reads the message, the job description and the
    tagged preview from the JSON body, assembles the prompt from the parts
    that are present, and shapes the model's structured reply. */
module Chat {
  import opened Wrappers
  import opened Text
  import opened Web
  import opened Prompts

  const CoverLetterTag := "COVER_LETTER:"
  const ResumeTag := "RESUME:"

  /** The document the preview box holds, with its tag removed. */
  datatype Preview = CoverLetterPreview(text: string) | ResumePreview(text: string)

  /** Classifies the preview by its tag. A tagged preview loses every
      occurrence of its own tag (`str.replace`), not just the leading one; an
      untagged one is a resume preview, unchanged. */
  function ClassifyPreview(p: string): (r: Preview)
    ensures r.CoverLetterPreview? <==> StartsWith(p, CoverLetterTag)
    ensures StartsWith(p, CoverLetterTag) ==> r.text == RemoveAll(p[|CoverLetterTag|..], CoverLetterTag)
    ensures !StartsWith(p, CoverLetterTag) && StartsWith(p, ResumeTag) ==>
              r.text == RemoveAll(p[|ResumeTag|..], ResumeTag)
    ensures !StartsWith(p, CoverLetterTag) && !StartsWith(p, ResumeTag) ==> r == ResumePreview(p)
    ensures StartsWith(p, CoverLetterTag) || StartsWith(p, ResumeTag) ==> |r.text| < |p|
  {
    if StartsWith(p, CoverLetterTag) then
      RemoveAllLeading(CoverLetterTag, p[|CoverLetterTag|..]);
      assert CoverLetterTag + p[|CoverLetterTag|..] == p;
      CoverLetterPreview(RemoveAll(p, CoverLetterTag))
    else if StartsWith(p, ResumeTag) then
      RemoveAllLeading(ResumeTag, p[|ResumeTag|..]);
      assert ResumeTag + p[|ResumeTag|..] == p;
      ResumePreview(RemoveAll(p, ResumeTag))
    else
      ResumePreview(p)
  }

  /** Three sample previews. */
  lemma ClassifyExamples()
    ensures ClassifyPreview("RESUME:abc") == ResumePreview("abc")
    ensures ClassifyPreview("COVER_LETTER:xyz") == CoverLetterPreview("xyz")
    ensures ClassifyPreview("abc") == ResumePreview("abc")
  {
    RemoveAllSkips("abc", [], ResumeTag);
    RemoveAllSkips("xyz", [], CoverLetterTag);
    assert "abc" + [] == "abc" && "xyz" + [] == "xyz";
    assert !StartsWith("abc", CoverLetterTag) && !StartsWith("abc", ResumeTag);
  }

  /** A cover-letter preview is the text after its tag, with any further
      cover-letter tags removed. */
  lemma ClassifyCoverLetter(x: string)
    ensures ClassifyPreview(CoverLetterTag + x) == CoverLetterPreview(RemoveAll(x, CoverLetterTag))
  {
    assert (CoverLetterTag + x)[|CoverLetterTag|..] == x;
  }

  /** A resume preview is the text after its tag, with any further resume tags removed. */
  lemma ClassifyResume(x: string)
    ensures ClassifyPreview(ResumeTag + x) == ResumePreview(RemoveAll(x, ResumeTag))
  {
    assert (ResumeTag + x)[|ResumeTag|..] == x;
    assert (ResumeTag + x)[0] != CoverLetterTag[0];
  }

  /** No proper suffix of the resume tag begins a text that starts with that
      tag, so no occurrence can run over into it. */
  lemma ResumeTagNoOverlap(y: string)
    ensures forall k :: 1 <= k < |ResumeTag| ==> !(ResumeTag[k..] <= ResumeTag + y)
  {
    forall k | 1 <= k < |ResumeTag| ensures !(ResumeTag[k..] <= ResumeTag + y) {
      assert k == 1 || k == 2 || k == 3 || k == 4 || k == 5 || k == 6;
      assert ResumeTag[k..][0] == ResumeTag[k] != (ResumeTag + y)[0];
    }
  }

  /** No proper suffix of the cover-letter tag begins a text that starts with
      the resume tag. */
  lemma CoverLetterTagNoOverlap(y: string)
    ensures forall k :: 1 <= k < |CoverLetterTag| ==> !(CoverLetterTag[k..] <= ResumeTag + y)
  {
    var z := ResumeTag + y;
    assert z[0] == 'R' && z[1] == 'E';
    forall k | 1 <= k < |CoverLetterTag| ensures !(CoverLetterTag[k..] <= z) {
      var t := CoverLetterTag[k..];
      assert t[0] == CoverLetterTag[k];
      if k < |CoverLetterTag| - 1 {
        assert t[1] == CoverLetterTag[k + 1];
        assert CoverLetterTag[k] != 'R' || CoverLetterTag[k + 1] != 'E' by {
          assert k == 1 || k == 2 || k == 3 || k == 4 || k == 5 || k == 6 || k == 7 || k == 8
              || k == 9 || k == 10 || k == 11;
        }
      } else {
        assert CoverLetterTag[12] == ':';
      }
    }
  }

  /** A resume tag later in the text is removed too, however far in it stands. */
  lemma ResumeTagsAllRemoved(x: string, y: string)
    requires !Contains(x, ResumeTag) && !Contains(y, ResumeTag)
    ensures ClassifyPreview(ResumeTag + x + ResumeTag + y) == ResumePreview(x + y)
  {
    AppendAssoc(ResumeTag, x, ResumeTag);
    AppendAssoc(ResumeTag, x + ResumeTag, y);
    ClassifyResume(x + ResumeTag + y);
    AppendAssoc(x, ResumeTag, y);
    ResumeTagNoOverlap(y);
    RemoveAllKeepsFront(x, ResumeTag + y, ResumeTag);
    RemoveAllLeading(ResumeTag, y);
    RemoveAllAbsent(y, ResumeTag);
  }

  /** Only the preview's own tag is removed: a cover letter keeps the resume
      tags it contains. */
  lemma CoverLetterKeepsResumeTags(x: string, y: string)
    requires !Contains(x, CoverLetterTag) && !Contains(y, CoverLetterTag)
    ensures ClassifyPreview(CoverLetterTag + x + ResumeTag + y) == CoverLetterPreview(x + ResumeTag + y)
  {
    AppendAssoc(CoverLetterTag, x, ResumeTag);
    AppendAssoc(CoverLetterTag, x + ResumeTag, y);
    ClassifyCoverLetter(x + ResumeTag + y);
    CoverLetterTagNoOverlap(y);
    assert Avoids(ResumeTag, CoverLetterTag[0]);
    OtherTagKept(x, ResumeTag, y, CoverLetterTag);
  }

  /** Text around a tag-free stretch `t` keeps `t` when the pattern occurs
      in neither side and cannot run over into `t`. */
  lemma OtherTagKept(x: string, t: string, y: string, pat: string)
    requires pat != [] && !Contains(x, pat) && !Contains(y, pat) && Avoids(t, pat[0])
    requires forall k :: 1 <= k < |pat| ==> !(pat[k..] <= t + y)
    ensures RemoveAll(x + t + y, pat) == x + t + y
  {
    AppendAssoc(x, t, y);
    RemoveAllKeepsFront(x, t + y, pat);
    RemoveAllSkips(t, y, pat);
    RemoveAllAbsent(y, pat);
  }

  const CoverLetterPreviewLabel := "Current Cover Letter Preview (Raw HTML/Text):"
  const ResumePreviewLabel := "Current Resume Preview (Raw HTML/Text):"
  const UserMessageLabel := "User Message:"

  const ChatTrailer :=
    "If the user's message requests modifications, update the document fully and return it as updated_preview in Markdown format. "
    + "Prefix your response with 'COVER_LETTER:' if editing a cover letter, or 'RESUME:' if editing a resume. "
    + "If no update is needed, set updated_preview to an empty string. "
    + "Do not include any introductory dialogue in the 'updated_preview' field."

  const ChatInstruction :=
    "You are a friendly, concise resume and cover letter writing copilot for end users. "
    + "Help improve the user's resume or cover letter for a given job description. "
    + "When the user asks for a change, produce the updated full text (resume or cover letter), formatted with clear Markdown (bold for sections, bullet points). "
    + "For cover letters, maintain proper business letter formatting with appropriate spacing and structure. "
    + "If the user is only asking for advice, set 'updated_preview' to an empty string. "
    + "Keep the tone professional and helpful. "
    + "Determine from context whether the user is editing a resume or cover letter."

  /** The prompt part for a classified preview. */
  function PreviewPart(p: Preview): string {
    match p
    case CoverLetterPreview(t) => Section(CoverLetterPreviewLabel, t)
    case ResumePreview(t) => Section(ResumePreviewLabel, t)
  }

  /** The prompt parts in order: the job description and the preview when
      they are non-empty, then always the user message and the fixed trailer. */
  function PromptParts(jobDescription: string, preview: string, message: string): (parts: seq<string>)
    ensures |parts| == 2 + (if jobDescription != [] then 1 else 0) + (if preview != [] then 1 else 0)
    ensures parts[|parts| - 1] == ChatTrailer && parts[|parts| - 2] == Section(UserMessageLabel, message)
    ensures jobDescription != [] ==> parts[0] == Section(JobLabel, jobDescription)
    ensures preview != [] ==> parts[|parts| - 3] == PreviewPart(ClassifyPreview(preview))
  {
    (if jobDescription != [] then [Section(JobLabel, jobDescription)] else [])
    + (if preview != [] then [PreviewPart(ClassifyPreview(preview))] else [])
    + [Section(UserMessageLabel, message), ChatTrailer]
  }

  /** The `prompt_parts.append(...)` sequence of `chat`. */
  method AssemblePromptParts(jobDescription: string, preview: string, message: string)
    returns (parts: seq<string>)
    ensures parts == PromptParts(jobDescription, preview, message)
  {
    parts := [];
    if jobDescription != [] {
      parts := parts + [Section(JobLabel, jobDescription)];
    }
    if preview != [] {
      if StartsWith(preview, CoverLetterTag) {
        var content := RemoveAll(preview, CoverLetterTag);
        parts := parts + [Section(CoverLetterPreviewLabel, content)];
      } else if StartsWith(preview, ResumeTag) {
        var content := RemoveAll(preview, ResumeTag);
        parts := parts + [Section(ResumePreviewLabel, content)];
      } else {
        parts := parts + [Section(ResumePreviewLabel, preview)];
      }
    }
    parts := parts + [Section(UserMessageLabel, message)];
    parts := parts + [ChatTrailer];
  }

  const PartSeparator := "\n\n"

  /** The content sent to the model: the parts joined by blank lines. */
  function ChatContent(jobDescription: string, preview: string, message: string): string {
    Join(PromptParts(jobDescription, preview, message), PartSeparator)
  }

  /** The content written out: each optional part is followed by the
      separator, and the message section and the trailer always close it. */
  lemma ChatContentLayout(jobDescription: string, preview: string, message: string)
    ensures ChatContent(jobDescription, preview, message) ==
      (if jobDescription != [] then Section(JobLabel, jobDescription) + PartSeparator else [])
      + (if preview != [] then PreviewPart(ClassifyPreview(preview)) + PartSeparator else [])
      + Section(UserMessageLabel, message) + PartSeparator + ChatTrailer
  {
    OptionalPartsLayout(
      if jobDescription != [] then [Section(JobLabel, jobDescription)] else [],
      if preview != [] then [PreviewPart(ClassifyPreview(preview))] else [],
      Section(UserMessageLabel, message), ChatTrailer, PartSeparator);
  }

  /** The text of an optional part followed by the separator, or nothing. */
  function Lead(part: seq<string>, sep: string): string {
    if part == [] then [] else part[0] + sep
  }

  /** Up to one part from each of two optional slots, then two fixed parts, joined. */
  lemma OptionalPartsLayout(a: seq<string>, b: seq<string>, m: string, t: string, sep: string)
    requires |a| <= 1 && |b| <= 1
    ensures Join(a + b + [m, t], sep) == Lead(a, sep) + Lead(b, sep) + m + sep + t
  {
    var tail := [m, t];
    var rest := m + sep + t;
    JoinCons(m, [t], sep);
    assert [m] + [t] == tail;
    var bt := b + tail;
    LeadJoin(b, tail, sep);
    assert a + b + tail == a + bt;
    LeadJoin(a, bt, sep);
    var la, lb := Lead(a, sep), Lead(b, sep);
    AppendAssoc(la, lb, rest);
    AppendAssoc(la + lb, m + sep, t);
    AppendAssoc(la + lb, m, sep);
  }

  /** An optional part in front of a non-empty list of parts. */
  lemma LeadJoin(a: seq<string>, rest: seq<string>, sep: string)
    requires |a| <= 1 && rest != []
    ensures Join(a + rest, sep) == Lead(a, sep) + Join(rest, sep)
  {
    if a == [] {
      assert a + rest == rest;
    } else {
      assert [a[0]] == a;
      JoinCons(a[0], rest, sep);
    }
  }

  // ---------------------------------------------------------------------
  // Shaping the model's reply

  /** `(data.get(key) or '').strip()`: a falsy value becomes `""`, a string
      is stripped, and any other value raises `AttributeError`. */
  function StrippedField(data: map<string, Json>, key: string): (r: Result<string, string>)
    ensures r.Ok? <==> !Truthy(Get(data, key, JNull)) || Get(data, key, JNull).JStr?
    ensures r.Ok? && !Truthy(Get(data, key, JNull)) ==> r.value == []
    ensures r.Ok? && Get(data, key, JNull).JStr? ==> r.value == Strip(Get(data, key, JNull).s)
    ensures r.Ok? ==> Trimmed(r.value)
    ensures r.Err? ==> r.error == NoAttributeMessage(Get(data, key, JNull), "strip")
  {
    var v := Get(data, key, JNull);
    if !Truthy(v) then Ok([])
    else if v.JStr? then Ok(Strip(v.s))
    else Err(NoAttributeMessage(v, "strip"))
  }

  /** `value or None` on a stripped string. */
  function NoneIfEmpty(s: string): (v: Json)
    ensures v == JNull <==> s == []
    ensures v != JNull ==> v == JStr(s)
  {
    if s == [] then JNull else JStr(s)
  }

  const ShapedKeys := {"reply_text", "updated_preview", "reasoning_summary", "deliberation_steps"}

  /** `deliberation_steps` when it is a Python `int` (a boolean included), else `None`. */
  function StepCount(fields: map<string, Json>): (v: Json)
    ensures IsPyInt(v) || v == JNull
    ensures "deliberation_steps" in fields && IsPyInt(fields["deliberation_steps"]) ==> v == fields["deliberation_steps"]
    ensures !("deliberation_steps" in fields && IsPyInt(fields["deliberation_steps"])) ==> v == JNull
  {
    var steps := Get(fields, "deliberation_steps", JNull);
    if IsPyInt(steps) then steps else JNull
  }

  /** The payload `chat` builds from the decoded reply, or the message of the
      exception raised while building it. */
  function ShapeReply(data: Json): (r: Result<Json, string>)
    ensures !data.JObj? ==> r == Err(NoAttributeMessage(data, "get"))
    ensures data.JObj? ==> (r.Ok? <==> StrippedField(data.fields, "reply_text").Ok?
                                       && StrippedField(data.fields, "updated_preview").Ok?
                                       && StrippedField(data.fields, "reasoning_summary").Ok?)
    ensures r.Ok? ==> data.JObj? && r.value.JObj? && r.value.fields.Keys == ShapedKeys
    ensures r.Ok? ==> ShapedPayload(r.value.fields)
    ensures r.Ok? ==> r.value.fields["deliberation_steps"] == StepCount(data.fields)
    ensures r.Ok? ==>
      r.value == JObj(Payload(StrippedField(data.fields, "reply_text").value,
                              StrippedField(data.fields, "updated_preview").value,
                              StrippedField(data.fields, "reasoning_summary").value,
                              Get(data.fields, "deliberation_steps", JNull)))
    ensures data.JObj? && StrippedField(data.fields, "reply_text").Err? ==>
      r == Err(StrippedField(data.fields, "reply_text").error)
    ensures data.JObj? && StrippedField(data.fields, "reply_text").Ok? && StrippedField(data.fields, "updated_preview").Err? ==>
      r == Err(StrippedField(data.fields, "updated_preview").error)
    ensures data.JObj? && StrippedField(data.fields, "reply_text").Ok? && StrippedField(data.fields, "updated_preview").Ok?
            && StrippedField(data.fields, "reasoning_summary").Err? ==>
      r == Err(StrippedField(data.fields, "reasoning_summary").error)
  {
    if !data.JObj? then Err(NoAttributeMessage(data, "get"))
    else
      var fields := data.fields;
      match StrippedField(fields, "reply_text")
      case Err(e) => Err(e)
      case Ok(replyText) =>
        match StrippedField(fields, "updated_preview")
        case Err(e) => Err(e)
        case Ok(updatedPreview) =>
          match StrippedField(fields, "reasoning_summary")
          case Err(e) => Err(e)
          case Ok(reasoningSummary) =>
            Ok(JObj(Payload(replyText, updatedPreview, reasoningSummary,
                            Get(fields, "deliberation_steps", JNull))))
  }

  /** The dictionary `chat` returns, from the three stripped fields and the raw step count. */
  function Payload(replyText: string, updatedPreview: string, reasoningSummary: string, steps: Json)
    : (out: map<string, Json>)
    requires Trimmed(replyText) && Trimmed(updatedPreview) && Trimmed(reasoningSummary)
    ensures out.Keys == ShapedKeys && ShapedPayload(out)
    ensures out["reply_text"] == JStr(replyText)
    ensures out["updated_preview"] == NoneIfEmpty(updatedPreview)
    ensures out["reasoning_summary"] == NoneIfEmpty(reasoningSummary)
    ensures out["deliberation_steps"] == (if IsPyInt(steps) then steps else JNull)
  {
    map[
      "reply_text" := JStr(replyText),
      "updated_preview" := NoneIfEmpty(updatedPreview),
      "reasoning_summary" := NoneIfEmpty(reasoningSummary),
      "deliberation_steps" := if IsPyInt(steps) then steps else JNull]
  }

  /** A shaped payload: `reply_text` is a trimmed string, and the preview
      and summary are each either `null` or a non-empty trimmed string. */
  predicate ShapedPayload(out: map<string, Json>) {
    && "reply_text" in out && out["reply_text"].JStr? && Trimmed(out["reply_text"].s)
    && "updated_preview" in out && OptionalText(out["updated_preview"])
    && "reasoning_summary" in out && OptionalText(out["reasoning_summary"])
  }

  predicate OptionalText(v: Json) {
    v == JNull || (v.JStr? && v.s != [] && Trimmed(v.s))
  }

  /** `isinstance(True, int)` holds in Python, so a boolean step count is
      kept, while a float one is dropped. */
  lemma StepCountExamples(b: bool, r: real)
    ensures StepCount(map["deliberation_steps" := JBool(b)]) == JBool(b)
    ensures StepCount(map["deliberation_steps" := JReal(r)]) == JNull
  {
  }

  // ---------------------------------------------------------------------
  // The route

  const NotJson := "Content-Type must be application/json"
  const MissingMessage := "Missing message"
  const ChatFailure := "Failed to process chat: "

  /** The three request fields after `.strip()`. */
  datatype ChatFields = ChatFields(message: string, jobDescription: string, preview: string)

  /** `request.get_json(silent=True) or {}`. */
  function RequestBody(payload: Option<Json>): (body: Json)
    ensures payload.Some? && Truthy(payload.value) ==> body == payload.value
    ensures !(payload.Some? && Truthy(payload.value)) ==> body == JObj(map[])
  {
    if payload.Some? && Truthy(payload.value) then payload.value else JObj(map[])
  }

  /** `body.get(key, '').strip()`: an absent field reads as `""`; a value
      that is not a string raises `AttributeError`. */
  function BodyField(body: map<string, Json>, key: string): (r: Result<string, string>)
    ensures key !in body ==> r == Ok([])
    ensures key in body && body[key].JStr? ==> r == Ok(Strip(body[key].s))
    ensures r.Ok? ==> Trimmed(r.value)
    ensures key in body && !body[key].JStr? ==> r == Err("AttributeError: " + NoAttributeMessage(body[key], "strip"))
  {
    var v := Get(body, key, JStr([]));
    if v.JStr? then Ok(Strip(v.s)) else Err("AttributeError: " + NoAttributeMessage(v, "strip"))
  }

  /** The three fields read in the order `chat` reads them; the first that
      raises stops the handler. Every field read is already trimmed. */
  function ReadFields(body: map<string, Json>): (r: Result<ChatFields, string>)
    ensures r.Ok? <==> BodyField(body, "message").Ok? && BodyField(body, "job_description").Ok?
                       && BodyField(body, "current_preview").Ok?
    ensures BodyField(body, "message").Err? ==> r == Err(BodyField(body, "message").error)
    ensures BodyField(body, "message").Ok? && BodyField(body, "job_description").Err? ==>
      r == Err(BodyField(body, "job_description").error)
    ensures BodyField(body, "message").Ok? && BodyField(body, "job_description").Ok? && BodyField(body, "current_preview").Err? ==>
      r == Err(BodyField(body, "current_preview").error)
    ensures r.Ok? ==> r.value == ChatFields(BodyField(body, "message").value, BodyField(body, "job_description").value,
                                            BodyField(body, "current_preview").value)
    ensures r.Ok? ==> Trimmed(r.value.message) && Trimmed(r.value.jobDescription) && Trimmed(r.value.preview)
  {
    match BodyField(body, "message")
    case Err(e) => Err(e)
    case Ok(message) =>
      match BodyField(body, "job_description")
      case Err(e) => Err(e)
      case Ok(jobDescription) =>
        match BodyField(body, "current_preview")
        case Err(e) => Err(e)
        case Ok(preview) =>
          Ok(ChatFields(message, jobDescription, preview))
  }

  /** The prompt `chat` sends for the fields it read. */
  function ChatPrompt(f: ChatFields): Prompt {
    Prompt(ChatInstruction, ChatContent(f.jobDescription, f.preview, f.message))
  }

  /** How the checks before the model call end: with a response, or with
      the fields to build the prompt from. */
  datatype Intake = Refused(response: Response) | Accepted(fields: ChatFields)

  /** The checks of `chat` in their order: the client, the content type, the
      body's `get`, the three `strip` calls, then the blank message. */
  function ChatIntake(clientReady: bool, isJson: bool, payload: Option<Json>): (r: Intake)
    ensures !clientReady ==> r == Refused(ErrorResponse(500, ClientMissingMessage))
    ensures clientReady && !isJson ==> r == Refused(ErrorResponse(400, NotJson))
    ensures clientReady && isJson && !RequestBody(payload).JObj? ==>
            r == Refused(Uncaught("AttributeError: " + NoAttributeMessage(RequestBody(payload), "get")))
    ensures clientReady && isJson && RequestBody(payload).JObj? && ReadFields(RequestBody(payload).fields).Err? ==>
            r == Refused(Uncaught(ReadFields(RequestBody(payload).fields).error))
    ensures clientReady && isJson && RequestBody(payload).JObj? && ReadFields(RequestBody(payload).fields).Ok? ==>
            r == (if ReadFields(RequestBody(payload).fields).value.message == [] then Refused(ErrorResponse(400, MissingMessage))
                  else Accepted(ReadFields(RequestBody(payload).fields).value))
    ensures r.Refused? && StatusOf(r.response) == 400 ==> IsErrorResponse(r.response)
    ensures r.Accepted? ==> r.fields.message != [] && Trimmed(r.fields.message)
  {
    if !clientReady then Refused(ErrorResponse(500, ClientMissingMessage))
    else if !isJson then Refused(ErrorResponse(400, NotJson))
    else
      var body := RequestBody(payload);
      if !body.JObj? then Refused(Uncaught("AttributeError: " + NoAttributeMessage(body, "get")))
      else
        match ReadFields(body.fields)
        case Err(e) => Refused(Uncaught(e))
        case Ok(f) =>
          if f.message == [] then Refused(ErrorResponse(400, MissingMessage))
          else Accepted(f)
  }

  /** The call and the answer once the fields are accepted: every exception
      in the `try` block (the call, `json.loads`, the shaping) becomes a 500
      whose error text carries the exception's message. */
  function ChatAnswer(f: ChatFields, reply: StructuredReply): (ex: Exchange)
    ensures ex.call == Some(ChatCall(ChatPrompt(f)))
    ensures reply.Failed? ==> ex.response == ErrorResponse(500, ChatFailure + reply.cause)
    ensures reply.Parsed? && ShapeReply(reply.data).Ok? ==> ex.response == Respond(200, ShapeReply(reply.data).value)
    ensures reply.Parsed? && ShapeReply(reply.data).Err? ==>
      ex.response == ErrorResponse(500, ChatFailure + ShapeReply(reply.data).error)
    ensures StatusOf(ex.response) != 200 ==> StatusOf(ex.response) == 500 && IsErrorResponse(ex.response)
  {
    var call := Some(ChatCall(ChatPrompt(f)));
    match reply
    case Failed(cause) => Exchange(ErrorResponse(500, ChatFailure + cause), call)
    case Parsed(data) =>
      match ShapeReply(data)
      case Ok(out) => Exchange(Respond(200, out), call)
      case Err(e) => Exchange(ErrorResponse(500, ChatFailure + e), call)
  }

  /** What `chat` answers, and the model call it makes. `payload` is what
      `request.get_json(silent=True)` returns; `reply` is the outcome of the
      call and of `json.loads` on its text. The model is called exactly when
      every check passes, and a 400 never follows a call. */
  function Chat(clientReady: bool, isJson: bool, payload: Option<Json>, reply: StructuredReply): (ex: Exchange)
    ensures ChatIntake(clientReady, isJson, payload).Refused? ==>
            ex == Exchange(ChatIntake(clientReady, isJson, payload).response, None)
    ensures ChatIntake(clientReady, isJson, payload).Accepted? ==>
            ex == ChatAnswer(ChatIntake(clientReady, isJson, payload).fields, reply)
    ensures ex.call.Some? <==> ChatIntake(clientReady, isJson, payload).Accepted?
    ensures StatusOf(ex.response) == 400 ==> ex.call == None && IsErrorResponse(ex.response)
  {
    match ChatIntake(clientReady, isJson, payload)
    case Refused(response) => Exchange(response, None)
    case Accepted(f) => ChatAnswer(f, reply)
  }

  /** A message that is absent or all whitespace is refused before any call,
      whatever the other fields hold, as long as reading them does not raise. */
  lemma BlankMessageRefused(fields: map<string, Json>)
    requires "message" in fields ==> fields["message"].JStr? && AllSpace(fields["message"].s)
    requires BodyField(fields, "job_description").Ok? && BodyField(fields, "current_preview").Ok?
    ensures ChatIntake(true, true, Some(JObj(fields))) == Refused(ErrorResponse(400, MissingMessage))
  {
    assert RequestBody(Some(JObj(fields))) == JObj(fields);
    BlankMessageField(fields);
    assert ReadFields(fields).Ok? && ReadFields(fields).value.message == [];
  }

  /** An absent or all-whitespace message reads as `""`. */
  lemma BlankMessageField(fields: map<string, Json>)
    requires "message" in fields ==> fields["message"].JStr? && AllSpace(fields["message"].s)
    ensures BodyField(fields, "message") == Ok([])
  {
    if "message" in fields {
      StripEmptyIff(fields["message"].s);
    }
  }

  /** A missing or falsy JSON payload reads as `{}`, which has no message. */
  lemma FalsyPayloadRefused(payload: Option<Json>)
    requires payload.Some? ==> !Truthy(payload.value)
    ensures ChatIntake(true, true, payload) == Refused(ErrorResponse(400, MissingMessage))
  {
  }

  /** A truthy payload that is not an object has no `get`: the exception escapes the handler. */
  lemma NonObjectPayloadUncaught(v: Json)
    requires Truthy(v) && !v.JObj?
    ensures ChatIntake(true, true, Some(v)) == Refused(Uncaught("AttributeError: " + NoAttributeMessage(v, "get")))
  {
  }

  /** A request with only a message is accepted with that message and no
      other part, and its content is the message section and the trailer. */
  lemma MessageOnlyPrompt(message: string)
    requires message != [] && Trimmed(message)
    ensures ChatIntake(true, true, Some(JObj(map["message" := JStr(message)]))) == Accepted(ChatFields(message, [], []))
    ensures ChatContent([], [], message) == Section(UserMessageLabel, message) + PartSeparator + ChatTrailer
  {
    var fields := map["message" := JStr(message)];
    assert RequestBody(Some(JObj(fields))) == JObj(fields);
    assert "job_description" !in fields && "current_preview" !in fields;
    StripKeepsTrimmed(message);
    assert ReadFields(fields) == Ok(ChatFields(message, [], []));
    ChatContentLayout([], [], message);
  }

  /** Whatever optional parts precede it, the content closes with the user's
      message section, the separator and the fixed trailer. */
  lemma ChatContentEndsWithMessage(jobDescription: string, preview: string, message: string)
    ensures EndsWith(ChatContent(jobDescription, preview, message),
                     Section(UserMessageLabel, message) + PartSeparator + ChatTrailer)
  {
    ChatContentLayout(jobDescription, preview, message);
    var front := (if jobDescription != [] then Section(JobLabel, jobDescription) + PartSeparator else [])
      + (if preview != [] then PreviewPart(ClassifyPreview(preview)) + PartSeparator else []);
    var m := Section(UserMessageLabel, message);
    AppendAssoc(front, m, PartSeparator);
    AppendAssoc(front, m + PartSeparator, ChatTrailer);
    var tail := m + PartSeparator + ChatTrailer;
    assert (front + tail)[|front + tail| - |tail|..] == tail;
  }
}
