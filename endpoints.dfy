/** The JSON routes that generate from text already extracted:
    `/generate_cover_letter`, `/analyze_skill_gap` and `/get_ats_score`. Each
    checks the client and the body's fields, in its own order, before any
    generation. The body is the decoded JSON object of the request. */
module Endpoints {
  import opened Wrappers
  import opened Web
  import opened Prompts

  const MissingJobOrResume := "Missing job description or resume text in JSON body"
  const EmptyJobOrResume := "Job description and resume text cannot be empty"
  const MissingOriginalResume := "Missing original resume input for scoring in JSON body."

  /** The instruction `generate_cover_letter` builds for a decoded
      `template_style`: strings are looked up with the professional fallback;
      a list or an object cannot be a dictionary key and the lookup raises
      `TypeError`; any other value is never a key and falls back. */
  function StyleInstruction(style: Json): (r: Option<string>)
    ensures r.None? <==> style.JArr? || style.JObj?
    ensures style.JStr? ==> r == Some(CoverLetterInstruction(style.s))
    ensures r.Some? && !style.JStr? ==> r == Some(CoverLetterInstruction(ProfessionalStyle))
  {
    match style
    case JStr(s) => Some(CoverLetterInstruction(s))
    case JArr(_) => None
    case JObj(_) => None
    case _ => Some(CoverLetterInstruction(ProfessionalStyle))
  }

  /** The message of the `TypeError` raised by an unhashable dictionary key. */
  function UnhashableMessage(v: Json): string {
    "TypeError: unhashable type: '" + TypeName(v) + "'"
  }

  /** Both required fields are present in a non-empty body. */
  predicate HasJobAndResume(body: map<string, Json>) {
    body != map[] && "job_description" in body && "resume_text" in body
  }

  /** Both required fields are present and truthy. */
  predicate ValidJobAndResume(body: map<string, Json>) {
    HasJobAndResume(body) && Truthy(body["job_description"]) && Truthy(body["resume_text"])
  }

  /** `generate_cover_letter_endpoint`: the fields are checked before the
      client, which `generate_cover_letter` checks itself. */
  function GenerateCoverLetterEndpoint(clientReady: bool, body: map<string, Json>, reply: TextReply): (ex: Exchange)
    ensures StatusOf(ex.response) == 400 <==> !ValidJobAndResume(body)
    ensures !HasJobAndResume(body) ==> ex == Exchange(ErrorResponse(400, MissingJobOrResume), None)
    ensures HasJobAndResume(body) && !ValidJobAndResume(body) ==> ex == Exchange(ErrorResponse(400, EmptyJobOrResume), None)
    ensures ValidJobAndResume(body) && clientReady && StyleInstruction(StyleOf(body)).None? ==>
      ex == Exchange(Uncaught(UnhashableMessage(StyleOf(body))), None)
    ensures ValidJobAndResume(body) && !clientReady ==> ex == Exchange(ErrorResponse(500, ClientNotInitialized), None)
    ensures ex.call.Some? <==> ValidJobAndResume(body) && clientReady && StyleInstruction(StyleOf(body)).Some?
    ensures ex.call.Some? ==>
      ex == SendCoverLetter(StyleInstruction(StyleOf(body)).value, body["job_description"], body["resume_text"], reply)
  {
    if !HasJobAndResume(body) then Exchange(ErrorResponse(400, MissingJobOrResume), None)
    else
      var jobDescription := body["job_description"];
      var resumeText := body["resume_text"];
      if !Truthy(jobDescription) || !Truthy(resumeText) then Exchange(ErrorResponse(400, EmptyJobOrResume), None)
      else if !clientReady then Exchange(ErrorResponse(500, ClientNotInitialized), None)
      else match StyleInstruction(StyleOf(body))
        case None => Exchange(Uncaught(UnhashableMessage(StyleOf(body))), None)
        case Some(instruction) => SendCoverLetter(instruction, jobDescription, resumeText, reply)
  }

  /** `data.get('template_style', 'professional')`. */
  function StyleOf(body: map<string, Json>): (style: Json)
    ensures "template_style" !in body ==> style == JStr(ProfessionalStyle)
    ensures "template_style" in body ==> style == body["template_style"]
  {
    Get(body, "template_style", JStr(ProfessionalStyle))
  }

  /** The generation and the answer once the instruction is built: the
      letter is returned under `cover_letter` unless it carries the error
      prefix, which becomes a 500 with that text as the error. */
  function SendCoverLetter(instruction: string, jobDescription: Json, resumeText: Json, reply: TextReply): (ex: Exchange)
    ensures ex.call == Some(CoverLetterCall(instruction, jobDescription, resumeText))
    ensures ex.response.Respond? && ex.response.status == 200 <==>
      reply.Generated? && reply.text.Some? && !IsApiError(reply.text.value)
    ensures ex.response.Respond? && ex.response.status == 200 ==>
      ex.response.body == JObj(map["cover_letter" := JStr(reply.text.value)])
    ensures ex.response.Respond? && ex.response.status != 200 ==> ex.response.status == 500 && IsErrorResponse(ex.response)
    ensures reply.Raised? ==> ex.response == ErrorResponse(500, ApiErrorPrefix + " " + reply.cause)
    ensures reply == Generated(None) ==> ex.response == Uncaught(NoneStartsWith)
    ensures reply.Generated? && reply.text.Some? && IsApiError(reply.text.value) ==>
      ex.response == ErrorResponse(500, reply.text.value)
  {
    var call := Some(CoverLetterCall(instruction, jobDescription, resumeText));
    match GeneratedText(true, reply)
    case None => Exchange(Uncaught(NoneStartsWith), call)
    case Some(letter) =>
      if IsApiError(letter) then Exchange(ErrorResponse(500, letter), call)
      else Exchange(Respond(200, JObj(map["cover_letter" := JStr(letter)])), call)
  }

  const SkillGapFailure := "Failed to analyze skill gaps: "

  /** `analyze_skill_gap`: the client is checked first, then the fields; the
      decoded reply is returned as it is. */
  function AnalyzeSkillGap(clientReady: bool, body: map<string, Json>, reply: StructuredReply): (ex: Exchange)
    ensures !clientReady ==> ex == Exchange(ErrorResponse(500, ClientMissingMessage), None)
    ensures StatusOf(ex.response) == 400 <==> clientReady && !ValidJobAndResume(body)
    ensures clientReady && !HasJobAndResume(body) ==> ex == Exchange(ErrorResponse(400, MissingJobOrResume), None)
    ensures clientReady && HasJobAndResume(body) && !ValidJobAndResume(body) ==>
      ex == Exchange(ErrorResponse(400, EmptyJobOrResume), None)
    ensures ex.call.Some? <==> clientReady && ValidJobAndResume(body)
    ensures ex.call.Some? ==> ex.call.value == SkillGapCall(body["job_description"], body["resume_text"])
    ensures ex.call.Some? && reply.Parsed? ==> ex.response == Respond(200, reply.data)
    ensures ex.call.Some? && reply.Failed? ==> ex.response == ErrorResponse(500, SkillGapFailure + reply.cause)
  {
    if !clientReady then Exchange(ErrorResponse(500, ClientMissingMessage), None)
    else if !HasJobAndResume(body) then Exchange(ErrorResponse(400, MissingJobOrResume), None)
    else
      var jobDescription := body["job_description"];
      var resumeText := body["resume_text"];
      if !Truthy(jobDescription) || !Truthy(resumeText) then Exchange(ErrorResponse(400, EmptyJobOrResume), None)
      else
        var call := Some(SkillGapCall(jobDescription, resumeText));
        match reply
        case Parsed(analysis) => Exchange(Respond(200, analysis), call)
        case Failed(cause) => Exchange(ErrorResponse(500, SkillGapFailure + cause), call)
  }

  const AtsFailure := "Failed to generate ATS score: "

  /** `get_ats_score`: the client is checked first, then only the presence of
      `original_resume`; the decoded scorecard is returned as it is. */
  function GetAtsScore(clientReady: bool, body: map<string, Json>, reply: StructuredReply): (ex: Exchange)
    ensures !clientReady ==> ex == Exchange(ErrorResponse(500, ClientMissingMessage), None)
    ensures StatusOf(ex.response) == 400 <==> clientReady && (body == map[] || "original_resume" !in body)
    ensures clientReady && (body == map[] || "original_resume" !in body) ==>
      ex == Exchange(ErrorResponse(400, MissingOriginalResume), None)
    ensures ex.call.Some? <==> clientReady && body != map[] && "original_resume" in body
    ensures ex.call.Some? ==> ex.call.value == AtsCall(body["original_resume"])
    ensures ex.call.Some? && reply.Parsed? ==> ex.response == Respond(200, reply.data)
    ensures ex.call.Some? && reply.Failed? ==> ex.response == ErrorResponse(500, AtsFailure + reply.cause)
  {
    if !clientReady then Exchange(ErrorResponse(500, ClientMissingMessage), None)
    else if body == map[] || "original_resume" !in body then Exchange(ErrorResponse(400, MissingOriginalResume), None)
    else
      var call := Some(AtsCall(body["original_resume"]));
      match reply
      case Parsed(scorecard) => Exchange(Respond(200, scorecard), call)
      case Failed(cause) => Exchange(ErrorResponse(500, AtsFailure + cause), call)
  }

  /** The prompt a recorded call sends. The f-strings render a JSON value
      that is not a string with Python's `str()`, which is not modelled, so
      such a call has no prompt here. */
  function PromptOf(call: Call): Option<Prompt> {
    match call
    case RewriteCall(p) => Some(p)
    case ChatCall(p) => Some(p)
    case CoverLetterCall(instruction, JStr(j), JStr(r)) => Some(Prompt(instruction, CoverLetterContent(j, r)))
    case SkillGapCall(JStr(j), JStr(r)) => Some(Prompt(SkillGapInstruction, SkillGapContent(j, r)))
    case AtsCall(JStr(r)) => Some(Prompt(AtsInstruction, AtsContent(r)))
    case _ => None
  }

  /** With non-empty string fields and a client, the cover-letter route sends
      the instruction of the requested style (given, or `professional` by
      default) and the cover-letter content of the two fields. */
  lemma CoverLetterPrompt(body: map<string, Json>, jobDescription: string, resumeText: string, style: string,
                          reply: TextReply)
    requires "job_description" in body && body["job_description"] == JStr(jobDescription) && jobDescription != []
    requires "resume_text" in body && body["resume_text"] == JStr(resumeText) && resumeText != []
    requires StyleOf(body) == JStr(style)
    ensures var call := GenerateCoverLetterEndpoint(true, body, reply).call;
      call.Some? && PromptOf(call.value) == Some(Prompt(CoverLetterInstruction(style), CoverLetterContent(jobDescription, resumeText)))
  {
    assert ValidJobAndResume(body);
    var instruction := CoverLetterInstruction(style);
    assert StyleInstruction(StyleOf(body)) == Some(instruction);
    assert GenerateCoverLetterEndpoint(true, body, reply).call == Some(CoverLetterCall(instruction, JStr(jobDescription), JStr(resumeText)));
  }

  /** With non-empty string fields and a client, the skill-gap route sends its
      instruction and the skill-gap content of the two fields. */
  lemma SkillGapPrompt(body: map<string, Json>, jobDescription: string, resumeText: string, reply: StructuredReply)
    requires "job_description" in body && body["job_description"] == JStr(jobDescription) && jobDescription != []
    requires "resume_text" in body && body["resume_text"] == JStr(resumeText) && resumeText != []
    ensures var call := AnalyzeSkillGap(true, body, reply).call;
      call.Some? && PromptOf(call.value) == Some(Prompt(SkillGapInstruction, SkillGapContent(jobDescription, resumeText)))
  {
    assert ValidJobAndResume(body);
  }

  /** A string resume is sent to the ATS model inside the ATS content, whatever else the body holds. */
  lemma AtsPrompt(body: map<string, Json>, originalResume: string, reply: StructuredReply)
    requires "original_resume" in body && body["original_resume"] == JStr(originalResume)
    ensures var call := GetAtsScore(true, body, reply).call;
      call.Some? && PromptOf(call.value) == Some(Prompt(AtsInstruction, AtsContent(originalResume)))
  {
  }

  /** The three routes order their checks differently: with no client and an
      empty body, the cover-letter route answers 400 and the other two 500. */
  lemma CheckOrderDiffers(textReply: TextReply, reply: StructuredReply)
    ensures StatusOf(GenerateCoverLetterEndpoint(false, map[], textReply).response) == 400
    ensures StatusOf(AnalyzeSkillGap(false, map[], reply).response) == 500
    ensures StatusOf(GetAtsScore(false, map[], reply).response) == 500
  {
  }

  /** The score is forwarded without a range check: a scorecard claiming 150
      is returned as it came. */
  lemma AtsScoreNotRangeChecked(body: map<string, Json>)
    requires body != map[] && "original_resume" in body
    ensures var card := JObj(map["ats_score" := JInt(150)]);
      GetAtsScore(true, body, Parsed(card)).response == Respond(200, card)
  {
  }

  /** An empty resume is still sent to the model: only presence is checked. */
  lemma AtsAcceptsEmptyResume(reply: StructuredReply)
    ensures GetAtsScore(true, map["original_resume" := JStr([])], reply).call == Some(AtsCall(JStr([])))
  {
    var body := map["original_resume" := JStr([])];
    assert "original_resume" in body;
  }

  /** An empty job description or resume text is refused before any call,
      client or not. */
  lemma EmptyFieldsRefused(clientReady: bool, jobDescription: string, resumeText: string,
                           textReply: TextReply, reply: StructuredReply)
    requires jobDescription == [] || resumeText == []
    ensures var body := map["job_description" := JStr(jobDescription), "resume_text" := JStr(resumeText)];
      GenerateCoverLetterEndpoint(clientReady, body, textReply) == Exchange(ErrorResponse(400, EmptyJobOrResume), None)
      && (clientReady ==> AnalyzeSkillGap(clientReady, body, reply) == Exchange(ErrorResponse(400, EmptyJobOrResume), None))
  {
    var body := map["job_description" := JStr(jobDescription), "resume_text" := JStr(resumeText)];
    assert HasJobAndResume(body) by { assert "job_description" in body; }
  }
}
