/** The prompt builders: the fixed instructions and the user contents assembled
    for each use case, the cover-letter style lookup, and the text that
    `generate_rewritten_resume` and `generate_cover_letter` hand back. */
module Prompts {
  import opened Wrappers
  import opened Text
  import opened Web

  /** The marker that opens every section body and closes it. */
  const Delim := "\n---\n"

  /** `f"{heading}\n---\n{body}\n---\n"`, the shape every labelled input takes. */
  function Section(heading: string, body: string): string {
    heading + Delim + body + Delim
  }

  /** `body` stands at offset `at` of `c`, with a delimiter right before and right after it. */
  predicate Framed(c: string, at: int, body: string) {
    |Delim| <= at && at + |body| + |Delim| <= |c|
    && c[at - |Delim|..at] == Delim && c[at..at + |body|] == body
    && c[at + |body|..at + |body| + |Delim|] == Delim
  }

  /** A body placed between two delimiters is framed at the offset just after the first. */
  lemma FramedBetween(pre: string, body: string, post: string)
    ensures Framed(pre + Delim + body + Delim + post, |pre| + |Delim|, body)
  {
    var c := pre + Delim + body + Delim + post;
    var at := |pre| + |Delim|;
    assert c[at - |Delim|..at] == Delim;
    assert c[at..at + |body|] == body;
    assert c[at + |body|..at + |body| + |Delim|] == Delim;
  }

  /** Two framed inputs in a row: each stands between delimiters, at offsets
      fixed by what precedes it, and the fixed text after the second one closes
      the content. */
  lemma TwoSectionsVerbatim(pre: string, h1: string, x: string, mid: string, h2: string, y: string, post: string)
    ensures var c := pre + Section(h1, x) + mid + Section(h2, y) + post;
      var j := |pre| + |h1| + |Delim|;
      var k := j + |x| + |Delim| + |mid| + |h2| + |Delim|;
      Framed(c, j, x) && Framed(c, k, y) && j + |x| + |Delim| <= k && |post| <= |c| && c[|c| - |post|..] == post
  {
    FirstFramed(pre, h1, x, mid + Section(h2, y) + post);
    var before := pre + Section(h1, x) + mid;
    SecondFramed(before, h2, y, post);
    assert before + Section(h2, y) + post == pre + Section(h1, x) + (mid + Section(h2, y) + post) by {
      AppendAssoc(pre + Section(h1, x), mid, Section(h2, y));
      AppendAssoc(pre + Section(h1, x), mid + Section(h2, y), post);
    }
  }

  /** The body of a section that follows `pre` is framed just after its heading. */
  lemma FirstFramed(pre: string, heading: string, body: string, rest: string)
    ensures Framed(pre + Section(heading, body) + rest, |pre| + |heading| + |Delim|, body)
  {
    SectionAfter(pre, heading, body);
    FramedBetween(pre + heading, body, rest);
  }

  /** The body of a section that precedes `post` is framed just after its
      heading, and `post` closes the text. */
  lemma SecondFramed(before: string, heading: string, body: string, post: string)
    ensures var c := before + Section(heading, body) + post;
      Framed(c, |before| + |heading| + |Delim|, body) && |post| <= |c| && c[|c| - |post|..] == post
  {
    SectionAfter(before, heading, body);
    FramedBetween(before + heading, body, post);
    DropPrefix(before + Section(heading, body), post);
  }

  /** A section appended to a prefix, regrouped so that its heading joins the prefix. */
  lemma SectionAfter(pre: string, heading: string, body: string)
    ensures pre + Section(heading, body) == (pre + heading) + Delim + body + Delim
  {
    AppendAssoc(pre, heading + Delim + body, Delim);
    AppendAssoc(pre, heading + Delim, body);
    AppendAssoc(pre, heading, Delim);
  }

  // ---------------------------------------------------------------------
  // Failure marking shared by the two plain-text generators

  /** The prefix by which the routes recognise a failed generation. */
  const ApiErrorPrefix := "Gemini API Error:"

  /** What both generators return when no client was created at start-up. */
  const ClientNotInitialized := ApiErrorPrefix + " Client not initialized."

  predicate IsApiError(t: string) {
    StartsWith(t, ApiErrorPrefix)
  }

  /** The value `generate_rewritten_resume` and `generate_cover_letter` return
      once their prompt is built: a missing client and a raised exception both
      become a string carrying the error prefix; otherwise the response's text
      is passed through, `None` included. */
  function GeneratedText(clientReady: bool, reply: TextReply): (r: Option<string>)
    ensures !clientReady || reply.Raised? ==> r.Some? && IsApiError(r.value)
    ensures clientReady && reply.Raised? ==> EndsWith(r.value, reply.cause)
    ensures clientReady && reply.Generated? ==> r == reply.text
  {
    if !clientReady then Some(ClientNotInitialized)
    else match reply
      case Raised(cause) => Some(ApiErrorPrefix + " " + cause)
      case Generated(text) => text
  }

  /** The exception the routes' `.startswith(...)` test raises when the
      client library returned no text. */
  const NoneStartsWith := "AttributeError: " + NoAttributeMessage(JNull, "startswith")

  // ---------------------------------------------------------------------
  // Resume rewrite

  const RewriteInstruction :=
    "You are an expert HR and professional resume writer. "
    + "Your task is to rewrite the provided 'Existing Resume' to perfectly match "
    + "the 'Job Description'. Use existing content that is suitable. "
    + "If any required skills or projects are missing for the job role, seamlessly add them based on common job requirements. "
    + "Rephrase and reformat content to highlight keywords and relevance. "
    + "Use bullet points and proper professional sections. "
    + "Heading (like project names, technical skills, education, certification, and awards) should be in **bold and uppercase**."
    + "The output must be the full, complete, and rewritten resume text, formatted clearly with Markdown. "
    + "DO NOT include any introductory dialogue or surrounding text\U{2014}only the resume. "
    + "DO NOT use # symbols for headings - use **bold** formatting instead. "
    + "DO NOT use --- separators anywhere in the resume. "
    + "The resume can be longer than one page if necessary."

  /** The shape shared by the rewrite and cover-letter contents: two
      labelled sections, each followed by a newline, then a fixed trailer. */
  function TwoInputs(h1: string, x: string, h2: string, y: string, trailer: string): string {
    Section(h1, x) + "\n" + Section(h2, y) + "\n" + trailer
  }

  /** Where the second input starts, after a first heading `h1`, a first input of length `n` and a second heading `h2`. */
  function SecondAt(h1: string, n: nat, h2: string): nat { |h1| + |Delim| + n + |Delim| + 1 + |h2| + |Delim| }

  /** Both inputs appear verbatim between delimiters, at offsets fixed by the
      headings and the first input's length, and the trailer closes the text. */
  lemma TwoInputsVerbatim(h1: string, x: string, h2: string, y: string, trailer: string)
    ensures var c := TwoInputs(h1, x, h2, y, trailer);
      Framed(c, |h1| + |Delim|, x) && Framed(c, SecondAt(h1, |x|, h2), y)
      && |h1| + |Delim| + |x| + |Delim| < SecondAt(h1, |x|, h2)
      && |c| == SecondAt(h1, |x|, h2) + |y| + |Delim| + 1 + |trailer|
      && EndsWith(c, trailer)
  {
    TwoInputsFirst(h1, x, h2, y, trailer);
    TwoInputsSecond(h1, x, h2, y, trailer);
  }

  /** The first input of a two-section content is framed right after its heading. */
  lemma TwoInputsFirst(h1: string, x: string, h2: string, y: string, trailer: string)
    ensures Framed(TwoInputs(h1, x, h2, y, trailer), |h1| + |Delim|, x)
  {
    var s1 := Section(h1, x);
    var s2 := Section(h2, y);
    var rest := "\n" + s2 + "\n" + trailer;
    assert TwoInputs(h1, x, h2, y, trailer) == s1 + rest by {
      AppendAssoc(s1, "\n", s2);
      AppendAssoc(s1, "\n" + s2, "\n");
      AppendAssoc(s1, "\n" + s2 + "\n", trailer);
    }
    FramedBetween(h1, x, rest);
  }

  /** The second input of a two-section content is framed right after its
      heading, and the trailer closes the text. */
  lemma TwoInputsSecond(h1: string, x: string, h2: string, y: string, trailer: string)
    ensures var c := TwoInputs(h1, x, h2, y, trailer);
      Framed(c, SecondAt(h1, |x|, h2), y)
      && |c| == SecondAt(h1, |x|, h2) + |y| + |Delim| + 1 + |trailer|
      && EndsWith(c, trailer)
  {
    var front := Section(h1, x) + "\n";
    var s2 := Section(h2, y);
    assert TwoInputs(h1, x, h2, y, trailer) == front + s2 + ("\n" + trailer) by {
      AppendAssoc(front + s2, "\n", trailer);
    }
    SecondFramed(front, h2, y, "\n" + trailer);
    DropPrefix(front + s2 + "\n", trailer);
  }

  /** With the first input fixed, the content determines the second input. */
  lemma TwoInputsDetermineSecond(h1: string, x: string, h2: string, y1: string, y2: string, trailer: string)
    requires TwoInputs(h1, x, h2, y1, trailer) == TwoInputs(h1, x, h2, y2, trailer)
    ensures y1 == y2
  {
    TwoInputsVerbatim(h1, x, h2, y1, trailer);
    TwoInputsVerbatim(h1, x, h2, y2, trailer);
  }

  /** The delimiters do not make the pair recoverable: a first input that
      itself contains the closing delimiter, the second heading and an opening
      delimiter gives the same content as a different pair. */
  lemma TwoInputsSpill(h1: string, a: string, b: string, h2: string, c: string, trailer: string)
    ensures var spill := Delim + "\n" + h2 + Delim;
      TwoInputs(h1, a + spill + b, h2, c, trailer) == TwoInputs(h1, a, h2, b + spill + c, trailer)
  {
  }

  const JobLabel := "Job Description:"
  const ExistingResumeLabel := "Existing Resume:"
  const RewriteTrailer := "REWRITTEN PROFESSIONAL RESUME:"

  /** The user content of a resume rewrite. */
  function RewriteContent(jobDescription: string, resumeText: string): string {
    TwoInputs(JobLabel, jobDescription, ExistingResumeLabel, resumeText, RewriteTrailer)
  }

  /** The job description and then the resume text appear verbatim, each
      between delimiters, and the content ends with the rewrite trailer. */
  lemma RewriteContentVerbatim(jobDescription: string, resumeText: string)
    ensures var c := RewriteContent(jobDescription, resumeText);
      var k := SecondAt(JobLabel, |jobDescription|, ExistingResumeLabel);
      Framed(c, |JobLabel| + |Delim|, jobDescription) && Framed(c, k, resumeText)
      && |JobLabel| + |Delim| + |jobDescription| + |Delim| < k
      && EndsWith(c, RewriteTrailer)
  {
    TwoInputsVerbatim(JobLabel, jobDescription, ExistingResumeLabel, resumeText, RewriteTrailer);
  }

  /** With the job description fixed, different resume texts give different contents. */
  lemma RewriteContentDeterminesResume(jobDescription: string, r1: string, r2: string)
    requires RewriteContent(jobDescription, r1) == RewriteContent(jobDescription, r2)
    ensures r1 == r2
  {
    TwoInputsDetermineSecond(JobLabel, jobDescription, ExistingResumeLabel, r1, r2, RewriteTrailer);
  }

  /** A job description that contains the existing-resume heading between
      delimiters gives the same content as a different pair of inputs. */
  lemma RewriteContentAmbiguous(a: string, b: string, c: string)
    ensures var spill := Delim + "\n" + ExistingResumeLabel + Delim;
      RewriteContent(a + spill + b, c) == RewriteContent(a, b + spill + c)
  {
    TwoInputsSpill(JobLabel, a, b, ExistingResumeLabel, c, RewriteTrailer);
  }

  // ---------------------------------------------------------------------
  // Cover letter

  const ProfessionalStyle := "professional"

  /** `template_instructions`: one structural directive per named style. */
  const Templates: map<string, string> := map[
    ProfessionalStyle :=
      "Write a professional, formal cover letter with clear structure including: "
      + "proper business letter format with date, recipient address, greeting, "
      + "3-4 paragraphs (introduction, body with specific examples, closing), "
      + "and professional sign-off.",
    "modern" :=
      "Write a modern, engaging cover letter that stands out while remaining professional. "
      + "Use a more conversational tone, include specific achievements with metrics, "
      + "and demonstrate passion for the role. Structure: compelling opening, "
      + "2-3 body paragraphs with concrete examples, and strong closing.",
    "creative" :=
      "Write a creative cover letter that showcases personality while maintaining professionalism. "
      + "Use storytelling elements, include unique angles about why you're perfect for the role, "
      + "and demonstrate creativity in presentation. Structure: hook opening, "
      + "narrative body with examples, memorable closing.",
    "executive" :=
      "Write an executive-level cover letter with strategic focus and leadership emphasis. "
      + "Highlight vision, strategic thinking, and high-level achievements. "
      + "Use confident language and focus on business impact. Structure: "
      + "executive summary opening, strategic body paragraphs, leadership-focused closing."
  ]

  /** `template_instructions.get(style, template_instructions["professional"])`. */
  function TemplateFor(style: string): (t: string)
    ensures t in Templates.Values
    ensures style in Templates ==> t == Templates[style]
    ensures style !in Templates ==> t == Templates[ProfessionalStyle]
  {
    if style in Templates then Templates[style] else Templates[ProfessionalStyle]
  }

  /** The four templates have four different lengths. */
  lemma TemplateLengths()
    ensures forall s1, s2 | s1 in Templates && s2 in Templates && s1 != s2 :: |Templates[s1]| != |Templates[s2]|
  {
    assert |Templates[ProfessionalStyle]| == 239;
    assert |Templates["modern"]| == 292;
    assert |Templates["creative"]| == 297;
    assert |Templates["executive"]| == 296;
  }

  const CoverLetterLead := "You are an expert professional cover letter writer. "

  const CoverLetterRules :=
    "Extract relevant information from both the job description and resume to create a compelling cover letter. "
    + "Use specific examples from the resume that match job requirements. "
    + "Address the hiring manager directly and demonstrate knowledge of the company/role. "
    + "The output must be the complete cover letter text, properly formatted. "
    + "DO NOT include any introductory dialogue or surrounding text\U{2014}only the cover letter. "
    + "Use proper business letter formatting with appropriate spacing and structure."

  /** The system instruction of a cover letter in the given style. */
  function CoverLetterInstruction(style: string): string {
    CoverLetterLead + TemplateFor(style) + " " + CoverLetterRules
  }

  /** The selected style's template appears verbatim inside the instruction,
      right after the fixed lead sentence. */
  lemma TemplateInInstruction(style: string)
    ensures var i := CoverLetterInstruction(style); var t := TemplateFor(style);
      |CoverLetterLead| + |t| <= |i| && i[|CoverLetterLead|..|CoverLetterLead| + |t|] == t
  {
    var t := TemplateFor(style);
    AppendAssoc(CoverLetterLead + t, " ", CoverLetterRules);
    MiddleSlice(CoverLetterLead, t, " " + CoverLetterRules);
  }

  /** The middle of three concatenated strings is found at the first one's length. */
  lemma MiddleSlice(a: string, b: string, c: string)
    ensures |a| + |b| <= |a + b + c| && (a + b + c)[|a|..|a| + |b|] == b
  {
  }

  /** An unknown style is written exactly as the professional one. */
  lemma StyleFallback(style: string)
    requires style !in Templates
    ensures CoverLetterInstruction(style) == CoverLetterInstruction(ProfessionalStyle)
  {
  }

  /** The four named styles give four different instructions. */
  lemma KnownStylesDistinct(s1: string, s2: string)
    requires s1 in Templates && s2 in Templates && s1 != s2
    ensures CoverLetterInstruction(s1) != CoverLetterInstruction(s2)
  {
    TemplateInInstruction(s1);
    TemplateInInstruction(s2);
    TemplateLengths();
  }

  const ResumeInformationLabel := "Resume Information:"
  const CoverLetterTrailer := "PROFESSIONAL COVER LETTER:"

  /** The user content of a cover letter. */
  function CoverLetterContent(jobDescription: string, resumeText: string): string {
    TwoInputs(JobLabel, jobDescription, ResumeInformationLabel, resumeText, CoverLetterTrailer)
  }

  /** The job description and then the resume text appear verbatim, each
      between delimiters, and the content ends with the cover-letter trailer. */
  lemma CoverLetterContentVerbatim(jobDescription: string, resumeText: string)
    ensures var c := CoverLetterContent(jobDescription, resumeText);
      var k := SecondAt(JobLabel, |jobDescription|, ResumeInformationLabel);
      Framed(c, |JobLabel| + |Delim|, jobDescription) && Framed(c, k, resumeText)
      && |JobLabel| + |Delim| + |jobDescription| + |Delim| < k
      && EndsWith(c, CoverLetterTrailer)
  {
    TwoInputsVerbatim(JobLabel, jobDescription, ResumeInformationLabel, resumeText, CoverLetterTrailer);
  }

  /** The two builders never produce the same content: their trailers differ
      in their next-to-last character. */
  lemma RewriteAndCoverLetterDiffer(j1: string, r1: string, j2: string, r2: string)
    ensures RewriteContent(j1, r1) != CoverLetterContent(j2, r2)
  {
    var a := RewriteContent(j1, r1);
    var b := CoverLetterContent(j2, r2);
    RewriteContentVerbatim(j1, r1);
    CoverLetterContentVerbatim(j2, r2);
    EndsWithAt(a, RewriteTrailer, |RewriteTrailer| - 2);
    EndsWithAt(b, CoverLetterTrailer, |CoverLetterTrailer| - 2);
    assert RewriteTrailer[|RewriteTrailer| - 2] != CoverLetterTrailer[|CoverLetterTrailer| - 2];
  }

  // ---------------------------------------------------------------------
  // Skill-gap analysis and ATS scoring (structured output)

  const SkillGapInstruction :=
    "You are an expert career advisor and skills analyst. "
    + "Your task is to analyze the given resume against the job description to identify: "
    + "1. Skills that match between the resume and job requirements "
    + "2. Missing skills and areas for improvement "
    + "Your output MUST be a single JSON object that strictly conforms to the provided schema."

  const Indent := "\n    "

  const SkillGapRequest :=
    Indent
    + Indent + "Analyze the resume against the job description and provide:"
    + Indent + "1. A comprehensive list of matching skills (technical skills, soft skills, tools, technologies, etc.)"
    + Indent + "2. Missing skills and areas for improvement that would make the candidate more suitable for this role"
    + Indent
    + Indent + "Focus on specific, actionable insights that help the candidate understand their skill alignment."
    + Indent

  /** The content of the skill-gap prompt (an indented triple-quoted string in app.py). */
  function SkillGapContent(jobDescription: string, resumeText: string): string {
    Indent + Section(JobLabel, jobDescription) + Indent + Section("Resume:", resumeText) + SkillGapRequest
  }

  /** Both inputs appear verbatim between delimiters, job description first. */
  lemma SkillGapContentVerbatim(jobDescription: string, resumeText: string)
    ensures var c := SkillGapContent(jobDescription, resumeText);
      var j := |Indent| + |JobLabel| + |Delim|;
      var k := j + |jobDescription| + |Delim| + |Indent| + |"Resume:"| + |Delim|;
      Framed(c, j, jobDescription) && Framed(c, k, resumeText)
  {
    TwoSectionsVerbatim(Indent, JobLabel, jobDescription, Indent, "Resume:", resumeText, SkillGapRequest);
  }

  const AtsInstruction :=
    "You are an expert ATS (Applicant Tracking System) analyst and Senior Recruiter. "
    + "Your task is to evaluate the given resume for general ATS compatibility and overall quality. "
    + "Provide a numerical score out of 100 that represents the likelihood this resume will pass ATS screening for most job applications. "
    + "Focus on technical formatting, keyword optimization, structure, and overall professional presentation. "
    + "Your output MUST be a single JSON object that strictly conforms to the provided schema."

  const AtsLabel := "Resume to Analyze:"

  const AtsRequest :=
    Indent
    + Indent + "Analyze this resume for general ATS compatibility. Consider:"
    + Indent + "- Technical formatting (proper headers, consistent structure, clean layout)"
    + Indent + "- Keyword optimization and industry-relevant terms"
    + Indent + "- Contact information completeness"
    + Indent + "- Professional summary quality"
    + Indent + "- Skills section organization"
    + Indent + "- Work experience formatting and detail"
    + Indent + "- Education section completeness"
    + Indent + "- Overall readability and ATS-friendly formatting"
    + Indent + "- Length appropriateness (not too short, not too long)"
    + Indent + "- Action verbs and quantified achievements"
    + Indent
    + Indent + "Generate a score that reflects how well this resume would perform across various job applications and ATS systems."
    + Indent

  /** The content of the ATS prompt: the resume alone, no job description. */
  function AtsContent(originalResume: string): string {
    Indent + Section(AtsLabel, originalResume) + AtsRequest
  }

  /** The resume appears verbatim between delimiters, and the content is the
      same whatever resume is given apart from that slot. */
  lemma AtsContentVerbatim(originalResume: string)
    ensures var c := AtsContent(originalResume);
      var j := |Indent| + |AtsLabel| + |Delim|;
      Framed(c, j, originalResume) && c[j + |originalResume| + |Delim|..] == AtsRequest
  {
    SectionAfter(Indent, AtsLabel, originalResume);
    FramedBetween(Indent + AtsLabel, originalResume, AtsRequest);
  }

  /** Around its inputs, the rewrite content holds the 84 characters of the
      code's literals. */
  lemma RewriteContentLength(jobDescription: string, resumeText: string)
    ensures |RewriteContent(jobDescription, resumeText)| == |jobDescription| + |resumeText| + 84
  {
    TwoInputsVerbatim(JobLabel, jobDescription, ExistingResumeLabel, resumeText, RewriteTrailer);
  }

  /** Around its inputs, the cover-letter content holds the 83 characters of
      the code's literals. */
  lemma CoverLetterContentLength(jobDescription: string, resumeText: string)
    ensures |CoverLetterContent(jobDescription, resumeText)| == |jobDescription| + |resumeText| + 83
  {
    TwoInputsVerbatim(JobLabel, jobDescription, ResumeInformationLabel, resumeText, CoverLetterTrailer);
  }

  /** Around its inputs, the skill-gap content holds the 445 characters of
      the code's triple-quoted literal. */
  lemma SkillGapContentLength(jobDescription: string, resumeText: string)
    ensures |SkillGapContent(jobDescription, resumeText)| == |jobDescription| + |resumeText| + 445
  {
    assert |SkillGapRequest| == 392;
  }

  /** Around the resume, the ATS content holds the 716 characters of the
      code's triple-quoted literal. */
  lemma AtsContentLength(originalResume: string)
    ensures |AtsContent(originalResume)| == |originalResume| + 716
  {
    assert |AtsRequest| == 683;
  }
}
