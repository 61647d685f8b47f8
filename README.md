# MATCH-MY-RESUME in Dafny

A model of the request-handling core of MATCH-MY-RESUME. This is a small Flask
application that reads a PDF resume and then asks a hosted language model for
one of five things: a rewritten resume, a cover letter, a skill-gap analysis,
an ATS (applicant tracking system) score, or a chat turn with an editing
copilot. The whole core lives in one Python file, `app.py`. The model follows
its parts:

- `Text` covers the Python string operations the handlers rely on, over
  `seq<char>`: `strip()` over the `str.isspace` characters, `startswith`, the
  case-sensitive `endswith`, `replace(tag, "")` and `"\n\n".join`.
- `Web` holds the shared vocabulary:
  - decoded JSON values with Python truthiness and `isinstance(v, int)`;
  - responses (a JSON payload with a status, or an exception that escapes the
    handler, which Flask answers with its own 500 page);
  - `Exchange`, a response paired with the model call the request made, if any;
  - the outcomes of the generation service, which are parameters.
- `PdfText` is `pdf_to_text`: a `for` loop over the pages' extraction outcomes,
  proved against a specification function.
- `Prompts` holds the fixed instructions, the user contents of the rewrite,
  cover-letter, skill-gap and ATS prompts, the cover-letter style templates,
  and the strings that `generate_rewritten_resume` and `generate_cover_letter`
  hand back.
- `Uploads` is the upload folder, a class whose file map the routes change, and
  the four multipart routes. Each route screens the request, saves the PDF,
  extracts its text and removes the file. Every route is a method whose
  postcondition gives the response as a function of the request, together with
  the exact new contents of the folder.
- `Endpoints` covers the three JSON routes `/generate_cover_letter`,
  `/analyze_skill_gap` and `/get_ats_score`, with their checks in the order the
  code makes them.
- `Chat` covers the `/chat` route:
  - reading the body and stripping its fields;
  - classifying the tagged preview;
  - assembling the prompt parts (a method proved against a function);
  - joining the parts;
  - shaping the structured reply.

Things outside the process become parameters:

- whether the model client was created at start-up (`clientReady`);
- what the PDF reader reports for each page (`Page`, `Pdf`);
- what the model call returns or raises (`TextReply`, `StructuredReply`);
- `secure_filename` followed by `os.path.join` (`storagePath`).

Behaviour of the code a reader might not expect:

- `/rewrite_resume` accepts an empty `job_description`. It only checks that the
  field is present (`Uploads.RewriteAcceptsEmptyJobDescription`).
- `/get_ats_score` returns the decoded scorecard as it came back. There is no
  0–100 check on `ats_score` and no schema check (`Endpoints.AtsScoreNotRangeChecked`).
  It also accepts an empty `original_resume` (`Endpoints.AtsAcceptsEmptyResume`).
- Not every failure is a JSON object with an `error` field. Some exceptions are
  raised outside any `try`, and Flask answers those with its own 500 page
  (`Response.Uncaught`). These are:
  - `.startswith` on a `None` text from the client;
  - the template lookup with a list or object `template_style`, which cannot be a
    dictionary key and raises `TypeError` (app.py:118; `Endpoints.GenerateCoverLetterEndpoint`);
  - `.strip()` on a non-string chat field;
  - `.get` on a non-object chat body.
- The extracted text is not joined by newlines. Every contributing page
  appends its own `"\n"`, so non-empty text always ends with a newline
  (`PdfText.ConcatEndsWithNewline`).
- `replace` removes every occurrence of a preview's tag, not only the leading
  one (`Chat.ResumeTagsAllRemoved`).
- The rewrite instruction mentions `#` (in "DO NOT use # symbols for
  headings"). It also lacks a space between "**bold and uppercase**." and
  "The output"; `Prompts.RewriteInstruction` keeps the text exactly as written.
- `isinstance(True, int)` holds, so a boolean `deliberation_steps` is kept
  (`Chat.StepCountExamples`).

## Model

| member | source | states |
|---|---|---|
| PdfText.PdfToText | app.py:29-42 | The loop returns `None` when the reader fails or any page raises, and otherwise the concatenation, in page order, of every non-empty page text, each followed by a newline. |
| PdfText.ExtractedText | app.py:29-42 | The text `pdf_to_text` returns: `None` when the reader fails or a page raises, otherwise every page's contribution in order (partners `PdfToText`, `ExtractedTextNoneIff`, `ConcatEmptyIff`). |
| PdfText.ConcatAppend | app.py:34-38 | The text of two runs of pages is the first run's text followed by the second's. |
| PdfText.ConcatSnoc | app.py:34-38 | One more page adds its contribution at the end, exactly as one loop iteration does. |
| PdfText.ConcatEmptyIff | app.py:37-38 | The text is empty exactly when no page contributes, which is the image-only case. |
| PdfText.PageTextInPlace | app.py:34-38 | Each page's contribution appears verbatim in the result, right after the text of the pages before it. |
| PdfText.ConcatEndsWithNewline | app.py:38 | Any non-empty result ends with a newline. |
| PdfText.ExtractedTextNoneIff | app.py:32-41 | The result is `None` exactly when the document cannot be opened or some page raises. |
| Text.LStrip | app.py:472 | The result is the longest suffix whose first character is not whitespace, and everything removed is whitespace. |
| Text.RStrip | app.py:472 | The result is the longest prefix whose last character is not whitespace, and everything removed is whitespace. |
| Text.Strip | app.py:472-475 | The stripped text neither starts nor ends with whitespace, and it occurs in the original. |
| Text.StripEmptyIff | app.py:477 | A field strips to `""` exactly when it is all whitespace. |
| Text.StripKeepsTrimmed | app.py:540-542 | Stripping changes nothing on a string without leading or trailing whitespace. |
| Text.StripIdempotent | app.py:540-542 | Stripping twice is stripping once. |
| Text.RemoveAll | app.py:509 | `replace(pat, "")` never lengthens a string. |
| Text.RemoveAllAbsent | app.py:509 | A pattern that does not occur leaves the string as it was. |
| Text.RemoveAllSkips | app.py:509 | A stretch free of the pattern's first character passes through unchanged, and removal continues after it. |
| Text.RemoveAllShrinks | app.py:509 | A pattern that occurs makes the string strictly shorter. |
| Text.RemoveAllUnchangedIff | app.py:509 | The replacement changes the string exactly when the pattern occurs in it. |
| Text.RemoveAllKeepsFront | app.py:509 | A stretch in which the pattern does not occur passes through unchanged when no occurrence can run from it into what follows. |
| Text.PrefixOfConcat | app.py:508 | A prefix of a concatenation is a prefix of its first part, or its remainder is a prefix of the second part. |
| Text.RemoveAllLeading | app.py:509 | A leading occurrence is removed together with all later ones. |
| Text.Join | app.py:528 | `sep.join(parts)`: no parts give `""`, one part gives itself, and more are separated by `sep` (partners `JoinCons`, `JoinSnoc`). |
| Text.JoinCons | app.py:528 | A part joined in front of a non-empty list is followed by one separator. |
| Text.JoinSnoc | app.py:528 | A part joined at the end is preceded by one separator. |
| Web.ErrorResponse | app.py:183 | `jsonify({'error': m}), s` is an object whose only key is `error`, holding `m`, with status `s`. |
| Prompts.TwoSectionsVerbatim | app.py:343-345 | Two labelled sections in a row frame each body between delimiters, at offsets fixed by what precedes it, and the text after them closes the content. |
| Prompts.FramedBetween | app.py:67 | A body placed between two delimiters is framed at the offset right after the first. |
| Prompts.GeneratedText | app.py:46-83 | With no client, or when the call raises, the returned text carries the `Gemini API Error:` prefix; a raised cause ends the text; otherwise the response's text (possibly `None`) passes through unchanged. |
| Prompts.TwoInputsVerbatim | app.py:66-70 | Both inputs of a two-section content appear verbatim between delimiters, the first before the second, and the trailer closes the text; its length is fixed by the inputs' lengths. |
| Prompts.TwoInputsDetermineSecond | app.py:66-70 | With the first input fixed, the content determines the second input. |
| Prompts.TwoInputsSpill | app.py:66-70 | The delimiters do not make the pair recoverable: a first input that contains the closing delimiter, the second heading and an opening delimiter gives the same content as a different pair. |
| Prompts.RewriteContent | app.py:66-70 | The rewrite content: the job description and existing resume sections, each followed by a blank line, then the trailer (partners `RewriteContentVerbatim`, `RewriteContentLength`). |
| Prompts.RewriteContentVerbatim | app.py:66-70 | The job description and then the existing resume appear verbatim between their delimiters, and the content ends with `REWRITTEN PROFESSIONAL RESUME:`. |
| Prompts.RewriteContentDeterminesResume | app.py:66-70 | For a fixed job description, different resumes give different contents. |
| Prompts.RewriteContentAmbiguous | app.py:66-70 | A job description that embeds the resume heading between delimiters gives the same content as a different pair of inputs. |
| Prompts.TemplateFor | app.py:91-118 | The template is always one of the four, the named one for a known style, and the professional one otherwise. |
| Prompts.TemplateLengths | app.py:91-116 | The four templates have pairwise different lengths. |
| Prompts.TemplateInInstruction | app.py:121-123 | The chosen template appears verbatim in the instruction, right after the lead sentence. |
| Prompts.StyleFallback | app.py:118 | An unknown style gives exactly the professional instruction. |
| Prompts.KnownStylesDistinct | app.py:91-130 | The four named styles give four different instructions. |
| Prompts.CoverLetterInstruction | app.py:121-130 | The lead sentence, the style's template, a space and the fixed rules (partners `TemplateInInstruction`, `StyleFallback`, `KnownStylesDistinct`). |
| Prompts.CoverLetterContent | app.py:133-137 | The job description and resume information sections, each followed by a blank line, then the trailer (partners `CoverLetterContentVerbatim`, `CoverLetterContentLength`). |
| Prompts.CoverLetterContentVerbatim | app.py:133-137 | The job description and then the resume information appear verbatim between their delimiters, and the content ends with `PROFESSIONAL COVER LETTER:`. |
| Prompts.RewriteAndCoverLetterDiffer | app.py:66-70 | No rewrite content equals any cover-letter content, whatever the inputs. |
| Prompts.SkillGapContent | app.py:343-352 | The triple-quoted skill-gap prompt: a newline, the two indented sections, a line of four spaces, the request lines with an empty indented line before `Focus`, and a final indentation (partners `SkillGapContentVerbatim`, `SkillGapContentLength`). |
| Prompts.SkillGapContentVerbatim | app.py:343-352 | The job description and then the resume appear verbatim between their delimiters in the skill-gap prompt. |
| Prompts.AtsContent | app.py:411-427 | The triple-quoted ATS prompt: a newline, the indented resume section, and the indented request lines (partners `AtsContentVerbatim`, `AtsContentLength`). |
| Prompts.AtsContentVerbatim | app.py:411-427 | The resume appears verbatim between delimiters in the ATS prompt, followed by exactly the fixed request text. |
| Prompts.RewriteContentLength | app.py:66-70 | The rewrite content is 84 characters longer than its two inputs together. |
| Prompts.CoverLetterContentLength | app.py:133-137 | The cover-letter content is 83 characters longer than its two inputs together. |
| Prompts.SkillGapContentLength | app.py:343-352 | The skill-gap content is 445 characters longer than its two inputs together. |
| Prompts.AtsContentLength | app.py:411-427 | The ATS content is 716 characters longer than the resume. |
| Uploads.UploadFolder.constructor | app.py:15-16 | A newly created upload folder holds no files and has no history. The routes themselves work on a folder with any contents. |
| Uploads.UploadFolder.Save | app.py:195 | Saving stores the document at the path, replacing what was there, and logs the save; every other path keeps its file. |
| Uploads.UploadFolder.Remove | app.py:200 | Removing an existing path deletes exactly that file and logs the removal. |
| Uploads.Screen | app.py:182-191 | The request passes exactly when the parts are present, a file was selected and its name ends in `.pdf`; a rejection is a 400 with an error object. |
| Uploads.RewriteResumeExchange | app.py:179-218 | 400 exactly when screening fails. A screened upload without text is the extraction 500 with no call. With text but no client it is the client-not-initialized 500 with no call. Once the model is called, a raised call is the 500 with `Gemini API Error:` and the cause, an error text is the 500 with that text, a `None` text escapes as the uncaught `AttributeError`, and any other text is the 200 with exactly `rewritten_resume` (that text) and `original_resume` (the extracted text). The model is called exactly when screening passes, text was extracted and a client exists, and then with the rewrite prompt built from the form's job description and the extracted text. Every payload response is 200, 400 or 500, and every non-200 one is an error object. |
| Uploads.RewriteResume | app.py:179-218 | The route answers as `RewriteResumeExchange` says. A screened upload is saved and then removed on every path, so the folder loses exactly that path and logs one save and one removal. A rejected request leaves the folder untouched. |
| Uploads.UploadResumeResponse | app.py:220-244 | 400 exactly when screening fails. A screened upload without text (unreadable, a page that raises, or only empty pages) is the extraction 500. 200 exactly when text was extracted, carrying only that text under the route's key. Every other payload is an error object. |
| Uploads.UploadResume | app.py:220-296 | The three text-only routes answer as `UploadResumeResponse` says and leave the folder cleaned up in the same way as the rewrite route. |
| Uploads.CleanupRemovesOnlyTheUpload | app.py:199-207 | After any request, the uploaded path is gone, no other file was added or changed, every other file is still there, and the log grew by nothing or by one save and one removal. |
| Uploads.RewriteRejectionOrder | app.py:182-218 | The rejections come in the code's order: missing parts, then an empty filename, then a non-PDF name. None of them depends on the file's contents, the client or the reply, and none calls the model. |
| Uploads.UploadRejectionOrder | app.py:223-244 | The text-only routes reject in the code's order: no file part (`No file uploaded`), then an empty filename, then a non-PDF name, whatever the file holds. |
| Uploads.RewriteEmptyExtraction | app.py:197-201 | A screened upload that yields no text is answered with the extraction error and never reaches the model. |
| Uploads.ImageOnlyRejected | app.py:235-239 | A document whose pages all extract empty or `None` is refused with the extraction error. |
| Uploads.RewriteSuccess | app.py:204-216 | With a client, the route succeeds exactly when the model returns a text without the error prefix, and it then returns that text beside the extracted resume, under exactly those two keys. |
| Uploads.RewriteAcceptsEmptyJobDescription | app.py:182-185 | An empty job description still reaches the model. |
| Uploads.UpperCaseExtensionRefused | app.py:191 | `CV.PDF` is refused as an unsupported file type. |
| Endpoints.StyleInstruction | app.py:118 | A string style selects its template or falls back to professional. A list or object style cannot be a dictionary key. Any other value falls back to professional. |
| Endpoints.StyleOf | app.py:306 | `template_style` defaults to `professional` when absent. |
| Endpoints.GenerateCoverLetterEndpoint | app.py:298-317 | 400 exactly when a field is missing or falsy, checked before the client: a missing field gives the missing-field error object and a falsy one the empty-field error object. A missing client is then a 500 with the client error. The model is called exactly when the fields are valid, the client exists and the style is hashable, and the call is then the one `SendCoverLetter` describes. A list or object style escapes as the uncaught `TypeError`, with no call. |
| Endpoints.SendCoverLetter | app.py:139-150 | The cover-letter call is made. The answer is 200 exactly when a non-error text comes back, and it then carries only `cover_letter`. Any other payload is a 500 error object, carrying the prefixed cause when the call raised and the returned text itself when it carries the error prefix. A `None` text escapes as an `AttributeError`. |
| Endpoints.AnalyzeSkillGap | app.py:319-388 | The client is checked first (500). 400 exactly when a field is missing or falsy, answered with the missing-field or the empty-field error object. The model is called exactly when both checks pass, with both field values. A parsed reply is returned as it is; a failure is a 500 with `Failed to analyze skill gaps: ` and the cause. |
| Endpoints.GetAtsScore | app.py:391-459 | The client is checked first (500). 400 exactly when `original_resume` is absent, answered with the missing-resume error object. The model is called exactly when both checks pass. A parsed scorecard is returned as it is; a failure is a 500 with `Failed to generate ATS score: ` and the cause. |
| Endpoints.PromptOf | app.py:66-528 | The prompt a recorded call sends, as built at app.py:66-70, 121-137, 343-352, 411-427 and 503-528. Rewrite and chat calls carry their prompt; a cover-letter, skill-gap or ATS call with string arguments sends its instruction with the content built from those strings. |
| Endpoints.CoverLetterPrompt | app.py:304-312 | With non-empty string fields and a client, the cover-letter route sends the instruction of the requested style (`professional` by default) with the cover-letter content of the two fields. |
| Endpoints.SkillGapPrompt | app.py:328-373 | With non-empty string fields and a client, the skill-gap route sends its instruction with the skill-gap content of the two fields. |
| Endpoints.AtsPrompt | app.py:400-412 | A string `original_resume` is sent inside the ATS content, whatever else the body holds. |
| Endpoints.CheckOrderDiffers | app.py:301-326 | With no client and an empty body, the cover-letter route answers 400 while the skill-gap and ATS routes answer 500. |
| Endpoints.AtsScoreNotRangeChecked | app.py:454-455 | A scorecard with `ats_score` 150 is returned with status 200. |
| Endpoints.AtsAcceptsEmptyResume | app.py:397-400 | An empty `original_resume` is still sent to the model. |
| Endpoints.EmptyFieldsRefused | app.py:308-332 | An empty job description or resume text is refused with 400 before any call, and the cover-letter route does so with or without a client. |
| Chat.ClassifyPreview | app.py:506-516 | A preview is a cover letter exactly when it starts with `COVER_LETTER:`. A tagged preview loses every occurrence of its own tag and gets shorter. An untagged preview is a resume, unchanged. |
| Chat.ClassifyExamples | app.py:508-516 | Three sample previews: `RESUME:abc` gives resume `abc`, `COVER_LETTER:xyz` gives cover letter `xyz`, and `abc` gives resume `abc`. |
| Chat.ClassifyCoverLetter | app.py:508-510 | A cover-letter preview is the text after its tag, with further cover-letter tags removed. |
| Chat.ClassifyResume | app.py:511-513 | A resume preview is the text after its tag, with further resume tags removed. |
| Chat.ResumeTagsAllRemoved | app.py:512 | For any two texts free of `RESUME:`, a `RESUME:` between them is removed as well as the leading one. |
| Chat.ResumeTagNoOverlap | app.py:512 | No occurrence of `RESUME:` can start before a `RESUME:` and run into it, because no proper suffix of the tag begins it. |
| Chat.CoverLetterKeepsResumeTags | app.py:509 | For any two texts free of `COVER_LETTER:`, a cover-letter preview keeps the `RESUME:` between them. |
| Chat.CoverLetterTagNoOverlap | app.py:509 | No occurrence of `COVER_LETTER:` can run into a following `RESUME:`. |
| Chat.OtherTagKept | app.py:509 | Removing a pattern that occurs in neither of two texts, and cannot run into a stretch without its first character, keeps both texts and the stretch. |
| Chat.PromptParts | app.py:503-523 | The job description and the preview each add a part only when non-empty, the preview part being placed after the job part. The user-message section and the fixed trailer always come last. |
| Chat.AssemblePromptParts | app.py:503-523 | The appends produce exactly `PromptParts`. |
| Chat.ChatContent | app.py:528 | The parts joined by blank lines (partners `ChatContentLayout`, `ChatContentEndsWithMessage`). |
| Chat.ChatPrompt | app.py:481-535 | The chat instruction with the joined content of the fields read (partners `ChatAnswer`, `MessageOnlyPrompt`). |
| Chat.ChatContentLayout | app.py:528 | The joined content is each present optional part followed by a blank line, then the message section, a blank line and the trailer. |
| Chat.ChatContentEndsWithMessage | app.py:517-528 | Whatever precedes it, the content ends with the message section, a blank line and the trailer. |
| Chat.StrippedField | app.py:540-542 | A falsy value reads as `""` and a string is stripped. Any other value raises, with the `AttributeError` message for `strip`. Every value read has no surrounding whitespace. |
| Chat.NoneIfEmpty | app.py:547-548 | `""` becomes `null`, and any other string is kept. |
| Chat.StepCount | app.py:543-549 | An `int` from the reply (a boolean included) is kept, and an absent or non-`int` value becomes `null`. |
| Chat.StepCountExamples | app.py:549 | A boolean step count is kept, and a float one becomes `null`. |
| Chat.ShapeReply | app.py:537-550 | A non-object reply raises on `get`. An object is shaped exactly when its three text fields read without raising, into a payload with exactly the four keys. `reply_text` is trimmed, the preview and summary are `null` or non-empty trimmed text, and the step count is `StepCount`. The payload is exactly `Payload` of the three stripped fields and the raw step count. A field that raises is read in the order `reply_text`, `updated_preview`, `reasoning_summary`, and the first to fail gives its `AttributeError` message. |
| Chat.Payload | app.py:545-550 | The payload has exactly the four keys and is shaped. `reply_text` is as given, `updated_preview` and `reasoning_summary` are their stripped text or `null` when empty, and the step count is narrowed to an `int` or `null`. |
| Chat.RequestBody | app.py:471 | A missing or falsy payload reads as `{}`, and any other value is kept. |
| Chat.BodyField | app.py:472-475 | An absent field reads as `""` and a string field is stripped. A non-string field raises `AttributeError`. Every value read has no surrounding whitespace. |
| Chat.ReadFields | app.py:472-475 | The three fields are read in the order `message`, `job_description`, `current_preview`, and the first to fail gives its `AttributeError` message. The result holds every field's stripped value, each without surrounding whitespace. |
| Chat.ChatIntake | app.py:465-478 | The checks come in the code's order: client (500), content type (400), `get` on the body (escapes), each `strip` (escapes), blank message (400). Accepted fields carry a non-empty trimmed message, and every 400 is an error object. |
| Chat.ChatAnswer | app.py:525-553 | The chat call is made with the prompt built from the fields. A failed call or shaping is a 500 with `Failed to process chat: ` and the message. A shaped reply is a 200 with the payload. |
| Chat.Chat | app.py:462-553 | The model is called exactly when the intake accepts. A refusal is answered without a call. A 400 never follows a call and is always an error object. |
| Chat.BlankMessageRefused | app.py:472-478 | An absent or all-whitespace message is refused with 400, whatever the other fields hold, provided they read without raising. |
| Chat.FalsyPayloadRefused | app.py:471-478 | A missing or falsy JSON payload is refused as a missing message. |
| Chat.NonObjectPayloadUncaught | app.py:471-472 | A truthy non-object payload makes `get` raise outside the `try`. |
| Chat.MessageOnlyPrompt | app.py:503-528 | A body holding only a message is accepted with no other part, and its content is the message section, a blank line and the trailer. |

## Left out

- The page routes (`/`, `/ats-checker`, `/resume-generator`, `/cover-letter`, `/skill-gap`, app.py:154-177) only render templates, so they are not modelled.
- The Gemini client is left out: its creation from `GEMINI_API_KEY`, the model name, the temperatures, the MIME type and the response schemas. Whether a client exists is the `clientReady` parameter. What a call returns or raises is a `TextReply` or `StructuredReply` parameter.
- PyPDF2 is replaced by what it reports: `Pdf.Unreadable`, or per page a text, `None`, or an exception.
- `secure_filename` and `os.path.join` are the `storagePath` parameter. The model does not state that two uploads get different paths.
- Failures of `save` and `os.remove` themselves are not modelled, because they are file-system errors and the model has no file system.
- Endpoints.GenerateCoverLetterEndpoint, Endpoints.AnalyzeSkillGap and Endpoints.GetAtsScore: the body is the decoded JSON object. A non-object JSON body (where `in` tests and indexing behave differently) is not modelled. Neither is a request that is not JSON at all: Flask's `request.json` refuses it itself, with 415 or 400, before the handler's checks; only the chat route, which tests `request.is_json`, models that case.
- Endpoints.PromptOf: the recorded call of a JSON route holds the decoded field values. Their prompt is given only when the values are strings (`Endpoints.CoverLetterPrompt`, `Endpoints.SkillGapPrompt`, `Endpoints.AtsPrompt`). Python's `str()` of any other JSON value embedded in an f-string is not modelled.
- Text.Strip: its own contract states only that the result is trimmed and occurs in the input. The exact characterisation follows from `Text.LStrip` and `Text.RStrip`, which it composes.
- `print` logging, `load_dotenv` and `app.run` are not modelled, because they are I/O only. `os.makedirs(..., exist_ok=True)` may find a folder that already holds files; the routes' contracts hold for any contents.
- Concurrency between requests is not modelled. Each route is one sequential method or function, and the upload folder is not shared with other requests.
- `json.loads` is part of the `StructuredReply` parameter: a reply that does not parse is a `Failed` outcome.
