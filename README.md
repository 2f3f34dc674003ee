# Resume relevance and ATS feedback pipeline, modelled in Dafny

This project models the core of `app.py`, a small Gradio app. The app reads the text of an
uploaded PDF resume and compares it with a pasted job description, plus an optional list of
skills. It does this in four steps:

- it embeds both texts with a sentence-transformer model;
- it turns their cosine similarity into a score message with one of three match tiers;
- it asks the Gemini language model for ATS (applicant tracking system) optimisation advice;
- it streams its progress to two output panes (score and feedback) through a generator.

The model has six modules:

- `Wrappers` (`wrappers.dfy`): the `Option` type, used for a page's possibly missing text.
- `Text` (`text.dfy`): Python's `str.strip()` with no argument. It removes the code points of
  CPython's default white-space set at both ends. `IsBlank` is the test `not s.strip()`.
- `PdfText` (`pdf_text.dfy`): the page loop of `extract_text_from_pdf`. A document is the
  sequence of what each page's `extract_text()` returned (`None` or a string). `ExtractText`
  is the loop itself, proved against the specification function `Extracted`.
- `Scoring` (`scoring.dfy`): the match percentage, the three tiers with their strict
  thresholds at 80 and 60, and the score message that ends with the tier's phrase.
- `Prompt` (`prompt.dfy`): the job text that is embedded, with its stripped-skills suffix, the
  skills slot of the prompt, and the prompt itself.
- `Relevance` (`relevance.dfy`): the generator `calculate_relevance` as the method
  `CalculateRelevance`. The method builds a log of events. An event is an emission `Emit` of a
  (score, feedback) pair, which stands for a `yield`, or an external call: `Embed` of a text or
  `Generate` of a prompt. The method is proved equal to the specification function `Run`.
  `Emissions` and `Calls` project the log onto what the panes show and what was called.

The collaborators the code calls into are parameters, gathered in `Relevance.Services`:

- `embed` stands for `generate_embedding`;
- `cosine` stands for `cosine_similarity`;
- `renderNumbers` stands for the two formatted number lines of the score message;
- `generate` stands for the Gemini reply text;
- `template` holds the fixed prose of the prompt.

Every property is proved for all choices of these.

## Model

| member | source | states |
|---|---|---|
| Text.Trim | app.py:30 | `strip()` leaves no white space at either end, and the input is white space, then the result, then white space |
| Text.LeadingSpace | app.py:30 | the count of white space at the front: all of it is white space and the next character is not |
| Text.TrailingSpace | app.py:30 | the same at the back of the string |
| Text.TrimUnique | app.py:30 | the stripped string is the only unpadded string that white space alone surrounds in the input |
| Text.TrimIdempotent | app.py:30 | stripping twice gives the same as stripping once |
| Text.BlankIffAllSpace | app.py:48 | `not s.strip()` holds exactly when every character of `s` is white space |
| Text.BlankIffTrimBlank | app.py:54-55 | a stripped string is blank exactly when the original is |
| PdfText.ExtractText | app.py:22-30 | the page loop returns the stripped join of the page texts, as `Extracted` defines it |
| PdfText.Extracted | app.py:30 | the extracted text has no leading or trailing white space |
| PdfText.JoinedConcat | app.py:26-29 | the pages' contributions are concatenated in page order: joining splits over any cut of the document |
| PdfText.PageInOrder | app.py:28-29 | a page with non-empty text contributes that text, then one line break, between the pages before and after it |
| PdfText.EmptyPageContributesNothing | app.py:27-28 | a page whose text is `None` or `""` contributes nothing |
| PdfText.JoinedAllSpace | app.py:24-29 | the accumulated text is all white space exactly when every page is missing or white space only |
| PdfText.ExtractedEmptyIff | app.py:24-30 | the extracted text is empty exactly when no page has a non-white-space character |
| PdfText.SinglePageRoundTrip | app.py:29-30 | the line break added after the last page is stripped again, so one already-stripped page comes back as it was |
| Scoring.TierOf | app.py:70-75 | Great iff percentage > 80; Good iff 60 < percentage <= 80; Low iff percentage <= 60 |
| Scoring.TierMonotone | app.py:70-75 | a higher percentage never gives a lower tier |
| Scoring.TierOfSimilarity | app.py:63-75 | the same thresholds on the similarity itself: above 0.8, above 0.6, the rest |
| Scoring.ScoreMessage | app.py:66-75 | the score message begins with the number lines and ends with the phrase of its tier |
| Scoring.PhrasesDistinguishable | app.py:71-75 | no tier phrase is a tail of another one |
| Scoring.MessageNamesItsTier | app.py:66-75 | a score message ends with a tier's phrase exactly when that tier is the tier of its percentage |
| Prompt.JobText | app.py:53-55 | the job text starts with the job description; it equals the job description iff the skills are blank; otherwise the rest is `"\n\nSkills: "` followed by the stripped skills |
| Prompt.JobTextBlankSkills | app.py:53-55 | white-space-only skills give the same job text as no skills |
| Prompt.JobTextStripsSkills | app.py:54-55 | the job text depends on the skills only through their stripped form |
| Prompt.SkillsSlot | app.py:99 | the slot is never blank; it is the unstripped skills when these are not blank, else "No specific skills provided" |
| Prompt.PromptSlots | app.py:80-99 | the prompt holds the resume text, the job description as given (not the job text) and the skills slot verbatim, in that order, at known offsets |
| Prompt.PromptBlankSkills | app.py:99 | blank skills give the same prompt as no skills |
| Relevance.CalculateRelevance | app.py:36-145 | the generator's log of emissions and calls is exactly `Run` of its inputs |
| Relevance.Rejection | app.py:39-50 | a rejected request emits the placeholder pair, then the message with an empty feedback pane, and calls nothing |
| Relevance.NoResumeRejects | app.py:39-46 | with empty resume text the emissions are the placeholders, then the no-text message, and nothing is called |
| Relevance.ResumeCheckFirst | app.py:44-50 | without resume text the run is the same whatever the job description, skills and services, so the resume check comes first |
| Relevance.NoJobDescriptionRejects | app.py:44-50 | with resume text and a blank job description the emissions are the placeholders, then the job-description message, and nothing is called |
| Relevance.Acceptance | app.py:39-145 | on an accepted log: three emissions, the calls embed, embed, generate, and the second emission is made before the generate call |
| Relevance.AcceptedRun | app.py:53-145 | an accepted run emits the placeholders, (score, waiting), then (the same score, reply); it calls embed(resume text), embed(job text), then generate(prompt) once, after the waiting emission |
| Relevance.SomeRequestAccepted | app.py:44-50 | a one-page resume "cv" with the job description "job" passes both input checks, so the accepted path is reachable |
| Relevance.ScoreStable | app.py:77-145 | the score message is the same in the last two emissions; only the feedback pane changes |
| Relevance.StartsWithPlaceholder | app.py:39-145 | every run emits the placeholder pair first and ends with an emission |
| Relevance.NoCallsIffRejected | app.py:44-59 | no embedding or model call happens exactly when the resume text is empty or the job description is blank |
| Relevance.AcceptedScoreNamesTier | app.py:62-77 | the emitted score message names exactly one tier, the tier of the similarity of the two embeddings |
| Relevance.BlankSkillsLikeNone | app.py:53-55 | white-space-only skills make the whole run identical to a run with no skills, for the same service replies |
| Relevance.ReplyOnlyInLastFeedback | app.py:143-145 | a different model reply changes only the feedback of the last emission: the calls, every earlier event and the last score message stay the same |
| Relevance.Run | app.py:36-145 | the generator's events in order: the placeholder, then either one rejection message, or embed, embed, (score, waiting), generate, (score, reply) |
| Relevance.Rejected | app.py:44-50 | a request is rejected when the resume text is empty or the job description strips to nothing |
| Relevance.ResultMessage | app.py:58-75 | the score message is the rendered number lines of the similarity of the two embeddings, then the tier phrase |
| Prompt.BuildPrompt | app.py:80-139 | the prompt is the template's fixed fragments with the resume text, the unstripped job description and the skills slot between them |
| PdfText.PageText | app.py:27-29 | a page adds nothing when its text is `None` or `""`, otherwise its text followed by `"\n"` |
| PdfText.Joined | app.py:24-29 | the text accumulated by the loop: the page contributions concatenated in page order |
| Text.IsSpace | app.py:30 | the code points `str.strip()` removes: `\t` to `\r`, `\x1c` to space, `\x85`, `\xa0`, U+1680, U+2000 to U+200A, U+2028, U+2029, U+202F, U+205F and U+3000 |
| Text.IsBlank | app.py:48 | the truthiness test `not s.strip()` |
| Scoring.MatchPercentage | app.py:63 | the percentage is the similarity times 100 |
| Scoring.Phrase | app.py:71-75 | the three tier sentences, exactly as the code appends them |

## Left out

- PDF parsing (app.py:25-27): pdfplumber is a foreign library. A document is the sequence of page texts it would return. Opening a missing or corrupt upload raises inside pdfplumber, and that failure is not modelled.
- Sentence embeddings and cosine similarity (app.py:13, 32-34, 58-62): foreign numeric code over vectors of floats. They are the uninterpreted parameters `embed` and `cosine`. The range [-1, 1] of the similarity is not assumed.
- Floating point: `similarity_score * 100` and the threshold comparisons are on exact reals, so rounding of the float product is not modelled.
- The `:.4f` and `:.2f` renderings of the two number lines (app.py:66-67): float-to-text formatting. It is the parameter `renderNumbers` of the similarity, and the percentage line is taken as derived from it.
- The Gemini client, its configuration and the model name (app.py:16-20, 143): a network call. Its reply text is the parameter `generate` of the prompt.
- Relevance.Services: `embed` and `generate` are deterministic Dafny functions of their input, so two runs on the same inputs get the same embeddings and the same reply. The real Gemini replies are sampled and may differ between calls. `Relevance.ReplyOnlyInLastFeedback` shows that the reply affects nothing except the feedback of the last emission.
- The instruction prose of the prompt (app.py:80-139): the model keeps the three slots and their order. The fixed text around them is a `PromptTemplate` of four fragments, and every property holds for any template.
- The Gradio interface, `iface.launch()` and the `.env` loading (app.py:9-10, 148-164): UI and process setup.
- Exceptions from a failing model call: `app.py` has no `try` around line 143, so such a failure ends the generator with an exception after the waiting emission. There is no implemented error path to model.
- The tiers are named after the code's phrases: Great, Good and Low.
