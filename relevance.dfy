/** `calculate_relevance`: the generator behind the user interface. Each `yield` is an emission
    of a (score message, feedback message) pair; the calls it makes into code outside the model
    (the sentence embedding model and the language model) are recorded in the same log, so the
    order of emissions and calls is observable. */
module Relevance {
  import opened Wrappers
  import opened Text
  import opened PdfText
  import opened Scoring
  import opened Prompt

  /** An embedding vector of the sentence-transformer model. */
  type Embedding = seq<real>

  /** One observable step of the generator: a `yield`, or a call into an external service. */
  datatype Event =
    | Emit(score: string, feedback: string)
    | Embed(text: string)
    | Generate(prompt: string)

  /** The collaborators the generator calls, as functions of their inputs: `generate_embedding`,
      `cosine_similarity` of two embeddings, the rendering of the two number lines of the score
      message from the similarity, the language model's reply text to a prompt, and the fixed
      text of the prompt. */
  datatype Services = Services(
    embed: string -> Embedding,
    cosine: (Embedding, Embedding) -> real,
    renderNumbers: real -> string,
    generate: string -> string,
    template: PromptTemplate)

  const ProcessingScore := "⏳ **Processing resume...**"
  const ProcessingFeedback := "⏳ **Generating AI suggestions...**"
  const NoResumeText := "❌ No text found in the resume. Please upload a valid PDF."
  const NoJobDescription := "❌ Please paste a job description."
  const WaitingFeedback := "⏳ **Waiting for AI response...**"

  /** What one event adds to the emissions and to the calls. */
  function EmissionOf(e: Event): seq<(string, string)>
  {
    if e.Emit? then [(e.score, e.feedback)] else []
  }

  function CallOf(e: Event): seq<Event>
  {
    if e.Emit? then [] else [e]
  }

  /** The pairs that reach the two output panes, in order. */
  function Emissions(events: seq<Event>): seq<(string, string)>
  {
    if events == [] then []
    else Emissions(events[..|events| - 1]) + EmissionOf(events[|events| - 1])
  }

  /** The external calls, in order. */
  function Calls(events: seq<Event>): seq<Event>
  {
    if events == [] then []
    else Calls(events[..|events| - 1]) + CallOf(events[|events| - 1])
  }

  /** The input checks, in the order the generator makes them. */
  predicate Rejected(pages: seq<Option<string>>, jobDescription: string)
  {
    Extracted(pages) == "" || IsBlank(jobDescription)
  }

  /** The score message of an accepted request. */
  function ResultMessage(pages: seq<Option<string>>, jobDescription: string, skills: string, svc: Services): string
  {
    var resumeText := Extracted(pages);
    var similarity := svc.cosine(svc.embed(resumeText), svc.embed(JobText(jobDescription, skills)));
    ScoreMessage(svc.renderNumbers(similarity), similarity)
  }

  /** The prompt of an accepted request. */
  function PromptOf(pages: seq<Option<string>>, jobDescription: string, skills: string, svc: Services): string
  {
    BuildPrompt(svc.template, Extracted(pages), jobDescription, skills)
  }

  /** Everything the generator does, from the first `yield` to its end, one event after the other. */
  function Run(pages: seq<Option<string>>, jobDescription: string, skills: string, svc: Services): seq<Event>
  {
    var start := [Emit(ProcessingScore, ProcessingFeedback)];
    var resumeText := Extracted(pages);
    if resumeText == "" then start + [Emit(NoResumeText, "")]
    else if IsBlank(jobDescription) then start + [Emit(NoJobDescription, "")]
    else
      var result := ResultMessage(pages, jobDescription, skills, svc);
      var prompt := PromptOf(pages, jobDescription, skills, svc);
      start + [Embed(resumeText)] + [Embed(JobText(jobDescription, skills))] + [Emit(result, WaitingFeedback)]
        + [Generate(prompt)] + [Emit(result, svc.generate(prompt))]
  }

  /** The generator, step by step: each `yield` and each external call appends to `events`. */
  method CalculateRelevance(pages: seq<Option<string>>, jobDescription: string, skills: string, svc: Services)
    returns (events: seq<Event>)
    ensures events == Run(pages, jobDescription, skills, svc)
  {
    events := [Emit(ProcessingScore, ProcessingFeedback)];

    var resumeText := ExtractText(pages);
    if resumeText == "" {
      events := events + [Emit(NoResumeText, "")];
      return;
    }
    if Trim(jobDescription) == "" {
      events := events + [Emit(NoJobDescription, "")];
      return;
    }

    var jobText := jobDescription;
    if Trim(skills) != "" {
      jobText := jobText + SkillsSeparator + SkillsLabel + Trim(skills);
    }
    assert jobText == JobText(jobDescription, skills);

    var resumeEmbedding := svc.embed(resumeText);
    events := events + [Embed(resumeText)];
    var jobEmbedding := svc.embed(jobText);
    events := events + [Embed(jobText)];

    var similarity := svc.cosine(resumeEmbedding, jobEmbedding);
    var matchPercentage := similarity * 100.0;

    var result := svc.renderNumbers(similarity);
    if matchPercentage > 80.0 {
      result := result + Phrase(Great);
    } else if matchPercentage > 60.0 {
      result := result + Phrase(Good);
    } else {
      result := result + Phrase(Low);
    }
    assert result == ResultMessage(pages, jobDescription, skills, svc);
    events := events + [Emit(result, WaitingFeedback)];

    var prompt := BuildPrompt(svc.template, resumeText, jobDescription, skills);
    events := events + [Generate(prompt)];
    var reply := svc.generate(prompt);
    events := events + [Emit(result, reply)];
  }


  lemma Append(events: seq<Event>, e: Event)
    ensures Emissions(events + [e]) == Emissions(events) + EmissionOf(e)
    ensures Calls(events + [e]) == Calls(events) + CallOf(e)
  {
    assert (events + [e])[..|events|] == events;
  }

  /** The log of a rejected run, and what it shows. */
  lemma Rejection(message: string)
    ensures var events := [Emit(ProcessingScore, ProcessingFeedback)] + [Emit(message, "")];
      Emissions(events) == [(ProcessingScore, ProcessingFeedback), (message, "")] && Calls(events) == []
  {
    Append([], Emit(ProcessingScore, ProcessingFeedback));
    Append([Emit(ProcessingScore, ProcessingFeedback)], Emit(message, ""));
  }

  /** With no resume text the generator rejects, and calls nothing. */
  lemma NoResumeRejects(pages: seq<Option<string>>, jobDescription: string, skills: string, svc: Services)
    requires Extracted(pages) == ""
    ensures Emissions(Run(pages, jobDescription, skills, svc))
      == [(ProcessingScore, ProcessingFeedback), (NoResumeText, "")]
    ensures Calls(Run(pages, jobDescription, skills, svc)) == []
  {
    Rejection(NoResumeText);
  }

  /** The resume check comes first: without resume text the outcome is the same whatever the job
      description (blank or not), the skills and the services are. */
  lemma ResumeCheckFirst(pages: seq<Option<string>>, jobDescription: string, skills: string, svc: Services,
                         otherJobDescription: string, otherSkills: string, otherSvc: Services)
    requires Extracted(pages) == ""
    ensures Run(pages, jobDescription, skills, svc) == Run(pages, otherJobDescription, otherSkills, otherSvc)
  {
  }

  /** With resume text but a blank job description the generator rejects, and calls nothing. */
  lemma NoJobDescriptionRejects(pages: seq<Option<string>>, jobDescription: string, skills: string, svc: Services)
    requires Extracted(pages) != "" && IsBlank(jobDescription)
    ensures Emissions(Run(pages, jobDescription, skills, svc))
      == [(ProcessingScore, ProcessingFeedback), (NoJobDescription, "")]
    ensures Calls(Run(pages, jobDescription, skills, svc)) == []
  {
    Rejection(NoJobDescription);
  }

  /** The log of an accepted run, and what it shows. */
  lemma Acceptance(resumeText: string, jobText: string, result: string, prompt: string, reply: string)
    ensures var events := [Emit(ProcessingScore, ProcessingFeedback)] + [Embed(resumeText)] + [Embed(jobText)]
        + [Emit(result, WaitingFeedback)] + [Generate(prompt)] + [Emit(result, reply)];
      && Emissions(events) == [(ProcessingScore, ProcessingFeedback), (result, WaitingFeedback), (result, reply)]
      && Calls(events) == [Embed(resumeText), Embed(jobText), Generate(prompt)]
      && |events| == 6 && events[4] == Generate(prompt)
      && Emissions(events[..4]) == [(ProcessingScore, ProcessingFeedback), (result, WaitingFeedback)]
      && Calls(events[..4]) == [Embed(resumeText), Embed(jobText)]
  {
    var e0 := [Emit(ProcessingScore, ProcessingFeedback)];
    var e1 := e0 + [Embed(resumeText)];
    var e2 := e1 + [Embed(jobText)];
    var e3 := e2 + [Emit(result, WaitingFeedback)];
    var e4 := e3 + [Generate(prompt)];
    var e5 := e4 + [Emit(result, reply)];
    var p := (ProcessingScore, ProcessingFeedback);
    Append([], e0[0]);
    assert [] + [e0[0]] == e0;
    assert Emissions(e0) == [p] && Calls(e0) == [];
    Append(e0, Embed(resumeText));
    assert Emissions(e1) == [p] && Calls(e1) == [Embed(resumeText)];
    Append(e1, Embed(jobText));
    assert Emissions(e2) == [p] && Calls(e2) == [Embed(resumeText), Embed(jobText)];
    Append(e2, Emit(result, WaitingFeedback));
    assert Emissions(e3) == [p, (result, WaitingFeedback)] && Calls(e3) == Calls(e2);
    Append(e3, Generate(prompt));
    assert Emissions(e4) == Emissions(e3) && Calls(e4) == [Embed(resumeText), Embed(jobText), Generate(prompt)];
    Append(e4, Emit(result, reply));
    assert Emissions(e5) == [p, (result, WaitingFeedback), (result, reply)] && Calls(e5) == Calls(e4);
    assert e5[..4] == e3;
  }

  /** An accepted request logs, in order: the placeholders, embed the resume text, embed the job
      text, the score while waiting, one call of the language model with the prompt, and the same
      score with the model's reply. */
  lemma AcceptedRun(pages: seq<Option<string>>, jobDescription: string, skills: string, svc: Services)
    requires !Rejected(pages, jobDescription)
    ensures var events := Run(pages, jobDescription, skills, svc);
      var result := ResultMessage(pages, jobDescription, skills, svc);
      var prompt := PromptOf(pages, jobDescription, skills, svc);
      && Emissions(events)
        == [(ProcessingScore, ProcessingFeedback), (result, WaitingFeedback), (result, svc.generate(prompt))]
      && Calls(events) == [Embed(Extracted(pages)), Embed(JobText(jobDescription, skills)), Generate(prompt)]
      && |events| == 6 && events[4] == Generate(prompt)
      && Emissions(events[..4]) == [(ProcessingScore, ProcessingFeedback), (result, WaitingFeedback)]
      && Calls(events[..4]) == [Embed(Extracted(pages)), Embed(JobText(jobDescription, skills))]
  {
    var resumeText, jobText := Extracted(pages), JobText(jobDescription, skills);
    var result, prompt := ResultMessage(pages, jobDescription, skills, svc), PromptOf(pages, jobDescription, skills, svc);
    assert Run(pages, jobDescription, skills, svc)
      == [Emit(ProcessingScore, ProcessingFeedback)] + [Embed(resumeText)] + [Embed(jobText)]
        + [Emit(result, WaitingFeedback)] + [Generate(prompt)] + [Emit(result, svc.generate(prompt))];
    Acceptance(resumeText, jobText, result, prompt, svc.generate(prompt));
  }

  /** The score message is the same in the last two emissions of an accepted request: only the
      feedback pane changes when the reply arrives. */
  lemma ScoreStable(pages: seq<Option<string>>, jobDescription: string, skills: string, svc: Services)
    requires !Rejected(pages, jobDescription)
    ensures var out := Emissions(Run(pages, jobDescription, skills, svc));
      |out| == 3 && out[1].0 == out[2].0 && out[1].1 == WaitingFeedback
  {
    AcceptedRun(pages, jobDescription, skills, svc);
  }

  /** Every run starts with the processing placeholders and ends with an emission. */
  lemma StartsWithPlaceholder(pages: seq<Option<string>>, jobDescription: string, skills: string, svc: Services)
    ensures var events := Run(pages, jobDescription, skills, svc);
      var out := Emissions(events);
      |out| >= 2 && out[0] == (ProcessingScore, ProcessingFeedback) && events[|events| - 1].Emit?
  {
    if Extracted(pages) == "" {
      NoResumeRejects(pages, jobDescription, skills, svc);
    } else if IsBlank(jobDescription) {
      NoJobDescriptionRejects(pages, jobDescription, skills, svc);
    } else {
      AcceptedRun(pages, jobDescription, skills, svc);
    }
  }

  /** No embedding and no model call happens exactly when the request is rejected. */
  lemma NoCallsIffRejected(pages: seq<Option<string>>, jobDescription: string, skills: string, svc: Services)
    ensures Calls(Run(pages, jobDescription, skills, svc)) == [] <==> Rejected(pages, jobDescription)
  {
    if Extracted(pages) == "" {
      NoResumeRejects(pages, jobDescription, skills, svc);
    } else if IsBlank(jobDescription) {
      NoJobDescriptionRejects(pages, jobDescription, skills, svc);
    } else {
      AcceptedRun(pages, jobDescription, skills, svc);
    }
  }

  /** The score message of an accepted request ends with exactly one tier phrase, the one its
      match percentage falls into. */
  lemma AcceptedScoreNamesTier(pages: seq<Option<string>>, jobDescription: string, skills: string, svc: Services, t: Tier)
    requires !Rejected(pages, jobDescription)
    ensures var similarity := svc.cosine(svc.embed(Extracted(pages)), svc.embed(JobText(jobDescription, skills)));
      EndsWith(ResultMessage(pages, jobDescription, skills, svc), Phrase(t)) <==> t == TierOf(MatchPercentage(similarity))
  {
    var similarity := svc.cosine(svc.embed(Extracted(pages)), svc.embed(JobText(jobDescription, skills)));
    MessageNamesItsTier(svc.renderNumbers(similarity), similarity, t);
  }

  /** Whitespace-only skills behave exactly like no skills: same job text, same prompt, same run. */
  lemma BlankSkillsLikeNone(pages: seq<Option<string>>, jobDescription: string, skills: string, svc: Services)
    requires IsBlank(skills)
    ensures Run(pages, jobDescription, skills, svc) == Run(pages, jobDescription, "", svc)
  {
    JobTextBlankSkills(jobDescription, skills);
    PromptBlankSkills(svc.template, Extracted(pages), jobDescription, skills);
  }

  /** The model's reply reaches nothing but the feedback of the last emission: with another
      reply function the calls, every earlier event and the last score message are the same. */
  lemma ReplyOnlyInLastFeedback(pages: seq<Option<string>>, jobDescription: string, skills: string, svc: Services,
                                otherGenerate: string -> string)
    ensures var events := Run(pages, jobDescription, skills, svc);
      var other := Run(pages, jobDescription, skills, svc.(generate := otherGenerate));
      && |events| == |other| && Calls(events) == Calls(other)
      && events[..|events| - 1] == other[..|other| - 1]
      && events[|events| - 1].Emit? && other[|other| - 1].Emit?
      && events[|events| - 1].score == other[|other| - 1].score
  {
    var svc' := svc.(generate := otherGenerate);
    if !Rejected(pages, jobDescription) {
      var prompt := PromptOf(pages, jobDescription, skills, svc);
      var result := ResultMessage(pages, jobDescription, skills, svc);
      assert PromptOf(pages, jobDescription, skills, svc') == prompt;
      assert ResultMessage(pages, jobDescription, skills, svc') == result;
      var front := [Emit(ProcessingScore, ProcessingFeedback)] + [Embed(Extracted(pages))]
        + [Embed(JobText(jobDescription, skills))] + [Emit(result, WaitingFeedback)] + [Generate(prompt)];
      var events, other := Run(pages, jobDescription, skills, svc), Run(pages, jobDescription, skills, svc');
      assert events == front + [Emit(result, svc.generate(prompt))];
      assert other == front + [Emit(result, otherGenerate(prompt))];
      assert events[..|events| - 1] == front == other[..|other| - 1];
      Append(front, Emit(result, svc.generate(prompt)));
      Append(front, Emit(result, otherGenerate(prompt)));
    }
  }

  /** Some request passes both checks: a one-page resume "cv" and the job description "job". */
  lemma SomeRequestAccepted()
    ensures !Rejected([Some("cv")], "job")
  {
    ExtractedEmptyIff([Some("cv")]);
    assert !BlankPage([Some("cv")][0]) by { assert !IsSpace("cv"[0]); }
    BlankIffAllSpace("job");
    assert !IsSpace("job"[0]);
  }
}
