/** The two texts built from the job description and the optional skills: the job text that is
    embedded, and the prompt sent to the language model. */
module Prompt {
  import opened Text

  const SkillsSeparator := "\n\n"
  const SkillsLabel := "Skills: "
  const NoSkillsPlaceholder := "No specific skills provided"

  /** `job_text`: the job description, with a labelled line of the stripped skills appended when
      the skills are not blank. */
  function JobText(jobDescription: string, skills: string): (r: string)
    ensures |jobDescription| <= |r| && r[..|jobDescription|] == jobDescription
    ensures r == jobDescription <==> IsBlank(skills)
    ensures !IsBlank(skills) ==> r[|jobDescription|..] == SkillsSeparator + SkillsLabel + Trim(skills)
  {
    if !IsBlank(skills) then jobDescription + SkillsSeparator + SkillsLabel + Trim(skills)
    else jobDescription
  }

  /** What fills the skills section of the prompt: the skills exactly as given (not stripped)
      unless they are blank, then a fixed placeholder. */
  function SkillsSlot(skills: string): (r: string)
    ensures !IsBlank(r)
    ensures !IsBlank(skills) ==> r == skills
    ensures IsBlank(skills) ==> r == NoSkillsPlaceholder
  {
    if !IsBlank(skills) then skills
    else
      assert !IsSpace(NoSkillsPlaceholder[0]);
      BlankIffAllSpace(NoSkillsPlaceholder);
      NoSkillsPlaceholder
  }

  /** The fixed instruction text of the prompt around its three slots: what precedes the resume,
      what comes between resume and job description, between job description and skills, and
      the instructions that follow the skills. */
  datatype PromptTemplate = PromptTemplate(intro: string, beforeJob: string, beforeSkills: string, closing: string)

  /** `gemini_prompt`: the template with the resume text, the job description as given (not the
      job text) and the skills slot filled in. */
  function BuildPrompt(template: PromptTemplate, resumeText: string, jobDescription: string, skills: string): string
  {
    template.intro + resumeText + template.beforeJob + jobDescription + template.beforeSkills
      + SkillsSlot(skills) + template.closing
  }

  /** Blank skills and whitespace-only skills give the job text of no skills at all. */
  lemma JobTextBlankSkills(jobDescription: string, skills: string)
    requires IsBlank(skills)
    ensures JobText(jobDescription, skills) == JobText(jobDescription, "")
  {
  }

  /** The job text depends on the skills only through their stripped form. */
  lemma JobTextStripsSkills(jobDescription: string, skills: string)
    ensures JobText(jobDescription, Trim(skills)) == JobText(jobDescription, skills)
  {
    BlankIffTrimBlank(skills);
    TrimIdempotent(skills);
  }

  /** Where each input stands in the prompt: the resume text, the job description and the skills
      slot appear verbatim, in that order, each right after its fixed heading. */
  lemma PromptSlots(template: PromptTemplate, resumeText: string, jobDescription: string, skills: string)
    ensures var p := BuildPrompt(template, resumeText, jobDescription, skills);
      var r := |template.intro|;
      var j := r + |resumeText| + |template.beforeJob|;
      var k := j + |jobDescription| + |template.beforeSkills|;
      k + |SkillsSlot(skills)| <= |p|
      && p[r..r + |resumeText|] == resumeText
      && p[j..j + |jobDescription|] == jobDescription
      && p[k..k + |SkillsSlot(skills)|] == SkillsSlot(skills)
  {
    var slot := SkillsSlot(skills);
    var a := template.intro + resumeText;
    var b := a + template.beforeJob + jobDescription;
    var c := b + template.beforeSkills + slot;
    var p := c + template.closing;
    assert p[..|c|] == c;
    assert c[..|b|] == b;
    assert b[..|a|] == a;
    assert a[|template.intro|..] == resumeText;
    assert b[|a| + |template.beforeJob|..] == jobDescription;
    assert c[|b| + |template.beforeSkills|..] == slot;
  }

  /** Blank skills give the same prompt as no skills. */
  lemma PromptBlankSkills(template: PromptTemplate, resumeText: string, jobDescription: string, skills: string)
    requires IsBlank(skills)
    ensures BuildPrompt(template, resumeText, jobDescription, skills) == BuildPrompt(template, resumeText, jobDescription, "")
  {
  }
}
