/**
  The prompt/response wrapper around the generative-language SDK: the system
  prompt serialised from the skill and project lists, and the branch structure of
  `generateGeminiResponse`. The SDK itself is a collaborator; what it does with a
  request is an input (`SdkOutcome`).
 */
module Gemini {
  import opened Text
  import opened Catalog

  /** `- name (category): level% proficiency` */
  function SkillLine(s: Skill): string {
    "- " + s.name + " (" + CategoryName(s.category) + "): " + Decimal(s.level) + "% proficiency"
  }

  /** `- title: description (Tech: t1, t2, ...)` */
  function ProjectLine(p: Project): string {
    "- " + p.title + ": " + p.description + " (Tech: " + Join(p.tech, ", ") + ")"
  }

  function SkillLines(skills: seq<Skill>): (r: seq<string>)
    ensures |r| == |skills|
    ensures forall i :: 0 <= i < |skills| ==> r[i] == SkillLine(skills[i])
  {
    if skills == [] then [] else [SkillLine(skills[0])] + SkillLines(skills[1..])
  }

  function ProjectLines(projects: seq<Project>): (r: seq<string>)
    ensures |r| == |projects|
    ensures forall i :: 0 <= i < |projects| ==> r[i] == ProjectLine(projects[i])
  {
    if projects == [] then [] else [ProjectLine(projects[0])] + ProjectLines(projects[1..])
  }

  /** The SKILLS section: one line per skill, joined by newlines. */
  function SkillsSection(skills: seq<Skill>): string {
    Join(SkillLines(skills), "\n")
  }

  /** The PROJECTS section: one line per project, joined by newlines. */
  function ProjectsSection(projects: seq<Project>): string {
    Join(ProjectLines(projects), "\n")
  }

  const PromptHead: string :=
    "\nYou are NEXUS AI, a highly advanced, witty, and slightly cryptic digital construct managing the portfolio of Lakshit Soni.\n"
    + "Your persona is a mix of JARVIS (Iron Man) and a Cyberpunk Netrunner.\n"
    + "\n"
    + "CONTEXT - LAKSHIT SONI:\n"
    + "- Role: Decentralized Systems Architect & Full Stack Engineer.\n"
    + "- Vibe: High-fidelity, futuristic, precision-obsessed.\n"
    + "- Contact: lakshitsoni26@gmail.com\n"
    + "\n"
    + "SKILLS:\n"

  const PromptMiddle: string := "\n\nPROJECTS:\n"

  const PromptTail: string :=
    "\n\nINSTRUCTIONS:\n"
    + "1. Keep responses concise (under 3 sentences) unless asked for details.\n"
    + "2. Use technical/sci-fi jargon occasionally (e.g., \"Accessing databanks...\", \"Uplink established\", \"Protocol initiated\").\n"
    + "3. If asked about hiring/contact, direct them to the \"Uplink Terminal\" or email.\n"
    + "4. If the user asks something unrelated to the portfolio, playfully deflect it (e.g., \"My protocols are restricted to the Architect's data.\").\n"
    + "5. formatting: Use markdown for emphasis (bold, code blocks).\n"
    + "\n"
    + "Current System Status: ONLINE.\n"

  /** The persona and portfolio context the chat is seeded with. */
  function SystemPrompt(skills: seq<Skill>, projects: seq<Project>): string {
    PromptHead + SkillsSection(skills) + PromptMiddle + ProjectsSection(projects) + PromptTail
  }

  /** No field that ends up on a skill line contains a newline. */
  predicate SingleLineSkill(s: Skill) {
    '\n' !in s.name && '\n' !in CategoryName(s.category)
  }

  /** No field that ends up on a project line contains a newline. */
  predicate SingleLineProject(p: Project) {
    '\n' !in p.title && '\n' !in p.description && forall i :: 0 <= i < |p.tech| ==> '\n' !in p.tech[i]
  }

  lemma DecimalHasNoNewline(n: nat)
    ensures '\n' !in Decimal(n)
  {
  }

  lemma SkillLineIsOneLine(s: Skill)
    requires SingleLineSkill(s)
    ensures '\n' !in SkillLine(s)
  {
    DecimalHasNoNewline(s.level);
    var pieces := ["- ", s.name, " (", CategoryName(s.category), "): ", Decimal(s.level), "% proficiency"];
    assert forall i :: 0 <= i < |pieces| ==> '\n' !in pieces[i];
    assert SkillLine(s) == pieces[0] + pieces[1] + pieces[2] + pieces[3] + pieces[4] + pieces[5] + pieces[6];
  }

  lemma ProjectLineIsOneLine(p: Project)
    requires SingleLineProject(p)
    ensures '\n' !in ProjectLine(p)
  {
    JoinKeepsOutChar(p.tech, ", ", '\n');
    var pieces := ["- ", p.title, ": ", p.description, " (Tech: ", Join(p.tech, ", "), ")"];
    assert forall i :: 0 <= i < |pieces| ==> '\n' !in pieces[i];
    assert ProjectLine(p) == pieces[0] + pieces[1] + pieces[2] + pieces[3] + pieces[4] + pieces[5] + pieces[6];
  }

  lemma {:induction false} JoinKeepsOutChar(parts: seq<string>, sep: string, c: char)
    requires c !in sep
    requires forall i :: 0 <= i < |parts| ==> c !in parts[i]
    ensures c !in Join(parts, sep)
  {
    if |parts| > 1 {
      JoinKeepsOutChar(parts[1..], sep, c);
    }
  }

  /**
    The SKILLS section reads back line by line: splitting it at newlines gives one
    line per skill, in list order.
   */
  lemma SkillsSectionLines(skills: seq<Skill>)
    requires |skills| >= 1
    requires forall i :: 0 <= i < |skills| ==> SingleLineSkill(skills[i])
    ensures Split(SkillsSection(skills), '\n') == SkillLines(skills)
  {
    var lines := SkillLines(skills);
    forall i | 0 <= i < |lines|
      ensures '\n' !in lines[i]
    {
      SkillLineIsOneLine(skills[i]);
    }
    SplitJoin(lines, '\n');
  }

  /**
    The PROJECTS section reads back line by line: splitting it at newlines gives one
    line per project, in list order, each listing the project's tech joined by ", ".
   */
  lemma ProjectsSectionLines(projects: seq<Project>)
    requires |projects| >= 1
    requires forall i :: 0 <= i < |projects| ==> SingleLineProject(projects[i])
    ensures Split(ProjectsSection(projects), '\n') == ProjectLines(projects)
  {
    var lines := ProjectLines(projects);
    forall i | 0 <= i < |lines|
      ensures '\n' !in lines[i]
    {
      ProjectLineIsOneLine(projects[i]);
    }
    SplitJoin(lines, '\n');
  }

  datatype Role = UserRole | ModelRole

  datatype Turn = Turn(role: Role, text: string)

  /** What the wrapper hands the SDK: the model name, the seeded history and the one message sent. */
  datatype ChatRequest = ChatRequest(model: string, history: seq<Turn>, message: string)

  /** What the SDK does with a request: return a reply text, or throw. */
  datatype SdkOutcome = Replied(text: string) | Raised

  /** The request sent to the SDK, if any, and the string the wrapper returns. */
  datatype Exchange = Exchange(request: Option<ChatRequest>, answer: string)

  const KeyMissing: string :=
    "\U{26A0}\U{FE0F} SYSTEM ALERT: API Key missing. Please configure VITE_GEMINI_API_KEY in .env.local to enable full neural processing."
  const CriticalError: string :=
    "\U{26A0}\U{FE0F} CRITICAL ERROR: Neural Link unstable. Unable to process query. Please try again later."
  const Acknowledgement: string :=
    "Identity verified. Nexus AI online. Ready to process queries regarding the Architect."
  const ModelName: string := "gemini-pro"

  /** `!API_KEY` is false: the key is defined and not the empty string. */
  predicate Configured(apiKey: Option<string>) {
    apiKey.Some? && apiKey.value != ""
  }

  /**
    `p` is `head`, then a section that splits at newlines into the skill lines,
    then `mid`, then a section that splits into the project lines, then `tail`.
   */
  predicate ReadsBackAs(p: string, head: string, skills: seq<Skill>, mid: string, projects: seq<Project>, tail: string) {
    exists m :: 0 <= m <= |p| && SectionsCutAt(p, head, skills, mid, projects, tail, m)
  }

  /** The reading of `ReadsBackAs` with the SKILLS section ending at `m`. */
  predicate SectionsCutAt(p: string, head: string, skills: seq<Skill>, mid: string, projects: seq<Project>, tail: string, m: int) {
    && |head| <= m && m + |mid| + |tail| <= |p|
    && p[..|head|] == head
    && Split(p[|head|..m], '\n') == SkillLines(skills)
    && p[m..m + |mid|] == mid
    && Split(p[m + |mid|..|p| - |tail|], '\n') == ProjectLines(projects)
    && p[|p| - |tail|..] == tail
  }

  /** Five pieces laid end to end can be cut apart again at their lengths. */
  lemma CutFive(a: string, b: string, c: string, d: string, e: string)
    ensures var p, m := a + b + c + d + e, |a| + |b|;
      && |p| == m + |c| + |d| + |e|
      && p[..|a|] == a && p[|a|..m] == b && p[m..m + |c|] == c
      && p[m + |c|..|p| - |e|] == d && p[|p| - |e|..] == e
  {
    var p := a + b + c + d + e;
    assert p[..|a|] == a;
    assert p[|a|..|a| + |b|] == b;
    assert p[|a| + |b|..|a| + |b| + |c|] == c;
    assert p[|a| + |b| + |c|..|p| - |e|] == d;
  }

  /** Any head, middle and tail around the two sections can be cut off again. */
  lemma PromptCutsApart(head: string, skills: seq<Skill>, mid: string, projects: seq<Project>, tail: string)
    requires |skills| >= 1 && |projects| >= 1
    requires forall i :: 0 <= i < |skills| ==> SingleLineSkill(skills[i])
    requires forall i :: 0 <= i < |projects| ==> SingleLineProject(projects[i])
    ensures ReadsBackAs(head + SkillsSection(skills) + mid + ProjectsSection(projects) + tail, head, skills, mid, projects, tail)
  {
    var skl, prj := SkillsSection(skills), ProjectsSection(projects);
    var p := head + skl + mid + prj + tail;
    CutFive(head, skl, mid, prj, tail);
    SkillsSectionLines(skills);
    ProjectsSectionLines(projects);
    assert SectionsCutAt(p, head, skills, mid, projects, tail, |head| + |skl|);
  }

  /**
    The system prompt reads back section by section: the fixed head, the SKILLS
    section one line per skill, the fixed middle, the PROJECTS section one line
    per project, the fixed tail.
   */
  lemma SystemPromptSections(skills: seq<Skill>, projects: seq<Project>)
    requires |skills| >= 1 && |projects| >= 1
    requires forall i :: 0 <= i < |skills| ==> SingleLineSkill(skills[i])
    requires forall i :: 0 <= i < |projects| ==> SingleLineProject(projects[i])
    ensures ReadsBackAs(SystemPrompt(skills, projects), PromptHead, skills, PromptMiddle, projects, PromptTail)
  {
    PromptCutsApart(PromptHead, skills, PromptMiddle, projects, PromptTail);
  }

  /**
    The two seeded turns: the system prompt built from the catalogue as the user,
    the fixed acknowledgement as the model. The module reads the shipped `SKILLS`
    and `PROJECTS`; here they are parameters, and the site's values are
    `Catalog.Skills` and `Catalog.Projects`.
   */
  function SeedHistory(skills: seq<Skill>, projects: seq<Project>): (h: seq<Turn>)
    ensures |h| == 2
    ensures h[0] == Turn(UserRole, SystemPrompt(skills, projects))
    ensures h[1] == Turn(ModelRole, Acknowledgement)
  {
    [Turn(UserRole, SystemPrompt(skills, projects)), Turn(ModelRole, Acknowledgement)]
  }

  /**
    `generateGeminiResponse(prompt)`: without a key, return the fixed alert and
    send nothing; otherwise send only the prompt on a chat seeded with the two
    history turns, and return the reply or, on any error, the fixed error text.
   */
  function GenerateResponse(skills: seq<Skill>, projects: seq<Project>, apiKey: Option<string>, prompt: string, sdk: SdkOutcome): (r: Exchange)
    ensures r.request.None? <==> !Configured(apiKey)
    ensures !Configured(apiKey) ==> r.answer == KeyMissing
    ensures r.request.Some? ==> r.request.value == ChatRequest(ModelName, SeedHistory(skills, projects), prompt)
    ensures Configured(apiKey) && sdk.Replied? ==> r.answer == sdk.text
    ensures Configured(apiKey) && sdk.Raised? ==> r.answer == CriticalError
  {
    if !Configured(apiKey) then Exchange(None, KeyMissing)
    else
      var request := ChatRequest(ModelName, SeedHistory(skills, projects), prompt);
      match sdk
      case Replied(t) => Exchange(Some(request), t)
      case Raised => Exchange(Some(request), CriticalError)
  }

  /** Without a key the SDK is never consulted: the outcome it would have had makes no difference. */
  lemma MissingKeySkipsSdk(skills: seq<Skill>, projects: seq<Project>, apiKey: Option<string>, prompt: string, sdk1: SdkOutcome, sdk2: SdkOutcome)
    requires !Configured(apiKey)
    ensures GenerateResponse(skills, projects, apiKey, prompt, sdk1) == GenerateResponse(skills, projects, apiKey, prompt, sdk2)
    ensures GenerateResponse(skills, projects, apiKey, prompt, sdk1).request == None
  {
  }

  /**
    The wrapper never fails: its answer is the alert, the error text or exactly the
    SDK's reply, and the reply is passed through only if the prompt was sent.
   */
  lemma AnswerProvenance(skills: seq<Skill>, projects: seq<Project>, apiKey: Option<string>, prompt: string, sdk: SdkOutcome)
    ensures var r := GenerateResponse(skills, projects, apiKey, prompt, sdk);
            r.answer == KeyMissing || r.answer == CriticalError || (sdk.Replied? && r.answer == sdk.text)
    ensures var r := GenerateResponse(skills, projects, apiKey, prompt, sdk);
            sdk.Replied? && r.answer == sdk.text && r.answer != KeyMissing ==> r.request.Some? && r.request.value.message == prompt
  {
  }
}
