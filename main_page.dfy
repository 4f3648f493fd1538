// The main page script: the fallback data table, the skills filter, the
// chat-style contact form with its captcha rule, the navbar scroll rule and
// the theme toggle.

module MainPage {
  import opened Wrappers
  import opened Strings
  import opened Content
  import Seqs
  import Navbar
  import Theme

  // ---------------------------------------------------------------------
  // Fallback data
  // ---------------------------------------------------------------------

  /** What `getFallbackData` hands back for a file name; `NoData` is `[]`. */
  datatype Data =
    | Timeline(milestones: seq<Milestone>)
    | Skills(skills: seq<Skill>)
    | Projects(projects: seq<Project>)
    | Testimonials(testimonials: seq<Testimonial>)
    | NoData

  const FallbackTimeline: seq<Milestone> := [
    Milestone("2020", "Started Web Development", "Began learning HTML, CSS, and JavaScript fundamentals"),
    Milestone("2021", "First Freelance Projects", "Started taking on small web development projects"),
    Milestone("2022", "Full Stack Development", "Expanded skills to include backend technologies and databases"),
    Milestone("2023", "Professional Certification", "Completed comprehensive web development bootcamp"),
    Milestone("2024", "Established Business", "Founded Graphic Shop and expanded client base")
  ]

  const FallbackSkills: seq<Skill> := [
    Skill("HTML5", "frontend", 95, "fab fa-html5"),
    Skill("CSS3", "frontend", 90, "fab fa-css3-alt"),
    Skill("JavaScript", "frontend", 85, "fab fa-js-square"),
    Skill("React", "frontend", 80, "fab fa-react"),
    Skill("Vue.js", "frontend", 75, "fab fa-vuejs"),
    Skill("TailwindCSS", "frontend", 90, "fas fa-wind"),
    Skill("Node.js", "backend", 80, "fab fa-node-js"),
    Skill("PHP", "backend", 85, "fab fa-php"),
    Skill("Python", "backend", 75, "fab fa-python"),
    Skill("MySQL", "backend", 80, "fas fa-database"),
    Skill("MongoDB", "backend", 70, "fas fa-leaf"),
    Skill("WordPress", "backend", 95, "fab fa-wordpress"),
    Skill("Photoshop", "design", 90, "fas fa-image"),
    Skill("Illustrator", "design", 85, "fas fa-vector-square"),
    Skill("Figma", "design", 80, "fab fa-figma"),
    Skill("Adobe XD", "design", 75, "fab fa-adobe"),
    Skill("Git", "tools", 85, "fab fa-git-alt"),
    Skill("VS Code", "tools", 95, "fas fa-code"),
    Skill("Docker", "tools", 70, "fab fa-docker"),
    Skill("AWS", "tools", 65, "fab fa-aws")
  ]

  const FallbackProjects: seq<Project> := [
    Project(1, "E-commerce Platform", "Web Development", "assets/images/exactus-mb_result.webp",
      "A modern e-commerce platform built with React and Node.js",
      ["React", "Node.js", "MongoDB", "Stripe"], "#", "#"),
    Project(2, "Corporate Website", "Web Design", "assets/images/getech_result.webp",
      "Professional corporate website with custom CMS",
      ["WordPress", "PHP", "MySQL", "CSS3"], "#", "#"),
    Project(3, "Brand Identity Design", "Graphic Design", "assets/images/Grumium_result.webp",
      "Complete brand identity package for tech startup",
      ["Photoshop", "Illustrator", "Figma"], "#", "#")
  ]

  const FallbackTestimonials: seq<Testimonial> := [
    Testimonial("Bilal delivered our e\U{2011}commerce revamp flawlessly. Sales improved and the site feels incredibly fast.",
      "Ahsan Khan", "Karachi Tech", "Karachi, Pakistan", 5),
    Testimonial("Fantastic design sense and attention to detail. The new brand system is consistent across all touchpoints.",
      "Fatima Zahra", "Lahore Design Studio", "Lahore, Pakistan", 5),
    Testimonial("Professional, responsive, and technically solid. Our corporate site is now easy to manage and SEO\U{2011}friendly.",
      "Ali Raza", "Islamabad Solutions", "Islamabad, Pakistan", 4),
    Testimonial("The WordPress migration was smooth and the performance optimizations made a big difference.",
      "Ayesha Siddiqui", "Peshawar Media", "Peshawar, Pakistan", 5),
    Testimonial("Great communication and timely delivery. Highly recommended for full\U{2011}stack projects.",
      "Hassan Ahmed", "Quetta Traders", "Quetta, Pakistan", 4)
  ]

  /** `getFallbackData(fileName)`: the built-in table for the four data
      files, and an empty list for any other name. */
  function GetFallbackData(fileName: string): (r: Data)
    ensures r.Timeline? <==> fileName == "timeline.json"
    ensures r.Skills? <==> fileName == "skills.json"
    ensures r.Projects? <==> fileName == "projects.json"
    ensures r.Testimonials? <==> fileName == "testimonials.json"
    ensures r.Timeline? ==> |r.milestones| == 5
    ensures r.Skills? ==> |r.skills| == 20
    ensures r.Projects? ==> |r.projects| == 3
    ensures r.Testimonials? ==> |r.testimonials| == 5
    ensures r.Timeline? ==> r.milestones == FallbackTimeline
    ensures r.Skills? ==> r.skills == FallbackSkills
    ensures r.Projects? ==> r.projects == FallbackProjects
    ensures r.Testimonials? ==> r.testimonials == FallbackTestimonials
  {
    if fileName == "timeline.json" then Timeline(FallbackTimeline)
    else if fileName == "skills.json" then Skills(FallbackSkills)
    else if fileName == "projects.json" then Projects(FallbackProjects)
    else if fileName == "testimonials.json" then Testimonials(FallbackTestimonials)
    else NoData
  }

  /** The fallback projects have the ids 1, 2 and 3, in that order, and none
      has a source link worth showing. */
  lemma FallbackProjectIds()
    ensures forall i :: 0 <= i < |FallbackProjects| ==> FallbackProjects[i].id == i + 1
    ensures forall p :: p in FallbackProjects ==> p.githubUrl == "#"
  {
  }

  /** Every fallback skill is in one of the four filter categories, and its
      level is a percentage. */
  lemma FallbackSkillCategories()
    ensures forall s :: s in FallbackSkills ==>
      s.category in {"frontend", "backend", "design", "tools"} && 0 <= s.level <= 100
  {
  }

  // ---------------------------------------------------------------------
  // Skills filter
  // ---------------------------------------------------------------------

  /** The skills shown for a filter button: all of them for `all`, and
      otherwise those of that category, in their original order. */
  function FilterSkills(skills: seq<Skill>, filter: string): (r: seq<Skill>)
    ensures filter == "all" ==> r == skills
    ensures filter != "all" ==> Seqs.IsSublist(r, skills)
    ensures filter != "all" ==> forall i :: 0 <= i < |r| ==> r[i].category == filter
    ensures filter != "all" ==> forall s :: s in skills && s.category == filter ==>
      multiset(r)[s] == multiset(skills)[s]
  {
    if filter == "all" then skills else Seqs.Filter(skills, (s: Skill) => s.category == filter)
  }

  // ---------------------------------------------------------------------
  // The captcha sitekey
  // ---------------------------------------------------------------------

  /** A character of `[A-Za-z0-9\-\_]`. */
  predicate IsKeyChar(c: char)
  {
    ('A' <= c <= 'Z') || ('a' <= c <= 'z') || ('0' <= c <= '9') || c == '-' || c == '_'
  }

  /** `/^[A-Za-z0-9\-\_]{20,}$/`. */
  predicate MatchesKeyPattern(s: string)
  {
    |s| >= 20 && forall k :: 0 <= k < |s| ==> IsKeyChar(s[k])
  }

  /** `getHcaptchaSitekey()`: the trimmed `data-sitekey` attribute, or
      nothing when it is empty. A missing element or attribute reads as the
      empty string. */
  function Sitekey(attribute: string): (r: Option<string>)
    ensures r.None? <==> Trim(attribute) == ""
    ensures r.Some? ==> r.value == Trim(attribute)
  {
    var sk := Trim(attribute);
    if sk == "" then None else Some(sk)
  }

  /** `hasValidHcaptchaSitekey()`: template placeholders are rejected
      first, then the key must match the pattern. */
  predicate HasValidSitekey(attribute: string)
  {
    match Sitekey(attribute)
    case None => false
    case Some(sk) =>
      if Contains(sk, "{{") || Contains(sk, "}}") || Contains(sk, " ") then false
      else MatchesKeyPattern(sk)
  }

  /** A string that includes a non-empty `t` holds `t`'s first character. */
  lemma ContainsFirstChar(s: string, t: string)
    requires t != [] && Contains(s, t)
    ensures exists k :: 0 <= k < |s| && s[k] == t[0]
  {
    var i :| 0 <= i <= |s| - |t| && OccursAt(s, t, i);
    assert s[i..i + |t|][0] == s[i];
  }

  /** The placeholder checks never decide anything: a key is valid exactly
      when the trimmed attribute matches the pattern. */
  lemma SitekeyIsPattern(attribute: string)
    ensures HasValidSitekey(attribute) <==> MatchesKeyPattern(Trim(attribute))
  {
    var sk := Trim(attribute);
    if MatchesKeyPattern(sk) {
      if Contains(sk, "{{") { ContainsFirstChar(sk, "{{"); }
      if Contains(sk, "}}") { ContainsFirstChar(sk, "}}"); }
      if Contains(sk, " ") { ContainsFirstChar(sk, " "); }
    }
  }

  // ---------------------------------------------------------------------
  // The chat-style contact form
  // ---------------------------------------------------------------------

  datatype Kind = Text | Email | Select(options: seq<string>) | Textarea

  datatype ChatStep = ChatStep(question: string, field: string, kind: Kind)

  const ProjectOptions: seq<string> :=
    ["Web Development", "Graphic Design", "WordPress", "UI/UX Design", "Other"]

  const ChatSteps: seq<ChatStep> := [
    ChatStep("Hi! I'd love to hear from you. What's your name?", "name", Text),
    ChatStep("Nice to meet you, {name}! What's your email address?", "email", Email),
    ChatStep("What type of project are you interested in?", "project", Select(ProjectOptions)),
    ChatStep("Tell me more about your project. What are your goals?", "message", Textarea)
  ]

  const BadEmail := "That doesn't look like a valid email. Please try again."
  const BadChoice := "Invalid choice. Please enter one of the numbers from the list above."
  const CaptchaPrompt := "Please complete the captcha to continue."
  const Thanks := "Thank you! I'll get back to you soon. Your message has been received."
  const Sorry := "Sorry, there was an error sending your message. Please try again later."

  datatype Message = Bot(text: string) | User(text: string)

  /** `formData`: field names with their answers, in insertion order. */
  type Answers = seq<(string, string)>

  predicate DistinctKeys(answers: Answers)
  {
    forall i, j :: 0 <= i < j < |answers| ==> answers[i].0 != answers[j].0
  }

  /** Where `key` is stored, if anywhere. */
  function KeyIndex(answers: Answers, key: string): (r: Option<nat>)
    ensures r.Some? ==> r.value < |answers| && answers[r.value].0 == key
    ensures r.None? <==> forall i :: 0 <= i < |answers| ==> answers[i].0 != key
  {
    if answers == [] then None
    else if answers[0].0 == key then Some(0)
    else
      match KeyIndex(answers[1..], key)
      case None => None
      case Some(k) => Some(k + 1)
  }

  /** `formData[key]`. */
  function Lookup(answers: Answers, key: string): (r: Option<string>)
    ensures r.None? <==> forall i :: 0 <= i < |answers| ==> answers[i].0 != key
    ensures r.Some? ==> (key, r.value) in answers
  {
    match KeyIndex(answers, key)
    case Some(i) => Some(answers[i].1)
    case None => None
  }

  /** `formData[key] = value`: an existing key keeps its place and only its
      value changes; a new key goes last. */
  function Assign(answers: Answers, key: string, value: string): (r: Answers)
    requires DistinctKeys(answers)
    ensures DistinctKeys(r)
    ensures |r| == if Lookup(answers, key).Some? then |answers| else |answers| + 1
    ensures forall i :: 0 <= i < |answers| ==> r[i].0 == answers[i].0
    ensures forall i :: 0 <= i < |answers| && answers[i].0 != key ==> r[i] == answers[i]
    ensures (key, value) in r
    ensures forall p :: p in r ==> p in answers || p == (key, value)
  {
    match KeyIndex(answers, key)
    case Some(i) => answers[i := (key, value)]
    case None => answers + [(key, value)]
  }

  /** After `formData[key] = value`, reading `key` gives `value`. */
  lemma LookupAssign(answers: Answers, key: string, value: string)
    requires DistinctKeys(answers)
    ensures Lookup(Assign(answers, key, value), key) == Some(value)
  {
    var r := Assign(answers, key, value);
    var i :| 0 <= i < |r| && r[i] == (key, value);
    var k := KeyIndex(r, key);
    assert k.Some? && r[k.value].0 == key;
  }

  /** `/^\S+@\S+\.\S+$/.test(s)`: no whitespace, an `@` after at least one
      character, and a later `.` with a character on each side. */
  predicate IsEmail(s: string)
  {
    && NoWhitespace(s)
    && exists i | 1 <= i < |s| :: s[i] == '@' && exists j | i + 2 <= j < |s| - 1 :: s[j] == '.'
  }

  /** An accepted address splits as the pattern reads. */
  lemma EmailParts(s: string) returns (local: string, domain: string, top: string)
    requires IsEmail(s)
    ensures s == local + "@" + domain + "." + top
    ensures local != [] && domain != [] && top != []
    ensures NoWhitespace(local) && NoWhitespace(domain) && NoWhitespace(top)
  {
    var i :| 1 <= i < |s| && s[i] == '@' && exists j | i + 2 <= j < |s| - 1 :: s[j] == '.';
    var j :| i + 2 <= j < |s| - 1 && s[j] == '.';
    local, domain, top := s[..i], s[i + 1..j], s[j + 1..];
    assert s == local + "@" + domain + "." + top;
  }

  /** Every string of the pattern's shape is accepted. */
  lemma EmailOfParts(local: string, domain: string, top: string)
    requires local != [] && domain != [] && top != []
    requires NoWhitespace(local) && NoWhitespace(domain) && NoWhitespace(top)
    ensures IsEmail(local + "@" + domain + "." + top)
  {
    var s := local + "@" + domain + "." + top;
    var i, j := |local|, |local| + 1 + |domain|;
    assert s[i] == '@' && s[j] == '.';
    assert forall k :: 0 <= k < |s| ==> s[k] in local || s[k] in domain || s[k] in top || s[k] == '@' || s[k] == '.' by {
      forall k | 0 <= k < |s|
        ensures s[k] in local || s[k] in domain || s[k] in top || s[k] == '@' || s[k] == '.'
      {
        if k < i { assert s[k] == local[k]; }
        else if i < k < j { assert s[k] == domain[k - i - 1]; }
        else if j < k { assert s[k] == top[k - j - 1]; }
      }
    }
  }

  /** `parseInt(input) - 1` when it names one of `count` options. */
  function Choice(input: string, count: nat): (r: Option<nat>)
    ensures r.Some? <==> ParseInt(input, true).Some? && 1 <= ParseInt(input, true).value <= count
    ensures r.Some? ==> r.value + 1 == ParseInt(input, true).value
  {
    match ParseInt(input, true)
    case Some(v) => if 0 <= v - 1 < count then Some(v - 1) else None
    case None => None
  }

  /** Typing the number shown beside an option picks that option. */
  lemma ChoiceOfListedNumber(k: nat, count: nat)
    requires k < count
    ensures Choice(NatToString(k + 1), count) == Some(k)
  {
    ParseIntOfNatToString(k + 1, true);
  }

  /** The numbered lines `1. <option>`, `2. <option>`, ... */
  function Numbered(options: seq<string>, first: nat): (r: seq<string>)
    ensures |r| == |options|
    ensures forall i :: 0 <= i < |options| ==> r[i] == NatToString(first + i) + ". " + options[i]
  {
    if options == [] then []
    else [NatToString(first) + ". " + options[0]] + Numbered(options[1..], first + 1)
  }

  /** The message listing a select step's options. */
  function OptionsPrompt(options: seq<string>): string
  {
    "Please reply with a number:<br>" + Join(Numbered(options, 1), "<br>")
  }

  /** The question of step `step`, with the first `{name}` replaced by the
      name collected so far (or by nothing). */
  function Question(step: ChatStep, answers: Answers): string
  {
    ReplaceFirst(step.question, "{name}", Lookup(answers, "name").GetOr(""))
  }

  /** What the submission sees when it runs: the sitekey attribute, the
      captcha token (empty when the widget is missing), and whether the POST
      request completes. */
  datatype SubmitEnv = SubmitEnv(sitekeyAttribute: string, token: string, delivered: bool)

  datatype Submission = CaptchaMissing | Posted(body: seq<(string, string)>)

  /** `submitFormData(formData)`: the form body, or nothing when a valid
      sitekey is configured but no token was given. */
  function Submit(answers: Answers, sitekeyAttribute: string, token: string): (r: Submission)
    ensures r.CaptchaMissing? <==> HasValidSitekey(sitekeyAttribute) && token == ""
    ensures r.Posted? ==> |r.body| == 1 + |answers| + (if HasValidSitekey(sitekeyAttribute) then 1 else 0)
    ensures r.Posted? ==> r.body[0] == ("form-name", "contact") && r.body[1..1 + |answers|] == answers
    ensures r.Posted? && HasValidSitekey(sitekeyAttribute) ==> r.body[|r.body| - 1] == ("h-captcha-response", token)
  {
    var body := [("form-name", "contact")] + answers;
    assert body[1..] == answers;
    if HasValidSitekey(sitekeyAttribute) then
      if token == "" then CaptchaMissing
      else Posted(body + [("h-captcha-response", token)])
    else Posted(body)
  }

  /** The conversation: the step counter, the answers, the messages shown,
      the text box, whether input is disabled, how many `askNextQuestion`
      timers are pending, and the bodies posted. */
  datatype ChatState = ChatState(
    step: int,
    answers: Answers,
    messages: seq<Message>,
    input: string,
    disabled: bool,
    pendingAsks: nat,
    posted: seq<seq<(string, string)>>)

  /** Every stored answer is non-empty, belongs to a step's field and passed
      that step's check. */
  ghost predicate Valid(c: ChatState)
  {
    && c.step >= -1
    && DistinctKeys(c.answers)
    && forall i :: 0 <= i < |c.answers| ==> ValidAnswer(c.answers[i].0, c.answers[i].1)
  }

  predicate ValidAnswer(field: string, value: string)
  {
    && value != ""
    && field in {"name", "email", "project", "message"}
    && (field == "email" ==> IsEmail(value))
    && (field == "project" ==> value in ProjectOptions)
  }

  /** The state before the conversation starts. */
  const Start := ChatState(-1, [], [], "", false, 0, [])

  /** `askNextQuestion()`: the counter moves on; a question step shows its
      question (and, for a select step, the numbered options), the step
      after the last one submits, and any later step disables input. */
  function Ask(c: ChatState, env: SubmitEnv): (r: ChatState)
    requires c.step >= -1
    ensures r.step == c.step + 1
    ensures r.answers == c.answers && r.input == c.input && r.pendingAsks == c.pendingAsks
    // a question step shows its question, with the numbered options after it
    // on the select step
    ensures 0 <= c.step + 1 < |ChatSteps| ==>
      (var s := ChatSteps[c.step + 1];
       && r.messages == c.messages + [Bot(Question(s, c.answers))]
            + (if s.kind.Select? then [Bot(OptionsPrompt(s.kind.options))] else [])
       && r.posted == c.posted && r.disabled == c.disabled)
    // the step after the last question submits the answers
    ensures c.step + 1 == |ChatSteps| ==>
      (match Submit(c.answers, env.sitekeyAttribute, env.token)
       case CaptchaMissing =>
         r.messages == c.messages + [Bot(CaptchaPrompt)] && r.posted == c.posted && r.disabled == c.disabled
       case Posted(body) =>
         && r.posted == c.posted + [body] && r.disabled
         && r.messages == c.messages + [Bot(if env.delivered then Thanks else Sorry)])
    // any later step only disables input
    ensures c.step + 1 > |ChatSteps| ==> r.disabled && r.posted == c.posted && r.messages == c.messages
  {
    var step := c.step + 1;
    if step < |ChatSteps| then
      var s := ChatSteps[step];
      var extra := if s.kind.Select? then [Bot(OptionsPrompt(s.kind.options))] else [];
      c.(step := step, messages := c.messages + [Bot(Question(s, c.answers))] + extra)
    else if step == |ChatSteps| then
      match Submit(c.answers, env.sitekeyAttribute, env.token)
      case CaptchaMissing => c.(step := step, messages := c.messages + [Bot(CaptchaPrompt)])
      case Posted(body) =>
        c.(step := step, posted := c.posted + [body],
           messages := c.messages + [Bot(if env.delivered then Thanks else Sorry)], disabled := true)
    else c.(step := step, disabled := true)
  }

  /** `processUserInput(value)`: the answer is stored under the step's field,
      echoed, and the next question is scheduled. */
  function Accept(c: ChatState, field: string, value: string): (r: ChatState)
    requires DistinctKeys(c.answers)
  {
    c.(answers := Assign(c.answers, field, value), messages := c.messages + [User(value)],
       pendingAsks := c.pendingAsks + 1, input := "")
  }

  /** `handleSend()`. */
  function Send(c: ChatState): (r: ChatState)
    requires Valid(c)
    ensures r.step == c.step && r.disabled == c.disabled && r.posted == c.posted
  {
    var text := Trim(c.input);
    if text == "" || !(0 <= c.step < |ChatSteps|) then c
    else
      var s := ChatSteps[c.step];
      match s.kind
      case Email =>
        if IsEmail(text) then Accept(c, s.field, text)
        else c.(messages := c.messages + [Bot(BadEmail)])
      case Select(options) =>
        (match Choice(text, |options|)
         case Some(k) => Accept(c, s.field, options[k])
         case None => c.(messages := c.messages + [Bot(BadChoice)], input := ""))
      case _ => Accept(c, s.field, text)
  }

  /** A scheduled `askNextQuestion` runs. */
  function TimerFired(c: ChatState, env: SubmitEnv): (r: ChatState)
    requires c.step >= -1 && c.pendingAsks > 0
    ensures r.pendingAsks == c.pendingAsks - 1
  {
    Ask(c.(pendingAsks := c.pendingAsks - 1), env)
  }

  /** The conversation opens with the first question. */
  lemma Opening(env: SubmitEnv)
    ensures Ask(Start, env) == Start.(step := 0, messages := [Bot(Question(ChatSteps[0], []))])
  {
  }

  /** Sending keeps every stored answer valid. */
  lemma SendKeepsValid(c: ChatState)
    requires Valid(c)
    ensures Valid(Send(c))
  {
    var text := Trim(c.input);
    if text != "" && 0 <= c.step < |ChatSteps| {
      var s := ChatSteps[c.step];
      match s.kind
      case Email =>
        if IsEmail(text) { AcceptKeepsValid(c, "email", text); }
      case Select(options) =>
        var k := Choice(text, |options|);
        if k.Some? {
          assert options == ProjectOptions && options[k.value] in ProjectOptions;
          AcceptKeepsValid(c, "project", options[k.value]);
        }
      case _ =>
        AcceptKeepsValid(c, s.field, text);
    }
  }

  /** Storing an answer that passed its check keeps the state valid. */
  lemma AcceptKeepsValid(c: ChatState, field: string, value: string)
    requires Valid(c) && ValidAnswer(field, value)
    ensures Valid(Accept(c, field, value))
  {
    var r := Assign(c.answers, field, value);
    forall i | 0 <= i < |r| ensures ValidAnswer(r[i].0, r[i].1) {
      assert r[i] in r;
      if r[i] in c.answers {
        var j :| 0 <= j < |c.answers| && c.answers[j] == r[i];
      }
    }
  }

  /** Asking and timers keep every stored answer valid. */
  lemma TimerKeepsValid(c: ChatState, env: SubmitEnv)
    requires Valid(c) && c.pendingAsks > 0
    ensures Valid(TimerFired(c, env))
  {
  }

  /** Blank input, or no question being asked, leaves everything as it was. */
  lemma SendIgnored(c: ChatState)
    requires Valid(c)
    requires Trim(c.input) == "" || c.step < 0 || c.step >= |ChatSteps|
    ensures Send(c) == c
  {
  }

  /** The name and message steps store the trimmed input, whatever it is,
      under their field. */
  lemma TextStep(c: ChatState)
    requires Valid(c) && (c.step == 0 || c.step == 3) && Trim(c.input) != ""
    ensures c.step == 0 ==> Send(c) == Accept(c, "name", Trim(c.input))
    ensures c.step == 3 ==> Send(c) == Accept(c, "message", Trim(c.input))
  {
  }

  /** The email step stores the trimmed input exactly when it is an email
      address; otherwise only the complaint is added and the text box keeps
      its text. */
  lemma EmailStep(c: ChatState)
    requires Valid(c) && c.step == 1 && Trim(c.input) != ""
    ensures IsEmail(Trim(c.input)) ==> Send(c) == Accept(c, "email", Trim(c.input))
    ensures !IsEmail(Trim(c.input)) ==> Send(c) == c.(messages := c.messages + [Bot(BadEmail)])
  {
  }

  /** The select step stores the option's text when the number names one;
      otherwise the complaint is added and the text box is cleared. */
  lemma SelectStep(c: ChatState)
    requires Valid(c) && c.step == 2 && Trim(c.input) != ""
    ensures Choice(Trim(c.input), 5).Some? ==>
      Send(c) == Accept(c, "project", ProjectOptions[Choice(Trim(c.input), 5).value])
    ensures Choice(Trim(c.input), 5).None? ==>
      Send(c) == c.(messages := c.messages + [Bot(BadChoice)], input := "")
  {
  }

  /** Every body the form posts starts with `form-name=contact`, followed by
      the answers. */
  lemma PostedBodies(c: ChatState, env: SubmitEnv)
    requires c.step >= -1
    requires forall b :: b in c.posted ==> |b| >= 1 && b[0] == ("form-name", "contact")
    ensures forall b :: b in Ask(c, env).posted ==> |b| >= 1 && b[0] == ("form-name", "contact")
  {
    var r := Ask(c, env);
    if c.step + 1 == |ChatSteps| {
      var sub := Submit(c.answers, env.sitekeyAttribute, env.token);
      assert sub.Posted? ==> r.posted == c.posted + [sub.body];
      assert sub.CaptchaMissing? ==> r.posted == c.posted;
    } else {
      assert r.posted == c.posted;
    }
  }

  /** The contact form's state, updated in place by its handlers. */
  class ChatForm {
    var step: int
    var answers: Answers
    var messages: seq<Message>
    var input: string
    var disabled: bool
    var pendingAsks: nat
    var posted: seq<seq<(string, string)>>

    function View(): ChatState
      reads this
    {
      ChatState(step, answers, messages, input, disabled, pendingAsks, posted)
    }

    /** `setupContactForm()`, which ends by asking the first question. */
    constructor ()
      ensures Valid(View()) && View() == Start.(step := 0, messages := [Bot(Question(ChatSteps[0], []))])
    {
      step, answers, messages, input, disabled, pendingAsks, posted := -1, [], [], "", false, 0, [];
      new;
      AskNextQuestion(SubmitEnv("", "", false));
      Opening(SubmitEnv("", "", false));
    }

    /** Typing into the text box. */
    method Type(text: string)
      modifies this
      ensures View() == old(View()).(input := text)
    {
      input := text;
    }

    method AskNextQuestion(env: SubmitEnv)
      requires step >= -1
      modifies this
      ensures View() == Ask(old(View()), env)
    {
      step := step + 1;
      if step < |ChatSteps| {
        var s := ChatSteps[step];
        messages := messages + [Bot(Question(s, answers))];
        if s.kind.Select? {
          messages := messages + [Bot(OptionsPrompt(s.kind.options))];
        }
      } else if step == |ChatSteps| {
        var submission := Submit(answers, env.sitekeyAttribute, env.token);
        if submission.CaptchaMissing? {
          messages := messages + [Bot(CaptchaPrompt)];
        } else {
          posted := posted + [submission.body];
          messages := messages + [Bot(if env.delivered then Thanks else Sorry)];
          disabled := true;
        }
      } else {
        disabled := true;
      }
    }

    method ProcessUserInput(field: string, value: string)
      requires DistinctKeys(answers)
      modifies this
      ensures View() == Accept(old(View()), field, value)
    {
      answers := Assign(answers, field, value);
      messages := messages + [User(value)];
      pendingAsks := pendingAsks + 1;
      input := "";
    }

    method HandleSend()
      requires Valid(View())
      modifies this
      ensures View() == Send(old(View())) && Valid(View())
    {
      SendKeepsValid(View());
      var text := Trim(input);
      if text == "" || !(0 <= step < |ChatSteps|) {
        return;
      }
      var s := ChatSteps[step];
      match s.kind
      case Email =>
        if IsEmail(text) {
          ProcessUserInput(s.field, text);
        } else {
          messages := messages + [Bot(BadEmail)];
        }
      case Select(options) =>
        var choice := Choice(text, |options|);
        if choice.Some? {
          ProcessUserInput(s.field, options[choice.value]);
        } else {
          messages := messages + [Bot(BadChoice)];
          input := "";
        }
      case _ =>
        ProcessUserInput(s.field, text);
    }

    /** The one-second timer that `processUserInput` set goes off. */
    method TimerFires(env: SubmitEnv)
      requires Valid(View()) && pendingAsks > 0
      modifies this
      ensures View() == TimerFired(old(View()), env) && Valid(View())
    {
      TimerKeepsValid(View(), env);
      pendingAsks := pendingAsks - 1;
      AskNextQuestion(env);
    }
  }

  // ---------------------------------------------------------------------
  // Navbar and theme
  // ---------------------------------------------------------------------

  /** `setupNavigation()`: the navbar hides past 100 pixels. */
  method SetupNavigation(scrollY: real) returns (navbar: Navbar.ScrollNavbar)
    ensures fresh(navbar) && navbar.Valid()
    ensures navbar.hideAbove == 100.0 && navbar.lastScrollY == scrollY
  {
    navbar := new Navbar.ScrollNavbar(100.0, scrollY);
  }

  /** The icon class the toggle shows for a theme. */
  function ThemeIcon(theme: string): (r: string)
    ensures r == "fas fa-sun text-accent-gold group-hover:rotate-180 transition-transform duration-300"
        <==> theme == Theme.Dark
  {
    if theme == Theme.Dark then "fas fa-sun text-accent-gold group-hover:rotate-180 transition-transform duration-300"
    else "fas fa-moon text-accent-gold group-hover:rotate-180 transition-transform duration-300"
  }

  /** The `#theme-toggle` button and the body's `data-theme` attribute. */
  class ThemeToggle {
    var bodyTheme: string
    var stored: string
    var icon: string
    var ariaPressed: string

    /** The icon and `aria-pressed` agree with the body's theme. */
    ghost predicate Valid()
      reads this
    {
      icon == ThemeIcon(bodyTheme) && (ariaPressed == "true" <==> bodyTheme == Theme.Dark)
    }

    /** `setupThemeToggle()` with the stored preference (empty when none). */
    constructor (stored: string)
      ensures Valid() && bodyTheme == Theme.Saved(stored) && this.stored == stored
    {
      bodyTheme := Theme.Saved(stored);
      this.stored := stored;
      icon := ThemeIcon(Theme.Saved(stored));
      ariaPressed := if Theme.Saved(stored) == Theme.Dark then "true" else "false";
    }

    /** A click flips the theme, stores it and updates the icon. */
    method Click()
      requires Valid()
      modifies this
      ensures Valid()
      ensures bodyTheme == Theme.Toggled(old(bodyTheme)) && stored == bodyTheme
    {
      bodyTheme := Theme.Toggled(bodyTheme);
      stored := bodyTheme;
      icon := ThemeIcon(bodyTheme);
      ariaPressed := if bodyTheme == Theme.Dark then "true" else "false";
    }
  }
}
