/**
 * The AI assistant page: a chat whose replies come from a fixed table of
 * templates chosen by keywords in the user's prompt, delivered after a delay
 * in place of a loading placeholder.
 */
module Assistant {
  import opened Text
  import Types

  datatype Sender = User | Bot

  /** One chat bubble; `isLoading` marks the placeholder shown while a reply is pending. */
  datatype Message = Message(id: string, content: string, sender: Sender, timestamp: Types.Instant, isLoading: bool)

  /** The canned replies, and the fallback when no keyword matches. */
  datatype Template = EmailTemplate | InterviewQuestions | JobDescription | FeedbackSummary | Fallback

  // The reply texts are written as short literals joined together; each joins to the full text.

  const EmailTemplateText: string :=
    "Dear [Candidate Name],\n" +
    "\n" +
    "Thank you for applying to the [Position] role at [Company]. " +
    "We were impressed by your background and would like to " +
    "invite you for an interview on [Date] at [Time].\n" +
    "\n" +
    "Please let us know if this works for you, and we can " +
    "provide further details about the interview process.\n" +
    "\n" +
    "Best regards,\n" +
    "[Your Name]\n" +
    "Recruiter at RecrutementPlus"

  const InterviewQuestionsText: string :=
    "1. Can you tell me about your previous experience with " +
    "similar projects?\n" +
    "2. How do you handle tight deadlines and competing priorities?\n" +
    "3. Describe a challenging situation you faced at work and " +
    "how you resolved it.\n" +
    "4. What are your strengths and areas for improvement in " +
    "relation to this role?\n" +
    "5. Why are you interested in working with our client company?"

  const JobDescriptionText: string :=
    "Job Title: Frontend Developer\n" +
    "\n" +
    "About the Company:\n" +
    "[Company] is a leading technology firm specializing in " +
    "innovative digital solutions for enterprise clients. We are " +
    "seeking a talented Frontend Developer to join our growing " +
    "team.\n" +
    "\n" +
    "Responsibilities:\n" +
    "- Develop and maintain responsive web applications\n" +
    "- Collaborate with designers and backend developers\n" +
    "- Optimize applications for maximum speed and scalability\n" +
    "- Ensure cross-browser compatibility and responsive design\n" +
    "\n" +
    "Requirements:\n" +
    "- 3+ years experience with HTML, CSS, and JavaScript\n" +
    "- Proficiency in React.js or similar frontend frameworks\n" +
    "- Experience with responsive design and cross-browser " +
    "compatibility\n" +
    "- Strong problem-solving skills and attention to detail\n" +
    "\n" +
    "Benefits:\n" +
    "- Competitive salary\n" +
    "- Flexible working hours\n" +
    "- Professional development opportunities\n" +
    "- Collaborative and innovative work environment"

  const FeedbackSummaryText: string :=
    "Candidate Name: John Smith\n" +
    "Position: Project Manager\n" +
    "\n" +
    "Strengths:\n" +
    "- Excellent communication skills\n" +
    "- Strong experience leading cross-functional teams\n" +
    "- Demonstrated ability to deliver projects on time and " +
    "within budget\n" +
    "\n" +
    "Areas for Improvement:\n" +
    "- Technical knowledge could be stronger in some areas\n" +
    "- May benefit from more experience with agile methodologies\n" +
    "\n" +
    "Overall Assessment:\n" +
    "4/5 - Strong candidate with great potential. Recommended " +
    "for second interview."

  const FallbackText: string :=
    "I understand you need help with that. Could you provide " +
    "more specific information about what you need?"

  /** `mockResponses`, by template. */
  function ResponseText(t: Template): (r: string)
    ensures r != ""
  {
    match t
    case EmailTemplate => EmailTemplateText
    case InterviewQuestions => InterviewQuestionsText
    case JobDescription => JobDescriptionText
    case FeedbackSummary => FeedbackSummaryText
    case Fallback => FallbackText
  }

  const Greeting: string :=
    "Hello! I'm your AI assistant. I can help you with writing emails, generating interview questions, creating job descriptions, and more. How can I assist you today?"

  /** The keyword tests of the reply, on the lower-cased prompt. */
  predicate AsksEmail(l: string) { Contains(l, "email") || Contains(l, "message") }
  predicate AsksQuestions(l: string) { Contains(l, "interview") && Contains(l, "question") }
  predicate AsksJob(l: string) { Contains(l, "job") && (Contains(l, "description") || Contains(l, "posting")) }
  predicate AsksFeedback(l: string) { Contains(l, "feedback") || Contains(l, "candidate") || Contains(l, "summary") }

  /** The template a prompt gets: the first keyword test, in this order, that the lower-cased
      prompt passes. */
  function Classify(prompt: string): (r: Template)
    ensures r == EmailTemplate <==> AsksEmail(Lower(prompt))
    ensures r == InterviewQuestions <==> !AsksEmail(Lower(prompt)) && AsksQuestions(Lower(prompt))
    ensures r == JobDescription <==>
      !AsksEmail(Lower(prompt)) && !AsksQuestions(Lower(prompt)) && AsksJob(Lower(prompt))
    ensures r == FeedbackSummary <==>
      !AsksEmail(Lower(prompt)) && !AsksQuestions(Lower(prompt)) && !AsksJob(Lower(prompt))
      && AsksFeedback(Lower(prompt))
  {
    var l := Lower(prompt);
    if AsksEmail(l) then EmailTemplate
    else if AsksQuestions(l) then InterviewQuestions
    else if AsksJob(l) then JobDescription
    else if AsksFeedback(l) then FeedbackSummary
    else Fallback
  }

  /** Keyword matching ignores letter case. */
  lemma ClassifyIgnoresCase(prompt: string)
    ensures Classify(Lower(prompt)) == Classify(prompt)
  {
    LowerIdempotent(prompt);
  }

  /** A prompt with none of the keywords gets the fallback reply. */
  lemma FallbackWhenNoKeyword(prompt: string)
    requires var l := Lower(prompt);
      && !Contains(l, "email") && !Contains(l, "message") && !Contains(l, "interview") && !Contains(l, "job")
      && !Contains(l, "feedback") && !Contains(l, "candidate") && !Contains(l, "summary")
    ensures Classify(prompt) == Fallback
  {
  }

  /** The four quick-action buttons and the prompts they put in the input. */
  datatype QuickAction = EmailButton | QuestionsButton | DescriptionButton | FeedbackButton

  /** Each prompt is written as a few short literals joined together, which lets the lemmas below
      see individual characters; a letter whose position matters starts its own piece. */
  function QuickPrompt(q: QuickAction): string {
    match q
    case EmailButton => "Write an email " + "template for inviting " + "a candidate to an interview."
    case QuestionsButton => "Generate interview " + "questions for a " + "frontend developer position."
    case DescriptionButton => "Create a job " + "description for a " + "project " + "manager role."
    case FeedbackButton => "Write a candidate " + "feedback summary " + "temp" + "late."
  }

  /** The template each button is meant to produce. */
  function Intended(q: QuickAction): Template {
    match q
    case EmailButton => EmailTemplate
    case QuestionsButton => InterviewQuestions
    case DescriptionButton => JobDescription
    case FeedbackButton => FeedbackSummary
  }

  lemma QuestionsWhen(prompt: string)
    requires !Contains(Lower(prompt), "email") && !Contains(Lower(prompt), "message")
    requires Contains(Lower(prompt), "interview") && Contains(Lower(prompt), "question")
    ensures Classify(prompt) == InterviewQuestions
  {
  }

  lemma JobWhen(prompt: string)
    requires !Contains(Lower(prompt), "email") && !Contains(Lower(prompt), "message")
    requires !Contains(Lower(prompt), "interview")
    requires Contains(Lower(prompt), "job") && Contains(Lower(prompt), "description")
    ensures Classify(prompt) == JobDescription
  {
  }

  lemma FeedbackWhen(prompt: string)
    requires !Contains(Lower(prompt), "email") && !Contains(Lower(prompt), "message")
    requires !Contains(Lower(prompt), "interview") && !Contains(Lower(prompt), "job")
    requires Contains(Lower(prompt), "candidate")
    ensures Classify(prompt) == FeedbackSummary
  {
  }

  lemma EmailButtonClassified()
    ensures Classify(QuickPrompt(EmailButton)) == EmailTemplate
  {
    var l := Lower(QuickPrompt(EmailButton));
    assert l[9..14] == "email";
    ContainsAt(l, "email", 9);
  }

  /** The interview-questions prompt has no `m`, so neither "email" nor "message". */
  lemma QuestionsPromptNoEmail(p: string, l: string)
    requires p == QuickPrompt(QuestionsButton) && l == Lower(p)
    ensures !Contains(l, "email")
    ensures !Contains(l, "message")
  {
    LowerMissing(p, 'm');
    MissingChar(l, "email", 1);
    MissingChar(l, "message", 0);
  }

  lemma QuestionsPromptKeywords(p: string, l: string)
    requires p == QuickPrompt(QuestionsButton) && l == Lower(p)
    ensures Contains(l, "interview")
    ensures Contains(l, "question")
  {
    assert l[9..18] == "interview";
    ContainsAt(l, "interview", 9);
    assert l[19..27] == "question";
    ContainsAt(l, "question", 19);
  }

  lemma QuestionsButtonClassified()
    ensures Classify(QuickPrompt(QuestionsButton)) == InterviewQuestions
  {
    var p := QuickPrompt(QuestionsButton);
    QuestionsPromptNoEmail(p, Lower(p));
    QuestionsPromptKeywords(p, Lower(p));
    QuestionsWhen(p);
  }

  /** The job-description prompt's one `m` begins "manager", after a space. */
  lemma DescriptionPromptNoEmail(p: string, l: string)
    requires p == QuickPrompt(DescriptionButton) && l == Lower(p)
    ensures !Contains(l, "email")
  {
    LowerOnlyAt(p, "Create a job " + "description for a " + "project ", 'm', "anager role.");
    MismatchAt(l, "email", 38, 0);
    OnlyPlacement(l, "email", 1, 39);
  }

  /** The job-description prompt's one `m` is followed by an `a`. */
  lemma DescriptionPromptNoMessage(p: string, l: string)
    requires p == QuickPrompt(DescriptionButton) && l == Lower(p)
    ensures !Contains(l, "message")
  {
    LowerOnlyAt(p, "Create a job " + "description for a " + "project ", 'm', "anager role.");
    MismatchAt(l, "message", 39, 1);
    OnlyPlacement(l, "message", 0, 39);
  }

  /** The job-description prompt has no `v`. */
  lemma DescriptionPromptNoInterview(p: string, l: string)
    requires p == QuickPrompt(DescriptionButton) && l == Lower(p)
    ensures !Contains(l, "interview")
  {
    LowerMissing(p, 'v');
    MissingChar(l, "interview", 5);
  }

  lemma DescriptionPromptJob(p: string, l: string)
    requires p == QuickPrompt(DescriptionButton) && l == Lower(p)
    ensures Contains(l, "job")
  {
    assert l[9..12] == "job";
    ContainsAt(l, "job", 9);
  }

  lemma DescriptionPromptDescription(p: string, l: string)
    requires p == QuickPrompt(DescriptionButton) && l == Lower(p)
    ensures Contains(l, "description")
  {
    assert l[13..24] == "description";
    ContainsAt(l, "description", 13);
  }

  lemma DescriptionButtonClassified()
    ensures Classify(QuickPrompt(DescriptionButton)) == JobDescription
  {
    var p := QuickPrompt(DescriptionButton);
    DescriptionPromptNoEmail(p, Lower(p));
    DescriptionPromptNoMessage(p, Lower(p));
    DescriptionPromptNoInterview(p, Lower(p));
    DescriptionPromptJob(p, Lower(p));
    DescriptionPromptDescription(p, Lower(p));
    JobWhen(p);
  }

  /** The feedback prompt's one `l` follows a `p`. */
  lemma FeedbackPromptNoEmail(p: string, l: string)
    requires p == QuickPrompt(FeedbackButton) && l == Lower(p)
    ensures !Contains(l, "email")
  {
    LowerOnlyAt(p, "Write a candidate " + "feedback summary " + "temp", 'l', "ate.");
    MismatchAt(l, "email", 35, 3);
    OnlyPlacement(l, "email", 4, 39);
  }

  /** The feedback prompt has no `g`, `v` or `j` in either case, so it names no word holding one
      of them (message, interview, job). */
  lemma FeedbackPromptLacks(p: string, l: string, w: string, k: nat)
    requires p == QuickPrompt(FeedbackButton) && l == Lower(p)
    requires k < |w| && w[k] in "gvj"
    ensures !Contains(l, w)
  {
    LowerMissing(p, w[k]);
    MissingChar(l, w, k);
  }

  lemma FeedbackPromptKeywords(p: string, l: string)
    requires p == QuickPrompt(FeedbackButton) && l == Lower(p)
    ensures Contains(l, "candidate")
  {
    assert l[8..17] == "candidate";
    ContainsAt(l, "candidate", 8);
  }

  lemma FeedbackButtonClassified()
    ensures Classify(QuickPrompt(FeedbackButton)) == FeedbackSummary
  {
    var p := QuickPrompt(FeedbackButton);
    FeedbackPromptNoEmail(p, Lower(p));
    FeedbackPromptLacks(p, Lower(p), "message", 5);
    FeedbackPromptLacks(p, Lower(p), "interview", 5);
    FeedbackPromptLacks(p, Lower(p), "job", 0);
    FeedbackPromptKeywords(p, Lower(p));
    FeedbackWhen(p);
  }

  /** Every quick action's prompt gets the template its button names. */
  lemma QuickActionsClassified(q: QuickAction)
    ensures Classify(QuickPrompt(q)) == Intended(q)
  {
    match q
    case EmailButton => EmailButtonClassified();
    case QuestionsButton => QuestionsButtonClassified();
    case DescriptionButton => DescriptionButtonClassified();
    case FeedbackButton => FeedbackButtonClassified();
  }

  // ---------------------------------------------------------------- the chat

  function LoadingMark(m: Message): nat {
    if m.isLoading then 1 else 0
  }

  /** How many placeholders the list holds. */
  function LoadingCount(ms: seq<Message>): nat
    decreases |ms|
  {
    if |ms| == 0 then 0 else LoadingCount(ms[..|ms| - 1]) + LoadingMark(ms[|ms| - 1])
  }

  lemma LoadingCountAppend(ms: seq<Message>, m: Message)
    ensures LoadingCount(ms + [m]) == LoadingCount(ms) + LoadingMark(m)
  {
    assert (ms + [m])[..|ms|] == ms;
  }

  /** Overwriting one message changes the count by what leaves and what arrives. */
  lemma {:induction false} LoadingCountUpdate(ms: seq<Message>, i: int, m: Message)
    requires 0 <= i < |ms|
    ensures LoadingCount(ms[i := m]) == LoadingCount(ms) - LoadingMark(ms[i]) + LoadingMark(m)
    decreases |ms|
  {
    var n := |ms| - 1;
    if i == n {
      assert ms[i := m][..n] == ms[..n];
    } else {
      assert ms[i := m][..n] == ms[..n][i := m];
      LoadingCountUpdate(ms[..n], i, m);
    }
  }

  /** `findIndex(msg => msg.isLoading)`: the first placeholder's position, or -1. */
  function FirstLoading(ms: seq<Message>): (r: int)
    ensures -1 <= r < |ms|
    ensures r == -1 <==> forall i :: 0 <= i < |ms| ==> !ms[i].isLoading
    ensures r >= 0 ==> ms[r].isLoading && forall i :: 0 <= i < r ==> !ms[i].isLoading
    decreases |ms|
  {
    if |ms| == 0 then -1
    else if ms[0].isLoading then 0
    else
      var r := FirstLoading(ms[1..]);
      assert forall i :: 1 <= i < |ms| ==> ms[i] == ms[1..][i - 1];
      if r == -1 then -1 else r + 1
  }

  /** A list with a placeholder in it has a first one. */
  lemma {:induction false} LoadingCountFound(ms: seq<Message>)
    requires LoadingCount(ms) > 0
    ensures FirstLoading(ms) >= 0
    decreases |ms|
  {
    var n := |ms| - 1;
    if !ms[n].isLoading {
      LoadingCountFound(ms[..n]);
      var j := FirstLoading(ms[..n]);
      assert ms[j] == ms[..n][j];
    }
  }

  /** The message that takes a placeholder's place: the reply for the prompt, not loading. */
  function Reply(prompt: string, id: string, now: Types.Instant): (r: Message)
    ensures r.sender == Bot && !r.isLoading && r.content == ResponseText(Classify(prompt))
  {
    Message(id, ResponseText(Classify(prompt)), Bot, now, false)
  }

  class AssistantPage {
    var messages: seq<Message>
    var input: string
    var isLoading: bool
    /** The prompts whose delayed replies are still to come, oldest first; each reply is chosen
        from the input as it was when its message was sent. */
    var pending: seq<string>

    /** Every scheduled reply has its placeholder in the list. */
    predicate Valid()
      reads this
    {
      LoadingCount(messages) == |pending|
    }

    /** The page opens with the greeting alone. */
    constructor (now: Types.Instant)
      ensures messages == [Message("1", Greeting, Bot, now, false)]
      ensures input == "" && !isLoading && pending == []
      ensures Valid()
    {
      messages := [Message("1", Greeting, Bot, now, false)];
      input := "";
      isLoading := false;
      pending := [];
      assert LoadingCount([Message("1", Greeting, Bot, now, false)]) == 0 by {
        LoadingCountAppend([], Message("1", Greeting, Bot, now, false));
      }
    }

    /** Typing, or a quick-action button when given its prompt. */
    method SetInput(text: string)
      modifies this
      ensures input == text
      ensures messages == old(messages) && isLoading == old(isLoading) && pending == old(pending)
    {
      input := text;
    }

    method QuickAct(q: QuickAction)
      modifies this
      ensures input == QuickPrompt(q)
      ensures messages == old(messages) && isLoading == old(isLoading) && pending == old(pending)
    {
      input := QuickPrompt(q);
    }

    /** The send button is enabled when no reply is pending and the input is not blank. */
    function SendEnabled(): (r: bool)
      reads this
      ensures r <==> !isLoading && !IsBlank(input)
    {
      !isLoading && Trim(input) != ""
    }

    /** `handleSendMessage` up to the timer: blank input changes nothing; otherwise the user's
        message and a placeholder are appended, the input is cleared, the page is loading and the
        reply to this input is scheduled. Nothing here looks at `isLoading`: the Enter key sends
        while a reply is pending. */
    method Send(userId: string, loadingId: string, now: Types.Instant)
      modifies this
      ensures IsBlank(old(input)) ==>
        messages == old(messages) && input == old(input) && isLoading == old(isLoading) && pending == old(pending)
      ensures !IsBlank(old(input)) ==>
        && messages == old(messages) + [Message(userId, old(input), User, now, false),
                                        Message(loadingId, "", Bot, now, true)]
        && input == "" && isLoading && pending == old(pending) + [old(input)]
      ensures old(Valid()) ==> Valid()
    {
      if Trim(input) == "" {
        return;
      }
      var userMessage := Message(userId, input, User, now, false);
      var loadingMessage := Message(loadingId, "", Bot, now, true);
      LoadingCountAppend(messages, userMessage);
      LoadingCountAppend(messages + [userMessage], loadingMessage);
      assert messages + [userMessage] + [loadingMessage] == messages + [userMessage, loadingMessage];
      pending := pending + [input];
      messages := messages + [userMessage, loadingMessage];
      input := "";
      isLoading := true;
    }

    /** The scan of `findIndex`. */
    method FindLoading() returns (r: int)
      ensures r == FirstLoading(messages)
    {
      var i := 0;
      while i < |messages|
        invariant 0 <= i <= |messages|
        invariant forall j :: 0 <= j < i ==> !messages[j].isLoading
      {
        if messages[i].isLoading {
          return i;
        }
        i := i + 1;
      }
      return -1;
    }

    /** The timer of the oldest send: loading ends, and the first placeholder, if any, is
        overwritten by the reply to that send's input; nothing else in the list changes. */
    method Respond(replyId: string, now: Types.Instant)
      requires |pending| > 0
      modifies this
      ensures !isLoading && input == old(input) && pending == old(pending)[1..]
      ensures |messages| == |old(messages)|
      ensures FirstLoading(old(messages)) == -1 ==> messages == old(messages)
      ensures FirstLoading(old(messages)) >= 0 ==>
        messages == old(messages)[FirstLoading(old(messages)) := Reply(old(pending)[0], replyId, now)]
      ensures old(Valid()) ==> FirstLoading(old(messages)) >= 0 && Valid()
    {
      isLoading := false;
      var prompt := pending[0];
      pending := pending[1..];
      var index := FindLoading();
      if index != -1 {
        var reply := Reply(prompt, replyId, now);
        LoadingCountUpdate(messages, index, reply);
        messages := messages[index := reply];
      }
      if old(Valid()) {
        LoadingCountFound(old(messages));
      }
    }
  }
}
