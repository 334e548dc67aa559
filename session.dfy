/** The screening session that app.py keeps in `st.session_state`: the chat
    transcript, the `form_submitted` flag, the generated `tech_questions` and the
    `candidate_info` dictionary, and how one execution of the script changes them.

    Each execution of the script (one Streamlit "rerun") is one call of `Run`. What
    the visitor did to cause it is a `Rerun` value: whether the form's submit
    button was pressed and with which field values, and what was typed into the
    chat box. The text-generation service is not modelled: `Rerun.reply` is what
    it answers to the single call, if any, that the execution makes, and `Run`
    reports the `Request` it sends, so that "no call is made" can be stated. */
module Screening {
  import opened Text
  import opened Questions

  datatype Role = User | Assistant

  datatype Message = Message(role: Role, content: string)

  /** The four choices of the "Years of Experience" select box. */
  datatype Experience = ZeroToOne | TwoToThree | FourToSix | SevenPlus

  /** The select box's option labels, in the order it shows them. */
  const ExperienceOptions: seq<string> := ["0-1", "2-3", "4-6", "7+"]

  /** The label of a choice: one of the options. */
  function ExperienceLabel(e: Experience): (shown: string)
    ensures shown in ExperienceOptions
  {
    match e
    case ZeroToOne => "0-1"
    case TwoToThree => "2-3"
    case FourToSix => "4-6"
    case SevenPlus => "7+"
  }

  /** Different choices show different labels, so the stored label identifies the choice. */
  lemma ExperienceLabelInjective(a: Experience, b: Experience)
    ensures ExperienceLabel(a) == ExperienceLabel(b) ==> a == b
  {
  }

  /** The values of the candidate form's widgets when its submit button is pressed. */
  datatype Form = Form(
    name: string,
    email: string,
    phone: string,
    experience: Experience,
    position: string,
    location: string,
    techStack: string)

  datatype Submission = NotPressed | Pressed(form: Form)

  /** A call to the text-generation service: the prompt and `max_new_tokens`. */
  datatype Request = Request(prompt: string, maxNewTokens: nat)

  /** What triggered one execution of the script, and what the service answers to
      the call that execution makes (ignored when it makes none). */
  datatype Rerun = Rerun(submission: Submission, chatInput: string, reply: Reply)

  const Greeting := "Hello! Let's begin your interview screening."
  const Farewell := "Thank you for your time! We will review your responses."
  const Unprocessable := "I'm unable to process your response."
  const ExitWords: seq<string> := ["exit", "quit", "bye"]

  /** The message that acknowledges a submitted form, naming the candidate. */
  function Acknowledgement(name: string): (text: string)
    ensures |text| == |name| + 43
    ensures text[11..11 + |name|] == name
  {
    "Thank you, " + name + "! Now, let's assess your skills."
  }

  /** The transcript entry that lists the generated questions. */
  const ListingHeader := "Here are your technical questions:\n\n"

  function QuestionsMessage(qs: seq<string>): string {
    ListingHeader + QuestionsText(qs)
  }

  function QuestionRequest(techStack: string): Request {
    Request("Generate 5 concise technical interview questions for " + techStack + ".", 200)
  }

  function AnalysisRequest(input: string): Request {
    Request("Analyze the candidate's response: " + input, 150)
  }

  /** `user_input.lower() in ["exit", "quit", "bye"]`: whole-word equality after
      lowering, with no trimming and no substring search. */
  predicate IsExitCommand(input: string)
    ensures IsExitCommand(input) ==> |input| == 3 || |input| == 4
  {
    Lower(input) in ExitWords
  }

  /** The assistant's answer to a chat message that is not an exit command: the
      service's text when it is non-empty, a fixed apology when it is empty, and
      the exception's message when the call raised. It is never empty. */
  function AnalysisReply(reply: Reply): (answer: string)
    ensures answer != []
    ensures reply.Responded? && reply.text != [] ==> answer == reply.text
    ensures reply == Responded([]) ==> answer == Unprocessable
    ensures reply.Failed? ==> answer == "Error: " + reply.message
  {
    match reply
    case Responded(text) => if text != [] then text else Unprocessable
    case Failed(e) => "Error: " + e
  }

  /** `not name or not email or not tech_stack`: emptiness only, no trimming. */
  predicate MissingRequired(f: Form) {
    f.name == [] || f.email == [] || f.techStack == []
  }

  const InfoKeys: set<string> := {"name", "email", "phone", "experience", "position", "location", "tech_stack"}

  /** The `candidate_info` dictionary committed for a form. */
  function CandidateInfo(f: Form): (info: map<string, string>)
    ensures info.Keys == InfoKeys
    ensures info["name"] == f.name && info["email"] == f.email && info["phone"] == f.phone
    ensures info["experience"] == ExperienceLabel(f.experience)
    ensures info["position"] == f.position && info["location"] == f.location
    ensures info["tech_stack"] == f.techStack
  {
    map[
      "name" := f.name, "email" := f.email, "phone" := f.phone,
      "experience" := ExperienceLabel(f.experience), "position" := f.position,
      "location" := f.location, "tech_stack" := f.techStack]
  }

  /** The contents of `st.session_state` that the script reads and writes. */
  datatype State = State(
    messages: seq<Message>,
    formSubmitted: bool,
    techQuestions: seq<string>,
    candidateInfo: map<string, string>)

  /** What every reachable session satisfies: the transcript opens with the
      greeting; before submission there is no profile and no question; after it,
      the profile holds the seven fields with the three required ones non-empty. */
  ghost predicate WellFormed(s: State) {
    && |s.messages| >= 1
    && s.messages[0] == Message(Assistant, Greeting)
    && (!s.formSubmitted ==> s.candidateInfo == map[] && s.techQuestions == [])
    && (s.formSubmitted ==>
          && s.candidateInfo.Keys == InfoKeys
          && s.candidateInfo["name"] != []
          && s.candidateInfo["email"] != []
          && s.candidateInfo["tech_stack"] != [])
  }

  /** The session the first execution creates. */
  function InitialState(): (s: State)
    ensures WellFormed(s)
    ensures s.messages == [Message(Assistant, Greeting)]
    ensures !s.formSubmitted && s.techQuestions == [] && s.candidateInfo == map[]
  {
    State([Message(Assistant, Greeting)], false, [], map[])
  }

  /** Whether the form segment commits: the form is only shown while not yet
      submitted, its button was pressed, and no required field is empty. */
  predicate Commits(s: State, sub: Submission) {
    !s.formSubmitted && sub.Pressed? && !MissingRequired(sub.form)
  }

  /** The form segment: commits the profile and acknowledges the candidate, or
      changes nothing. */
  function FormSegment(s: State, sub: Submission): (r: State)
    ensures r == s || Commits(s, sub)
    ensures Commits(s, sub) ==>
              && r.formSubmitted && r.techQuestions == s.techQuestions
              && |r.messages| == |s.messages| + 1 && s.messages <= r.messages
  {
    if Commits(s, sub) then
      s.(formSubmitted := true,
         candidateInfo := CandidateInfo(sub.form),
         messages := s.messages + [Message(Assistant, Acknowledgement(sub.form.name))])
    else s
  }

  /** The guard of the generation segment. */
  predicate GenerationPending(s: State) {
    s.formSubmitted && s.techQuestions == []
  }

  /** The generation segment once its guard holds: stores the questions and posts
      their numbered listing. */
  function GenerationStep(s: State, reply: Reply): (r: State)
    ensures r.formSubmitted == s.formSubmitted && r.candidateInfo == s.candidateInfo
    ensures |r.messages| == |s.messages| + 1 && s.messages <= r.messages
    ensures r.messages[|s.messages|].role == Assistant
  {
    var qs := GenerateQuestions(reply);
    s.(techQuestions := qs, messages := s.messages + [Message(Assistant, QuestionsMessage(qs))])
  }

  /** The assistant's answer to a chat message. */
  function ChatAnswer(input: string, reply: Reply): (answer: string)
    ensures answer != []
    ensures IsExitCommand(input) ==> answer == Farewell
  {
    if IsExitCommand(input) then Farewell else AnalysisReply(reply)
  }

  /** The chat segment for a non-empty message: the message, then the answer. */
  function ChatStep(s: State, input: string, reply: Reply): (r: State)
    ensures r.(messages := s.messages) == s
    ensures |r.messages| == |s.messages| + 2 && s.messages <= r.messages
    ensures r.messages[|s.messages|] == Message(User, input)
    ensures r.messages[|s.messages| + 1].role == Assistant
  {
    s.(messages := s.messages + [Message(User, input), Message(Assistant, ChatAnswer(input, reply))])
  }

  /** The requests the chat segment sends for a non-empty message. */
  function ChatRequests(input: string): (requests: seq<Request>)
    ensures |requests| <= 1
    ensures requests == [] <==> IsExitCommand(input)
  {
    if IsExitCommand(input) then [] else [AnalysisRequest(input)]
  }

  datatype RunResult = RunResult(state: State, requests: seq<Request>, rerun: bool)

  /** One execution of the script. A committed submission, a generation and a chat
      turn each end it with `st.rerun()`; otherwise it runs to the end and waits.
      The transcript only grows, at most one request is sent, and an execution
      that does not ask for a rerun changes nothing. */
  function Run(s: State, ev: Rerun): (r: RunResult)
    requires WellFormed(s)
    ensures WellFormed(r.state)
    ensures s.messages <= r.state.messages
    ensures |r.requests| <= 1
    ensures !r.rerun ==> r.state == s && r.requests == []
  {
    if Commits(s, ev.submission) then
      RunResult(FormSegment(s, ev.submission), [], true)
    else if GenerationPending(s) then
      RunResult(GenerationStep(s, ev.reply), [QuestionRequest(s.candidateInfo["tech_stack"])], true)
    else if ev.chatInput != [] then
      RunResult(ChatStep(s, ev.chatInput, ev.reply), ChatRequests(ev.chatInput), true)
    else
      RunResult(s, [], false)
  }

  /** The session after a sequence of executions. */
  function RunAll(s: State, evs: seq<Rerun>): (r: State)
    requires WellFormed(s)
    ensures WellFormed(r)
    decreases |evs|
  {
    if evs == [] then s else RunAll(Run(s, evs[0]).state, evs[1..])
  }

  /** Every request sent during a sequence of executions, in order. */
  function RequestsOf(s: State, evs: seq<Rerun>): seq<Request>
    requires WellFormed(s)
    decreases |evs|
  {
    if evs == [] then [] else Run(s, evs[0]).requests + RequestsOf(Run(s, evs[0]).state, evs[1..])
  }

  /** A submission with an empty name, e-mail or tech stack changes nothing. */
  lemma IncompleteFormChangesNothing(s: State, f: Form)
    requires MissingRequired(f)
    ensures FormSegment(s, Pressed(f)) == s
  {
  }

  /** Required fields are checked for emptiness only: blanks pass. */
  lemma BlankFieldsPass()
    ensures !MissingRequired(Form(" ", " ", "", ZeroToOne, "", "", " "))
    ensures MissingRequired(Form("Ada", "", "", ZeroToOne, "", "", "SQL"))
  {
  }

  /** A committed submission sets the flag, stores all seven fields verbatim and
      appends exactly one acknowledgement; questions are untouched, whatever was
      typed into the chat box, and the execution sends nothing and forces a rerun. */
  lemma CommitStoresProfile(s: State, f: Form, ev: Rerun)
    requires WellFormed(s) && !s.formSubmitted && !MissingRequired(f)
    requires ev.submission == Pressed(f)
    ensures Run(s, ev).requests == [] && Run(s, ev).rerun
    ensures var t := Run(s, ev).state;
            && t.formSubmitted
            && t.candidateInfo.Keys == InfoKeys
            && t.candidateInfo["name"] == f.name && t.candidateInfo["email"] == f.email
            && t.candidateInfo["phone"] == f.phone
            && t.candidateInfo["experience"] == ExperienceLabel(f.experience)
            && t.candidateInfo["position"] == f.position && t.candidateInfo["location"] == f.location
            && t.candidateInfo["tech_stack"] == f.techStack
            && t.messages == s.messages + [Message(Assistant, Acknowledgement(f.name))]
            && t.techQuestions == s.techQuestions
  {
  }

  /** When generation is pending (so no submission can commit), it fires: it sends
      the question prompt built from the stored tech stack, stores the generated
      questions and appends exactly one listing message. */
  lemma GenerationFiresWhenPending(s: State, ev: Rerun)
    requires WellFormed(s) && GenerationPending(s)
    ensures var r := Run(s, ev);
            && r.requests == [QuestionRequest(s.candidateInfo["tech_stack"])]
            && r.state.techQuestions == GenerateQuestions(ev.reply)
            && r.state.messages == s.messages + [Message(Assistant, QuestionsMessage(GenerateQuestions(ev.reply)))]
            && r.state.candidateInfo == s.candidateInfo && r.state.formSubmitted
  {
  }

  /** Generation fires only when it is pending: otherwise the execution sends no
      question prompt, only the analysis of a chat message that is not an exit
      command, and that only when no submission commits. */
  lemma GenerationOnlyWhenPending(s: State, ev: Rerun)
    requires WellFormed(s) && !GenerationPending(s)
    ensures Run(s, ev).requests ==
              if !Commits(s, ev.submission) && ev.chatInput != [] then ChatRequests(ev.chatInput) else []
    ensures forall k :: 0 <= k < |Run(s, ev).requests| ==> Run(s, ev).requests[k] == AnalysisRequest(ev.chatInput)
  {
  }

  /** If the service's text was all whitespace, the list stays empty and the very
      next execution generates again, appending another listing. */
  lemma EmptyQuestionsRefire(s: State, text: string, next: Rerun)
    requires WellFormed(s) && GenerationPending(s)
    requires text != [] && forall k :: 0 <= k < |text| ==> IsSpace(text[k])
    ensures var t := Run(s, Rerun(NotPressed, [], Responded(text))).state;
            && GenerationPending(t)
            && t.messages == s.messages + [Message(Assistant, QuestionsMessage([]))]
            && Run(t, next).requests == [QuestionRequest(s.candidateInfo["tech_stack"])]
  {
    NoQuestionsIff(Responded(text));
  }

  /** Once questions exist, generation never fires again: the only request an
      execution can send is the analysis of a chat message that is not an exit
      command, and the questions stay as they are. */
  lemma QuestionsStopGeneration(s: State, ev: Rerun)
    requires WellFormed(s) && s.techQuestions != []
    ensures Run(s, ev).requests == if ev.chatInput != [] then ChatRequests(ev.chatInput) else []
    ensures Run(s, ev).state.techQuestions == s.techQuestions
  {
  }

  /** The listing message is the fixed header followed by one numbered line per
      question, in order, when the questions came from the service's text. */
  lemma ListingShowsNumberedQuestions(text: string)
    requires GenerateQuestions(Responded(text)) != []
    ensures var qs := GenerateQuestions(Responded(text));
            var body := QuestionsText(qs);
            && QuestionsMessage(qs) == ListingHeader + body
            && Split(body, '\n') == Numbered(qs)
  {
    var qs := GenerateQuestions(Responded(text));
    RepliedQuestionsAreSingleLines(text);
    QuestionsTextLines(qs);
  }

  /** A chat turn in a settled session appends exactly the visitor's message and
      one answer, keeps every earlier message, and calls the service only for a
      message that is not an exit command. */
  lemma ChatTurnAppendsTwo(s: State, input: string, reply: Reply)
    requires WellFormed(s) && !GenerationPending(s) && input != []
    ensures var r := Run(s, Rerun(NotPressed, input, reply));
            && |r.state.messages| == |s.messages| + 2
            && r.state.messages[..|s.messages|] == s.messages
            && r.state.messages[|s.messages|] == Message(User, input)
            && r.state.messages[|s.messages| + 1].role == Assistant
            && (IsExitCommand(input) ==> r.state.messages[|s.messages| + 1].content == Farewell && r.requests == [])
            && (!IsExitCommand(input) ==>
                  r.state.messages[|s.messages| + 1].content == AnalysisReply(reply)
                  && r.requests == [AnalysisRequest(input)])
            && r.state.(messages := s.messages) == s
  {
  }

  /** The exit test ignores letter case, so lowering the input first changes nothing. */
  lemma ExitIgnoresCase(input: string)
    ensures IsExitCommand(input) <==> IsExitCommand(Lower(input))
  {
    LowerIdempotent(input);
  }

  /** Only the exact words count: surrounding blanks, longer words and other
      farewells are answered by the service. */
  lemma ExitIsWholeWord()
    ensures IsExitCommand("EXIT") && IsExitCommand("Quit") && IsExitCommand("bYe")
    ensures !IsExitCommand(" bye") && !IsExitCommand("goodbye") && !IsExitCommand("stop")
  {
    assert Lower("EXIT") == "exit";
    assert Lower("Quit") == "quit";
    assert Lower("bYe") == "bye";
    assert Lower(" bye")[0] == ' ';
    assert Lower("stop")[0] == 's';
  }

  /** An execution with nothing pressed or typed on a session whose questions are
      settled appends nothing, sends nothing and asks for no rerun. */
  lemma QuietRunChangesNothing(s: State, reply: Reply)
    requires WellFormed(s) && !GenerationPending(s)
    ensures Run(s, Rerun(NotPressed, [], reply)) == RunResult(s, [], false)
  {
  }

  /** However many executions follow, earlier transcript entries are never
      changed or removed. */
  lemma {:induction false} TranscriptOnlyGrows(s: State, evs: seq<Rerun>)
    requires WellFormed(s)
    ensures s.messages <= RunAll(s, evs).messages
    decreases |evs|
  {
    if evs != [] {
      TranscriptOnlyGrows(Run(s, evs[0]).state, evs[1..]);
    }
  }

  /** Once submitted, the flag stays set and the profile never changes again. */
  lemma {:induction false} ProfileWrittenOnce(s: State, evs: seq<Rerun>)
    requires WellFormed(s) && s.formSubmitted
    ensures RunAll(s, evs).formSubmitted && RunAll(s, evs).candidateInfo == s.candidateInfo
    decreases |evs|
  {
    if evs != [] {
      ProfileWrittenOnce(Run(s, evs[0]).state, evs[1..]);
    }
  }

  /** Once a non-empty question list is stored it is kept for good, and no further
      question prompt is ever sent: every later request is an analysis request. */
  lemma {:induction false} QuestionsSetOnce(s: State, evs: seq<Rerun>)
    requires WellFormed(s) && s.techQuestions != []
    ensures RunAll(s, evs).techQuestions == s.techQuestions
    ensures forall k :: 0 <= k < |RequestsOf(s, evs)| ==> exists m :: RequestsOf(s, evs)[k] == AnalysisRequest(m)
    decreases |evs|
  {
    if evs != [] {
      var r := Run(s, evs[0]);
      QuestionsStopGeneration(s, evs[0]);
      QuestionsSetOnce(r.state, evs[1..]);
      var later := RequestsOf(r.state, evs[1..]);
      assert RequestsOf(s, evs) == r.requests + later;
      forall k | 0 <= k < |RequestsOf(s, evs)|
        ensures exists m :: RequestsOf(s, evs)[k] == AnalysisRequest(m)
      {
        if k < |r.requests| {
          assert RequestsOf(s, evs)[k] == AnalysisRequest(evs[0].chatInput);
        } else {
          var j := k - |r.requests|;
          assert RequestsOf(s, evs)[k] == later[j];
        }
      }
    } else {
      assert RequestsOf(s, evs) == [];
    }
  }

  /** Submitting the form for Ada and receiving five lines yields those five
      questions after the automatic rerun, with one call to the service. */
  lemma AdaScenario()
    ensures var ada := Form("Ada", "a@b.com", "", ZeroToOne, "", "", "Python, SQL");
            var first := Run(InitialState(), Rerun(Pressed(ada), [], Failed("unused")));
            var second := Run(first.state, Rerun(NotPressed, [], Responded("Q1\nQ2\nQ3\nQ4\nQ5")));
            && first.rerun && first.requests == []
            && second.rerun && second.requests == [QuestionRequest("Python, SQL")]
            && second.state.techQuestions == ["Q1", "Q2", "Q3", "Q4", "Q5"]
            && |second.state.messages| == 3
  {
    var ada := Form("Ada", "a@b.com", "", ZeroToOne, "", "", "Python, SQL");
    var s0 := InitialState();
    CommitStoresProfile(s0, ada, Rerun(Pressed(ada), [], Failed("unused")));
    var first := Run(s0, Rerun(Pressed(ada), [], Failed("unused")));
    assert first.state.techQuestions == [] && first.state.candidateInfo["tech_stack"] == "Python, SQL";
    GenerationFiresWhenPending(first.state, Rerun(NotPressed, [], Responded("Q1\nQ2\nQ3\nQ4\nQ5")));
    FiveQuestions();
  }

  /** The imperative session object: the four entries of `st.session_state`, each a
      field that the script's segments assign or append to. */
  class Session {
    var messages: seq<Message>
    var formSubmitted: bool
    var techQuestions: seq<string>
    var candidateInfo: map<string, string>

    function Snapshot(): State
      reads this
    {
      State(messages, formSubmitted, techQuestions, candidateInfo)
    }

    ghost predicate Valid()
      reads this
    {
      WellFormed(Snapshot())
    }

    /** The first execution's initialisation: the greeting, the flag cleared, no
        questions and an empty profile. */
    constructor ()
      ensures Valid() && Snapshot() == InitialState()
      ensures messages == [Message(Assistant, Greeting)]
      ensures !formSubmitted && techQuestions == [] && candidateInfo == map[]
    {
      messages := [Message(Assistant, Greeting)];
      formSubmitted := false;
      techQuestions := [];
      candidateInfo := map[];
    }

    /** The form segment. */
    method SubmitForm(sub: Submission) returns (committed: bool)
      requires Valid()
      modifies this
      ensures Valid() && Snapshot() == FormSegment(old(Snapshot()), sub)
      ensures committed <==> !old(formSubmitted) && sub.Pressed? && !MissingRequired(sub.form)
      ensures committed ==>
                && formSubmitted
                && candidateInfo == CandidateInfo(sub.form)
                && messages == old(messages) + [Message(Assistant, Acknowledgement(sub.form.name))]
      ensures !committed ==>
                formSubmitted == old(formSubmitted) && candidateInfo == old(candidateInfo) && messages == old(messages)
      ensures techQuestions == old(techQuestions)
    {
      committed := false;
      if !formSubmitted && sub.Pressed? {
        var f := sub.form;
        if !(f.name == [] || f.email == [] || f.techStack == []) {
          formSubmitted := true;
          candidateInfo := CandidateInfo(f);
          messages := messages + [Message(Assistant, Acknowledgement(f.name))];
          committed := true;
        }
      }
    }

    /** The generation segment; `fired` tells whether its guard held. */
    method GenerateIfDue(reply: Reply) returns (requests: seq<Request>, fired: bool)
      requires Valid()
      modifies this
      ensures Valid()
      ensures fired <==> old(formSubmitted) && old(techQuestions) == []
      ensures fired ==>
                && requests == [QuestionRequest(old(candidateInfo)["tech_stack"])]
                && techQuestions == GenerateQuestions(reply)
                && messages == old(messages) + [Message(Assistant, QuestionsMessage(techQuestions))]
      ensures !fired ==> requests == [] && techQuestions == old(techQuestions) && messages == old(messages)
      ensures formSubmitted == old(formSubmitted) && candidateInfo == old(candidateInfo)
      ensures fired ==> Snapshot() == GenerationStep(old(Snapshot()), reply)
    {
      requests, fired := [], false;
      if formSubmitted && techQuestions == [] {
        var techStack := candidateInfo["tech_stack"];
        requests := [QuestionRequest(techStack)];
        techQuestions := GenerateQuestions(reply);
        messages := messages + [Message(Assistant, QuestionsMessage(techQuestions))];
        fired := true;
      }
    }

    /** The chat segment; `handled` tells whether a message was typed. */
    method ChatTurn(input: string, reply: Reply) returns (requests: seq<Request>, handled: bool)
      requires Valid()
      modifies this
      ensures Valid()
      ensures handled <==> input != []
      ensures handled ==> messages == old(messages) + [Message(User, input), Message(Assistant, ChatAnswer(input, reply))]
      ensures handled ==> requests == ChatRequests(input)
      ensures !handled ==> messages == old(messages) && requests == []
      ensures formSubmitted == old(formSubmitted) && techQuestions == old(techQuestions)
      ensures candidateInfo == old(candidateInfo)
    {
      requests, handled := [], false;
      if input != [] {
        messages := messages + [Message(User, input)];
        var answer;
        if Lower(input) in ExitWords {
          answer := Farewell;
        } else {
          requests := [AnalysisRequest(input)];
          match reply {
            case Responded(text) =>
              answer := if text != [] then text else Unprocessable;
            case Failed(e) =>
              answer := "Error: " + e;
          }
        }
        messages := messages + [Message(Assistant, answer)];
        handled := true;
      }
    }

    /** One execution of the script against this session. */
    method Execute(ev: Rerun) returns (requests: seq<Request>, rerun: bool)
      requires Valid()
      modifies this
      ensures Valid()
      ensures RunResult(Snapshot(), requests, rerun) == Run(old(Snapshot()), ev)
    {
      var committed := SubmitForm(ev.submission);
      if committed {
        requests, rerun := [], true;
        return;
      }
      var fired;
      requests, fired := GenerateIfDue(ev.reply);
      if fired {
        rerun := true;
        return;
      }
      requests, rerun := ChatTurn(ev.chatInput, ev.reply);
    }
  }
}
