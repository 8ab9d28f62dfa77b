/**
 * process_with_function_calling and process_with_gemini: one caller
 * utterance in, one spoken reply out, with the conversation state the agent
 * keeps between utterances. `Step` and `Converse` specify the two functions
 * on values; the `Agent` class holds the state as fields and updates it in
 * place the way the agent's globals are.
 */
module Conversation {
  import opened Wrappers
  import opened Text
  import opened EmailExtraction
  import opened Intent
  import opened Zendesk
  import opened Render
  import opened Prompt

  /** The conversation state kept between utterances. */
  datatype Session = Session(
    customerEmail: Option<string>,
    customerData: Option<Customer>,
    pendingRequest: Option<Args>,
    confirmationPending: bool,
    lastIntent: Option<Intent>,
    lastIntentDetails: Option<string>,
    history: seq<Turn>)

  const Initial := Session(None, None, None, false, None, None, [])

  /** An operation request parsed from the model's answer. */
  datatype FunctionCall = FunctionCall(name: string, args: Args)

  /** The language model either fails or answers with a text. */
  datatype LlmOutcome = LlmFailed | LlmAnswered(text: string)

  /**
   * What one utterance is processed against: the fixed instruction block of
   * the prompt, the language model, the search for an operation request in
   * its answer, the ticketing backend as it stands, and the regex searches.
   */
  datatype Env = Env(
    instructions: string,
    llm: string -> LlmOutcome,
    parseCall: string -> Option<FunctionCall>,
    backend: Backend,
    emailPatterns: EmailPatterns,
    details: DetailPatterns)

  /**
   * The effect of process_with_function_calling: the new state, the reply
   * (None when an escalation gives no message), whether it raised, the
   * backend requests made and the prompt sent to the model, if any.
   */
  datatype StepOutcome = StepOutcome(session: Session, reply: Option<string>, raised: bool,
                                     calls: seq<Call>, prompt: Option<string>)

  const Greetings: seq<string> := ["hello", "hi", "hey", "good morning", "good afternoon", "good evening"]
  const GeneralQuestions: seq<string> := ["how are you", "what can you help with", "what can you do", "how does this work"]
  const AccountPhrases: seq<string> :=
    ["my account", "my appointment", "my order", "my ticket", "my payment", "how much did i pay", "when is my",
     "escalate", "billing"]
  const ConfirmWords: seq<string> := ["yes", "correct", "right", "that's right", "that is correct", "confirm", "okay", "ok"]
  const DenyWords: seq<string> := ["no", "wrong", "incorrect", "that's wrong", "that is wrong", "not correct", "different"]

  const AskForEmail := "I'll need your email address to help you with that. Could you please provide your email address?"
  const AskCorrectEmail := "I understand. Could you please provide the correct email address?"
  const AskYesNo := "I didn't catch that. Could you please confirm if that email address is correct? Just say 'yes' or 'no'."
  const GreetNewcomer :=
    "Hello! I'm your customer service assistant. I can help you with account information, appointments, orders, and support requests. How can I assist you today?"
  const OfferHelpKnown :=
    "Since I have your account information, I can help you with your appointments, orders, payments, and support requests. What would you like to know?"
  const OfferHelp :=
    "I can help you with your account information, check appointments and orders, create support tickets, and answer questions about your services. What would you like to know?"
  const Trouble := "I'm sorry, I'm having trouble processing your request right now. Please try again."
  const EscalationClaimed :=
    "I've escalated your request to our billing department. They will review your case and contact you within 24 hours."
  const NotCaught := "I'm sorry, I didn't catch that. Could you please repeat?"

  function GreetCustomer(name: string): string {
    "Hello " + name + "! I'm here to help. What would you like to know about your account or appointments?"
  }

  function NoAccountFor(email: string, purpose: string): string {
    "I don't see any account details using the email " + email
    + ". Could you please check and provide me with the correct email address so I can " + purpose + "?"
  }

  /** A non-empty stored request (`if pending_ticket_request`). */
  predicate HasPending(p: Option<Args>) {
    p.Some? && |p.value| > 0
  }

  /** The caller's words as the keyword tests see them. */
  function Lowered(transcript: string): string {
    Strip(Lower(transcript))
  }

  /** Lines 657-675: take up an email found in the utterance; update the sticky intent. */
  function Prelude(s: Session, transcript: string, p: EmailPatterns): Session {
    var extracted := ExtractEmail(transcript, p);
    var st := UpdateSticky(Sticky(s.lastIntent, s.lastIntentDetails), transcript);
    s.(customerEmail := if Known(extracted) then extracted else s.customerEmail,
       lastIntent := st.intent, lastIntentDetails := st.details)
  }

  /** Return `reply`, recording the utterance and the reply in the history. */
  function Answer(s: Session, transcript: string, reply: Option<string>, calls: seq<Call>, prompt: Option<string>): StepOutcome {
    StepOutcome(s.(history := s.history + [User(transcript), Assistant(reply)]), reply, false, calls, prompt)
  }

  /** Lines 678-719: the answer to "is this email correct?". */
  function ConfirmStep(s: Session, transcript: string, env: Env): StepOutcome
    requires HasPending(s.pendingRequest)
  {
    var lowered := Lowered(transcript);
    if AnyIn(lowered, ConfirmWords) then
      var o := Dispatch(env.backend, ConfirmEmailAndCreateTicket, s.pendingRequest.value);
      var reply := if o.reply.Success() then o.reply.Message().GetOr("Your request has been submitted successfully.")
                   else Apology(o.reply.ErrorText().GetOr("Unknown error"));
      Answer(s.(confirmationPending := false, pendingRequest := None), transcript, Some(reply), o.calls, None)
    else if AnyIn(lowered, DenyWords) then
      Answer(s.(confirmationPending := false, pendingRequest := None, customerEmail := None), transcript,
             Some(AskCorrectEmail), [], None)
    else Answer(s, transcript, Some(AskYesNo), [], None)
  }

  /** Lines 831-858: an account lookup while an email is known, chained into escalation for a refund. */
  function LookupStep(s: Session, transcript: string, args: Args, env: Env, prompt: string): StepOutcome
    requires Known(s.customerEmail)
  {
    var email := s.customerEmail.value;
    var o := Dispatch(env.backend, GetCustomerInfo, args);
    if o.reply.Success() then
      var s' := s.(customerData := Some(o.reply.customer));
      if s.lastIntent == Some(Refund) || s.lastIntent == Some(Escalate) then
        var reason := if s.lastIntentDetails.Some? && s.lastIntentDetails.value != "" then s.lastIntentDetails.value
                      else "Refund request";
        var e := Dispatch(env.backend, EscalateToBilling,
                          map["email" := Str(email), "reason" := Str(reason), "priority" := Str("high")]);
        var reply := if e.reply.Success() then e.reply.message else EscalationClaimed;
        Answer(s', transcript, Some(reply), o.calls + e.calls, Some(prompt))
      else Answer(s', transcript, Some(Welcome(o.reply.customer.name)), o.calls, Some(prompt))
    else Answer(s, transcript, Some(NoAccountFor(email, "help you with your request")), o.calls, Some(prompt))
  }

  /** Lines 862-874: escalate, after checking the account when an email is known. */
  function EscalateStep(s: Session, transcript: string, args: Args, env: Env, prompt: string): StepOutcome {
    if Known(s.customerEmail) then
      var email := s.customerEmail.value;
      var check := Dispatch(env.backend, GetCustomerInfo, map["email" := Str(email)]);
      if check.reply.Success() then
        var e := Dispatch(env.backend, EscalateToBilling, args);
        Answer(s, transcript, e.reply.Message(), check.calls + e.calls, Some(prompt))
      else Answer(s, transcript, Some(NoAccountFor(email, "escalate your request")), check.calls, Some(prompt))
    else
      var e := Dispatch(env.backend, EscalateToBilling, args);
      Answer(s, transcript, e.reply.Message(), e.calls, Some(prompt))
  }

  /**
   * Lines 820-993: act on a requested operation. A create_support_ticket
   * request with an email reaches line 877, which reads `result` before any
   * assignment; the error is caught at line 1010 and answered with the
   * general apology, so that request is never dispatched.
   */
  function CallStep(s: Session, transcript: string, call: FunctionCall, env: Env, prompt: string): StepOutcome {
    var name, args := call.name, call.args;
    if name == CreateSupportTicket && !Truthy(Get(args, "email")) then
      Answer(s, transcript, Some(AskForEmail), [], Some(prompt))
    else if name == GetCustomerInfo && Known(s.customerEmail) then LookupStep(s, transcript, args, env, prompt)
    else if name == EscalateToBilling then EscalateStep(s, transcript, args, env, prompt)
    else if name == CreateSupportTicket then Answer(s, transcript, Some(Trouble), [], Some(prompt))
    else
      var o := Dispatch(env.backend, name, args);
      Answer(s, transcript, Some(Render.Render(name, o.reply, env.details)), o.calls, Some(prompt))
  }

  /** Lines 763-1015: ask the model and act on its answer. */
  function ModelStep(s: Session, transcript: string, prompt: string, env: Env): StepOutcome {
    match env.llm(prompt)
    case LlmFailed => Answer(s, transcript, Some(Trouble), [], Some(prompt))
    case LlmAnswered(raw) =>
      var text := Strip(raw);
      match env.parseCall(text)
      case Some(call) =>
        if call.name != "" && |call.args| > 0 then CallStep(s, transcript, call, env, prompt)
        else Answer(s, transcript, Some(text), [], Some(prompt))
      case None => Answer(s, transcript, Some(text), [], Some(prompt))
  }

  /** process_with_function_calling, branch by branch in the source's order. */
  function Step(s: Session, transcript: string, env: Env): StepOutcome {
    var s1 := Prelude(s, transcript, env.emailPatterns);
    var lowered := Lowered(transcript);
    if s1.confirmationPending && HasPending(s1.pendingRequest) then ConfirmStep(s1, transcript, env)
    else if AnyIn(lowered, Greetings) then
      Answer(s1, transcript, Some(if s1.customerData.Some? then GreetCustomer(s1.customerData.value.name) else GreetNewcomer),
             [], None)
    else if AnyIn(lowered, GeneralQuestions) then
      Answer(s1, transcript, Some(if s1.customerData.Some? then OfferHelpKnown else OfferHelp), [], None)
    else if AnyIn(lowered, AccountPhrases) && s1.customerData.None? && !Known(s1.customerEmail) then
      Answer(s1, transcript, Some(AskForEmail), [], None)
    else
      match BuildPrompt(env.instructions, transcript, s1.history, s1.customerData, s1.customerEmail)
      case None => StepOutcome(s1, None, true, [], None)
      case Some(prompt) => ModelStep(s1, transcript, prompt, env)
  }

  /** `conversation_history[-12:]` once it is longer than twelve. */
  function LastTwelve(h: seq<Turn>): seq<Turn> {
    if |h| > 12 then h[|h| - 12..] else h
  }

  datatype TurnResult = TurnResult(session: Session, reply: Option<string>, calls: seq<Call>)

  /**
   * process_with_gemini: record the utterance, run the step, record the
   * reply once more and keep the last twelve entries. A step that raises is
   * answered with a request to repeat, and only the first record is kept.
   */
  function Converse(s: Session, transcript: string, env: Env): TurnResult {
    var o := Step(s.(history := s.history + [User(transcript)]), transcript, env);
    if o.raised then TurnResult(o.session, Some(NotCaught), o.calls)
    else TurnResult(o.session.(history := LastTwelve(o.session.history + [Assistant(o.reply)])), o.reply, o.calls)
  }

  /** The agent's conversation globals, updated in place per utterance. */
  class Agent {
    var customerEmail: Option<string>
    var customerData: Option<Customer>
    var pendingTicketRequest: Option<Args>
    var emailConfirmationPending: bool
    var lastIntent: Option<Intent>
    var lastIntentDetails: Option<string>
    var conversationHistory: seq<Turn>

    function State(): Session
      reads this
    {
      Session(customerEmail, customerData, pendingTicketRequest, emailConfirmationPending,
              lastIntent, lastIntentDetails, conversationHistory)
    }

    constructor()
      ensures State() == Initial
    {
      customerEmail, customerData, pendingTicketRequest := None, None, None;
      emailConfirmationPending := false;
      lastIntent, lastIntentDetails := None, None;
      conversationHistory := [];
    }

    method Record(transcript: string, reply: Option<string>)
      modifies this
      ensures State() == old(State()).(history := old(conversationHistory) + [User(transcript), Assistant(reply)])
    {
      conversationHistory := conversationHistory + [User(transcript), Assistant(reply)];
    }

    /** Lines 657-675. */
    method TakeUpUtterance(transcript: string, p: EmailPatterns)
      modifies this
      ensures State() == Prelude(old(State()), transcript, p)
    {
      var extracted := ExtractEmail(transcript, p);
      if Known(extracted) {
        customerEmail := extracted;
      }
      var lowered := Lowered(transcript);
      if AnyIn(lowered, RefundWords) {
        lastIntent, lastIntentDetails := Some(Refund), Some(transcript);
      } else if AnyIn(lowered, EscalateWords) {
        lastIntent, lastIntentDetails := Some(Escalate), Some(transcript);
      } else if AnyIn(lowered, SupportWords) {
        lastIntent, lastIntentDetails := Some(Support), Some(transcript);
      }
    }

    /** Lines 678-719. */
    method AnswerConfirmation(transcript: string, env: Env) returns (reply: Option<string>, calls: seq<Call>)
      requires HasPending(pendingTicketRequest)
      modifies this
      ensures StepOutcome(State(), reply, false, calls, None) == ConfirmStep(old(State()), transcript, env)
    {
      var lowered := Lowered(transcript);
      calls := [];
      if AnyIn(lowered, ConfirmWords) {
        emailConfirmationPending := false;
        var result := Dispatch(env.backend, ConfirmEmailAndCreateTicket, pendingTicketRequest.value);
        pendingTicketRequest := None;
        calls := result.calls;
        if result.reply.Success() {
          reply := Some(result.reply.Message().GetOr("Your request has been submitted successfully."));
        } else {
          reply := Some(Apology(result.reply.ErrorText().GetOr("Unknown error")));
        }
      } else if AnyIn(lowered, DenyWords) {
        emailConfirmationPending := false;
        pendingTicketRequest := None;
        customerEmail := None;
        reply := Some(AskCorrectEmail);
      } else {
        reply := Some(AskYesNo);
      }
      Record(transcript, reply);
    }

    /** process_with_function_calling; `raised` stands for the exception it lets escape. */
    method ProcessWithFunctionCalling(transcript: string, env: Env)
      returns (reply: Option<string>, raised: bool, calls: seq<Call>, prompt: Option<string>)
      modifies this
      ensures StepOutcome(State(), reply, raised, calls, prompt) == Step(old(State()), transcript, env)
    {
      TakeUpUtterance(transcript, env.emailPatterns);
      var lowered := Lowered(transcript);
      raised, calls, prompt := false, [], None;

      if emailConfirmationPending && HasPending(pendingTicketRequest) {
        reply, calls := AnswerConfirmation(transcript, env);
        return;
      }
      if AnyIn(lowered, Greetings) {
        reply := Some(if customerData.Some? then GreetCustomer(customerData.value.name) else GreetNewcomer);
        Record(transcript, reply);
        return;
      }
      if AnyIn(lowered, GeneralQuestions) {
        reply := Some(if customerData.Some? then OfferHelpKnown else OfferHelp);
        Record(transcript, reply);
        return;
      }
      if AnyIn(lowered, AccountPhrases) && customerData.None? && !Known(customerEmail) {
        reply := Some(AskForEmail);
        Record(transcript, reply);
        return;
      }

      var built := BuildPrompt(env.instructions, transcript, conversationHistory, customerData, customerEmail);
      if built.None? {
        reply, raised := None, true;
        return;
      }
      prompt := built;
      reply, calls := RespondToModel(transcript, built.value, env);
    }

    /** Lines 763-1015, once the prompt is built. */
    method RespondToModel(transcript: string, prompt: string, env: Env) returns (reply: Option<string>, calls: seq<Call>)
      modifies this
      ensures StepOutcome(State(), reply, false, calls, Some(prompt)) == ModelStep(old(State()), transcript, prompt, env)
    {
      var answer := env.llm(prompt);
      if answer.LlmFailed? {
        reply, calls := Some(Trouble), [];
        Record(transcript, reply);
        return;
      }
      var text := Strip(answer.text);
      var call := env.parseCall(text);
      if call.None? || call.value.name == "" || |call.value.args| == 0 {
        reply, calls := Some(text), [];
        Record(transcript, reply);
        return;
      }
      reply, calls := ActOnCall(transcript, call.value, env, prompt);
    }

    /** Lines 820-993. */
    method ActOnCall(transcript: string, call: FunctionCall, env: Env, prompt: string)
      returns (reply: Option<string>, calls: seq<Call>)
      modifies this
      ensures StepOutcome(State(), reply, false, calls, Some(prompt)) == CallStep(old(State()), transcript, call, env, prompt)
    {
      var name, arguments := call.name, call.args;
      if name == CreateSupportTicket && !Truthy(Get(arguments, "email")) {
        reply, calls := Some(AskForEmail), [];
        Record(transcript, reply);
      } else if name == GetCustomerInfo && Known(customerEmail) {
        reply, calls := LookUpAccount(transcript, arguments, env, prompt);
      } else if name == EscalateToBilling {
        reply, calls := RequestEscalation(transcript, arguments, env, prompt);
      } else if name == CreateSupportTicket {
        reply, calls := Some(Trouble), [];
        Record(transcript, reply);
      } else {
        var result := Dispatch(env.backend, name, arguments);
        calls := result.calls;
        reply := Some(Render.Render(name, result.reply, env.details));
        Record(transcript, reply);
      }
    }

    /** Lines 831-858. */
    method LookUpAccount(transcript: string, arguments: Args, env: Env, prompt: string)
      returns (reply: Option<string>, calls: seq<Call>)
      requires Known(customerEmail)
      modifies this
      ensures StepOutcome(State(), reply, false, calls, Some(prompt)) == LookupStep(old(State()), transcript, arguments, env, prompt)
    {
      var result := Dispatch(env.backend, GetCustomerInfo, arguments);
      calls := result.calls;
      if result.reply.Success() {
        customerData := Some(result.reply.customer);
        if lastIntent == Some(Refund) || lastIntent == Some(Escalate) {
          var reason := if lastIntentDetails.Some? && lastIntentDetails.value != "" then lastIntentDetails.value
                        else "Refund request";
          var escalation := Dispatch(env.backend, EscalateToBilling,
                                     map["email" := Str(customerEmail.value), "reason" := Str(reason),
                                         "priority" := Str("high")]);
          calls := calls + escalation.calls;
          reply := Some(if escalation.reply.Success() then escalation.reply.message else EscalationClaimed);
        } else {
          reply := Some(Welcome(result.reply.customer.name));
        }
      } else {
        reply := Some(NoAccountFor(customerEmail.value, "help you with your request"));
      }
      Record(transcript, reply);
    }

    /** Lines 862-874. */
    method RequestEscalation(transcript: string, arguments: Args, env: Env, prompt: string)
      returns (reply: Option<string>, calls: seq<Call>)
      modifies this
      ensures StepOutcome(State(), reply, false, calls, Some(prompt)) == EscalateStep(old(State()), transcript, arguments, env, prompt)
    {
      if Known(customerEmail) {
        var check := Dispatch(env.backend, GetCustomerInfo, map["email" := Str(customerEmail.value)]);
        calls := check.calls;
        if check.reply.Success() {
          var result := Dispatch(env.backend, EscalateToBilling, arguments);
          calls := calls + result.calls;
          reply := result.reply.Message();
        } else {
          reply := Some(NoAccountFor(customerEmail.value, "escalate your request"));
        }
      } else {
        var result := Dispatch(env.backend, EscalateToBilling, arguments);
        calls := result.calls;
        reply := result.reply.Message();
      }
      Record(transcript, reply);
    }

    /** process_with_gemini. */
    method ProcessWithGemini(transcript: string, env: Env) returns (reply: Option<string>, calls: seq<Call>)
      modifies this
      ensures TurnResult(State(), reply, calls) == Converse(old(State()), transcript, env)
    {
      conversationHistory := conversationHistory + [User(transcript)];
      var raised, prompt;
      reply, raised, calls, prompt := ProcessWithFunctionCalling(transcript, env);
      if raised {
        reply := Some(NotCaught);
        return;
      }
      conversationHistory := conversationHistory + [Assistant(reply)];
      if |conversationHistory| > 12 {
        conversationHistory := conversationHistory[|conversationHistory| - 12..];
      }
    }
  }
}
