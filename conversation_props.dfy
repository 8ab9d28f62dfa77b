/**
 * What the conversation step guarantees, and what it lets happen, across
 * all its branches.
 */
module ConversationProperties {
  import opened Wrappers
  import opened Text
  import opened EmailExtraction
  import opened Intent
  import opened Zendesk
  import opened Render
  import opened Prompt
  import opened Conversation

  /**
   * The step answered: nothing was raised, and exactly the utterance and
   * the reply were added to the history; the sticky intent and the stored
   * request are as they were before the branch ran.
   */
  predicate Answered(s: Session, transcript: string, o: StepOutcome) {
    && !o.raised
    && o.session.history == s.history + [User(transcript), Assistant(o.reply)]
    && o.session.lastIntent == s.lastIntent
    && o.session.lastIntentDetails == s.lastIntentDetails
  }

  /** The confirmation state and the email are untouched. */
  predicate KeepsConfirmation(s: Session, o: StepOutcome) {
    && o.session.confirmationPending == s.confirmationPending && o.session.pendingRequest == s.pendingRequest
    && o.session.customerEmail == s.customerEmail
  }

  /** Whatever the reply, `Answer` records one exchange and changes nothing else but the history. */
  lemma AnswerAnswers(s: Session, s': Session, transcript: string, reply: Option<string>, calls: seq<Call>,
                      prompt: Option<string>)
    requires s'.history == s.history && s'.lastIntent == s.lastIntent && s'.lastIntentDetails == s.lastIntentDetails
    requires s'.confirmationPending == s.confirmationPending && s'.pendingRequest == s.pendingRequest
    requires s'.customerEmail == s.customerEmail
    ensures var o := Answer(s', transcript, reply, calls, prompt);
      Answered(s, transcript, o) && KeepsConfirmation(s, o) && o.prompt == prompt
  {
  }

  lemma LookupStepAnswers(s: Session, transcript: string, args: Args, env: Env, prompt: string)
    requires Known(s.customerEmail)
    ensures var o := LookupStep(s, transcript, args, env, prompt);
      Answered(s, transcript, o) && KeepsConfirmation(s, o) && o.prompt == Some(prompt)
  {
    var o := LookupStep(s, transcript, args, env, prompt);
    var s' := if o.session.customerData == s.customerData then s else s.(customerData := o.session.customerData);
    assert o == Answer(s', transcript, o.reply, o.calls, Some(prompt));
    AnswerAnswers(s, s', transcript, o.reply, o.calls, Some(prompt));
  }

  lemma EscalateStepAnswers(s: Session, transcript: string, args: Args, env: Env, prompt: string)
    ensures var o := EscalateStep(s, transcript, args, env, prompt);
      Answered(s, transcript, o) && KeepsConfirmation(s, o) && o.prompt == Some(prompt)
  {
    var o := EscalateStep(s, transcript, args, env, prompt);
    assert o == Answer(s, transcript, o.reply, o.calls, Some(prompt));
    AnswerAnswers(s, s, transcript, o.reply, o.calls, Some(prompt));
  }

  lemma CallStepAnswers(s: Session, transcript: string, call: FunctionCall, env: Env, prompt: string)
    ensures var o := CallStep(s, transcript, call, env, prompt);
      Answered(s, transcript, o) && KeepsConfirmation(s, o) && o.prompt == Some(prompt)
  {
    if call.name == GetCustomerInfo && Known(s.customerEmail) {
      LookupStepAnswers(s, transcript, call.args, env, prompt);
    } else if call.name == EscalateToBilling {
      EscalateStepAnswers(s, transcript, call.args, env, prompt);
    }
  }

  lemma ConfirmStepAnswers(s: Session, transcript: string, env: Env)
    requires HasPending(s.pendingRequest)
    ensures var o := ConfirmStep(s, transcript, env);
      Answered(s, transcript, o) && o.prompt.None?
    ensures var o := ConfirmStep(s, transcript, env);
      o.session.confirmationPending ==> s.confirmationPending
    ensures var o := ConfirmStep(s, transcript, env);
      o.session.pendingRequest.Some? ==> s.pendingRequest.Some?
    ensures var o := ConfirmStep(s, transcript, env);
      o.session.customerEmail == s.customerEmail
      || (!AnyIn(Lowered(transcript), ConfirmWords) && AnyIn(Lowered(transcript), DenyWords))
  {
  }

  lemma ModelStepAnswers(s: Session, transcript: string, prompt: string, env: Env)
    ensures var o := ModelStep(s, transcript, prompt, env);
      Answered(s, transcript, o) && KeepsConfirmation(s, o) && o.prompt == Some(prompt)
  {
    match env.llm(prompt)
    case LlmFailed =>
    case LlmAnswered(raw) =>
      var call := env.parseCall(Strip(raw));
      if call.Some? {
        CallStepAnswers(s, transcript, call.value, env, prompt);
      }
  }

  /** The four ways a step can end, in terms of the branch functions. */
  lemma StepCases(s: Session, transcript: string, env: Env)
    ensures var s1 := Prelude(s, transcript, env.emailPatterns); var o := Step(s, transcript, env);
      var p := BuildPrompt(env.instructions, transcript, s1.history, s1.customerData, s1.customerEmail);
      || (s1.confirmationPending && HasPending(s1.pendingRequest) && o == ConfirmStep(s1, transcript, env))
      || o == Answer(s1, transcript, o.reply, [], None)
      || (p.None? && o == StepOutcome(s1, None, true, [], None))
      || (p.Some? && o == ModelStep(s1, transcript, p.value, env))
  {
    var s1 := Prelude(s, transcript, env.emailPatterns);
    var o := Step(s, transcript, env);
    var lowered := Lowered(transcript);
    var p := BuildPrompt(env.instructions, transcript, s1.history, s1.customerData, s1.customerEmail);
    if s1.confirmationPending && HasPending(s1.pendingRequest) {
      assert o == ConfirmStep(s1, transcript, env);
    } else if AnyIn(lowered, Greetings) || AnyIn(lowered, GeneralQuestions)
              || (AnyIn(lowered, AccountPhrases) && s1.customerData.None? && !Known(s1.customerEmail)) {
      assert o == Answer(s1, transcript, o.reply, [], None);
    } else if p.None? {
      assert o == StepOutcome(s1, None, true, [], None);
    } else {
      assert o == ModelStep(s1, transcript, p.value, env);
    }
  }

  /** The facts about each branch that the properties below combine. */
  lemma BranchesAnswer(s: Session, transcript: string, env: Env)
    ensures var s1 := Prelude(s, transcript, env.emailPatterns);
      HasPending(s1.pendingRequest) ==> var o := ConfirmStep(s1, transcript, env);
        Answered(s1, transcript, o) && o.prompt.None?
        && (o.session.confirmationPending ==> s1.confirmationPending)
        && (o.session.pendingRequest.Some? ==> s1.pendingRequest.Some?)
        && (o.session.customerEmail == s1.customerEmail
            || (!AnyIn(Lowered(transcript), ConfirmWords) && AnyIn(Lowered(transcript), DenyWords)))
    ensures var s1 := Prelude(s, transcript, env.emailPatterns);
      var p := BuildPrompt(env.instructions, transcript, s1.history, s1.customerData, s1.customerEmail);
      p.Some? ==> var o := ModelStep(s1, transcript, p.value, env);
        Answered(s1, transcript, o) && KeepsConfirmation(s1, o) && o.prompt == p
  {
    var s1 := Prelude(s, transcript, env.emailPatterns);
    if HasPending(s1.pendingRequest) {
      ConfirmStepAnswers(s1, transcript, env);
    }
    var p := BuildPrompt(env.instructions, transcript, s1.history, s1.customerData, s1.customerEmail);
    if p.Some? {
      ModelStepAnswers(s1, transcript, p.value, env);
    }
  }

  /**
   * Every utterance is answered with exactly one exchange added to the
   * history, except when building the prompt raises: then nothing is
   * recorded, no request is made and there is no reply. The sticky intent
   * is always updated from the utterance, whatever branch answers it.
   */
  lemma StepRecordsOneExchange(s: Session, transcript: string, env: Env)
    ensures var o := Step(s, transcript, env);
      !o.raised ==> o.session.history == s.history + [User(transcript), Assistant(o.reply)]
    ensures var o := Step(s, transcript, env);
      o.raised ==> o.session.history == s.history && o.calls == [] && o.reply.None? && o.prompt.None?
    ensures var o := Step(s, transcript, env);
      var st := UpdateSticky(Sticky(s.lastIntent, s.lastIntentDetails), transcript);
      o.session.lastIntent == st.intent && o.session.lastIntentDetails == st.details
  {
    var s1 := Prelude(s, transcript, env.emailPatterns);
    StepCases(s, transcript, env);
    BranchesAnswer(s, transcript, env);
    AnswerAnswers(s1, s1, transcript, Step(s, transcript, env).reply, [], None);
  }

  /**
   * The request for confirmation is never entered: a step never sets the
   * pending flag, nor stores a request, that was not there before. (The
   * only place that would set them, line 879, is behind the read of an
   * unassigned `result`.)
   */
  lemma ConfirmationNeverStarts(s: Session, transcript: string, env: Env)
    ensures Step(s, transcript, env).session.confirmationPending ==> s.confirmationPending
    ensures Step(s, transcript, env).session.pendingRequest.Some? ==> s.pendingRequest.Some?
  {
    var s1 := Prelude(s, transcript, env.emailPatterns);
    StepCases(s, transcript, env);
    BranchesAnswer(s, transcript, env);
    AnswerAnswers(s1, s1, transcript, Step(s, transcript, env).reply, [], None);
  }

  /** A create_support_ticket request from the model never reaches the backend. */
  lemma TicketRequestNeverDispatched(s: Session, transcript: string, call: FunctionCall, env: Env, prompt: string)
    requires call.name == CreateSupportTicket
    ensures var o := CallStep(s, transcript, call, env, prompt);
      o.calls == [] && (o.reply == Some(AskForEmail) || o.reply == Some(Trouble))
    ensures var o := CallStep(s, transcript, call, env, prompt);
      o.reply == Some(Trouble) <==> Truthy(Get(call.args, "email"))
  {
  }

  /** While confirming, a yes-word dispatches the stored request once and leaves the confirmation state. */
  lemma ConfirmationDispatchesStoredRequest(s: Session, transcript: string, env: Env)
    requires s.confirmationPending && HasPending(s.pendingRequest)
    requires AnyIn(Lowered(transcript), ConfirmWords)
    ensures var o := Step(s, transcript, env);
      && o.calls == Dispatch(env.backend, ConfirmEmailAndCreateTicket, s.pendingRequest.value).calls
      && !o.session.confirmationPending && o.session.pendingRequest.None?
      && o.session.customerEmail == Prelude(s, transcript, env.emailPatterns).customerEmail
      && o.prompt.None? && !o.raised
  {
  }

  /** While confirming, a no-word (and no yes-word) forgets the request and the email. */
  lemma DenialForgetsEmail(s: Session, transcript: string, env: Env)
    requires s.confirmationPending && HasPending(s.pendingRequest)
    requires !AnyIn(Lowered(transcript), ConfirmWords) && AnyIn(Lowered(transcript), DenyWords)
    ensures var o := Step(s, transcript, env);
      && o.calls == [] && o.reply == Some(AskCorrectEmail)
      && !o.session.confirmationPending && o.session.pendingRequest.None? && o.session.customerEmail.None?
      && o.session.customerData == s.customerData && o.prompt.None?
  {
  }

  /** While confirming, an answer with neither asks again and keeps waiting. */
  lemma UnclearAnswerKeepsWaiting(s: Session, transcript: string, env: Env)
    requires s.confirmationPending && HasPending(s.pendingRequest)
    requires !AnyIn(Lowered(transcript), ConfirmWords) && !AnyIn(Lowered(transcript), DenyWords)
    ensures var o := Step(s, transcript, env); var s1 := Prelude(s, transcript, env.emailPatterns);
      && o.calls == [] && o.reply == Some(AskYesNo) && o.prompt.None?
      && o.session == s1.(history := s.history + [User(transcript), Assistant(Some(AskYesNo))])
  {
  }

  /**
   * The yes-words are tested first and "correct" is one of them, so the
   * denial "not correct" is taken as a confirmation.
   */
  lemma NotCorrectConfirms(transcript: string)
    requires Contains(Lowered(transcript), "not correct")
    ensures AnyIn(Lowered(transcript), ConfirmWords)
  {
    var l := Lowered(transcript);
    var i :| 0 <= i <= |l| - 11 && OccursAt(l, "not correct", i);
    assert l[i + 4..i + 11] == l[i..i + 11][4..11];
    assert ConfirmWords[1] == "correct";
    AnyInWitness(l, ConfirmWords, 1, i + 4);
  }

  /**
   * Outside confirmation, a greeting word is answered with a greeting before
   * anything else is considered; the model is not asked.
   */
  lemma GreetingAnsweredDirectly(s: Session, transcript: string, env: Env)
    requires !(s.confirmationPending && HasPending(s.pendingRequest))
    requires AnyIn(Lowered(transcript), Greetings)
    ensures var o := Step(s, transcript, env);
      && o.calls == [] && o.prompt.None?
      && o.reply == Some(if s.customerData.Some? then GreetCustomer(s.customerData.value.name) else GreetNewcomer)
  {
  }

  /**
   * Past confirmation, greetings and general questions, the model is skipped
   * exactly when the utterance names an account matter while neither an
   * email nor account data is known (after taking up any email it contains);
   * the caller is then asked for the email.
   */
  lemma EmailRequestedExactlyWhenMissing(s: Session, transcript: string, env: Env)
    requires !(s.confirmationPending && HasPending(s.pendingRequest))
    requires !AnyIn(Lowered(transcript), Greetings) && !AnyIn(Lowered(transcript), GeneralQuestions)
    ensures var o := Step(s, transcript, env); var s1 := Prelude(s, transcript, env.emailPatterns);
      (o.prompt.None? && !o.raised) <==>
        AnyIn(Lowered(transcript), AccountPhrases) && s.customerData.None? && !Known(s1.customerEmail)
    ensures var o := Step(s, transcript, env); var s1 := Prelude(s, transcript, env.emailPatterns);
      AnyIn(Lowered(transcript), AccountPhrases) && s.customerData.None? && !Known(s1.customerEmail) ==>
        o.reply == Some(AskForEmail) && o.calls == []
  {
    var s1 := Prelude(s, transcript, env.emailPatterns);
    StepCases(s, transcript, env);
    BranchesAnswer(s, transcript, env);
    AnswerAnswers(s1, s1, transcript, Step(s, transcript, env).reply, [], None);
  }

  /**
   * An email found in the utterance replaces the known one, even in the
   * middle of a confirmation; only a denial then forgets it.
   */
  lemma EmailTakenUp(s: Session, transcript: string, env: Env)
    requires Known(ExtractEmail(transcript, env.emailPatterns))
    requires !(s.confirmationPending && HasPending(s.pendingRequest)
               && !AnyIn(Lowered(transcript), ConfirmWords) && AnyIn(Lowered(transcript), DenyWords))
    ensures Step(s, transcript, env).session.customerEmail == ExtractEmail(transcript, env.emailPatterns)
  {
    var s1 := Prelude(s, transcript, env.emailPatterns);
    StepCases(s, transcript, env);
    BranchesAnswer(s, transcript, env);
    AnswerAnswers(s1, s1, transcript, Step(s, transcript, env).reply, [], None);
  }

  /**
   * After an account lookup for a caller who asked for a refund, a failed
   * escalation is still reported to the caller as done.
   */
  lemma FailedEscalationReportedAsDone(s: Session, transcript: string, args: Args, env: Env, prompt: string)
    requires Known(s.customerEmail)
    requires s.lastIntent == Some(Refund) || s.lastIntent == Some(Escalate)
    requires Dispatch(env.backend, GetCustomerInfo, args).reply.Success()
    requires !Dispatch(env.backend, EscalateToBilling,
                       map["email" := Str(s.customerEmail.value),
                           "reason" := Str(if s.lastIntentDetails.Some? && s.lastIntentDetails.value != ""
                                           then s.lastIntentDetails.value else "Refund request"),
                           "priority" := Str("high")]).reply.Success()
    ensures LookupStep(s, transcript, args, env, prompt).reply == Some(EscalationClaimed)
  {
  }

  /**
   * process_with_gemini: a step that answers adds four entries (the
   * utterance twice, the reply twice) and keeps the last twelve; a step
   * that raises adds the utterance alone, with no trimming.
   */
  lemma ConverseHistory(s: Session, transcript: string, env: Env)
    ensures var o := Step(s.(history := s.history + [User(transcript)]), transcript, env);
      var r := Converse(s, transcript, env);
      !o.raised ==>
        && r.reply == o.reply
        && r.session.history == LastTwelve(s.history + [User(transcript), User(transcript), Assistant(o.reply), Assistant(o.reply)])
        && |r.session.history| == if |s.history| + 4 > 12 then 12 else |s.history| + 4
    ensures var o := Step(s.(history := s.history + [User(transcript)]), transcript, env);
      var r := Converse(s, transcript, env);
      o.raised ==> r.reply == Some(NotCaught) && r.session.history == s.history + [User(transcript)]
  {
    var o := Step(s.(history := s.history + [User(transcript)]), transcript, env);
    StepRecordsOneExchange(s.(history := s.history + [User(transcript)]), transcript, env);
    assert s.history + [User(transcript)] + [User(transcript), Assistant(o.reply)] + [Assistant(o.reply)]
        == s.history + [User(transcript), User(transcript), Assistant(o.reply), Assistant(o.reply)];
  }

  /**
   * Two missing replies after the utterance, at the end of the trimmed
   * history, make the next prompt read a missing reply.
   */
  lemma TwoMissingRepliesRaise(h: seq<Turn>, transcript: string, next: string)
    ensures ReadsMissingReply(LastTwelve(h + [User(transcript), User(transcript), Assistant(None), Assistant(None)]) + [User(next)])
  {
    var full := h + [User(transcript), User(transcript), Assistant(None), Assistant(None)];
    var kept := LastTwelve(full);
    assert |kept| >= 4 && kept[|kept| - 3..] == full[|full| - 3..];
    var h' := kept + [User(next)];
    var r := Recent(h');
    assert r == [User(transcript), Assistant(None), Assistant(None), User(next)];
    assert r[1..][1..][1..][1..] == [];
    assert AssistantReplies(r[1..][1..][1..]) == [];
    assert AssistantReplies(r[1..][1..]) == [None];
    assert AssistantReplies(r[1..]) == [None, None];
    var rs := AssistantReplies(r);
    assert rs == [None, None];
    assert MissingAt(rs, 0);
  }

  /**
   * An answered turn whose reply is missing (an escalation that gave no
   * message) leaves the history so that the very next turn, if it reaches
   * the prompt, cannot build it, whatever is said. (A later turn answered
   * without the prompt adds entries that push the missing replies out of
   * the recent window.)
   */
  lemma MissingReplyBreaksNextPrompt(s: Session, transcript: string, env: Env, next: string)
    requires var o := Step(s.(history := s.history + [User(transcript)]), transcript, env);
      !o.raised && o.reply.None?
    ensures ReadsMissingReply(Converse(s, transcript, env).session.history + [User(next)])
  {
    ConverseHistory(s, transcript, env);
    TwoMissingRepliesRaise(s.history, transcript, next);
  }

  /** Both records of the confirmation flow start empty and stay empty, turn after turn. */
  lemma ConfirmationStaysOff(s: Session, transcript: string, env: Env)
    requires !s.confirmationPending && s.pendingRequest.None?
    ensures !Converse(s, transcript, env).session.confirmationPending
    ensures Converse(s, transcript, env).session.pendingRequest.None?
  {
    ConfirmationNeverStarts(s.(history := s.history + [User(transcript)]), transcript, env);
  }
}
