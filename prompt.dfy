/**
 * build_function_calling_prompt: the text sent to the language model for a
 * request the agent does not answer by itself.
 */
module Prompt {
  import opened Wrappers
  import opened Text
  import opened Zendesk

  /** One entry of the conversation history; an assistant reply may be missing (None). */
  datatype Turn = User(text: string) | Assistant(reply: Option<string>)

  /** `f"{msg['content']}"`: a missing reply is written as None. */
  function Content(t: Turn): string {
    match t
    case User(s) => s
    case Assistant(r) => if r.Some? then r.value else "None"
  }

  function Role(t: Turn): string {
    if t.User? then "Customer" else "Assistant"
  }

  function TurnLine(t: Turn): string {
    Role(t) + ": " + Content(t) + "\n"
  }

  /** `conversation_history[-4:]` */
  function Recent(history: seq<Turn>): (r: seq<Turn>)
    ensures |r| <= 4 && |r| == if |history| < 4 then |history| else 4
    ensures forall i :: 0 <= i < |r| ==> r[i] == history[|history| - |r| + i]
  {
    if |history| <= 4 then history else history[|history| - 4..]
  }

  /** The assistant entries' replies, in order. */
  function AssistantReplies(turns: seq<Turn>): seq<Option<string>> {
    if turns == [] then []
    else (if turns[0].Assistant? then [turns[0].reply] else []) + AssistantReplies(turns[1..])
  }

  /** `"appointment" in response.lower() and "found" in response.lower()` */
  predicate MentionsFoundAppointment(reply: string) {
    Contains(Lower(reply), "appointment") && Contains(Lower(reply), "found")
  }

  /** Every reply is present and does not mention a found appointment. */
  predicate Unremarkable(rs: seq<Option<string>>) {
    forall j :: 0 <= j < |rs| ==> rs[j].Some? && !MentionsFoundAppointment(rs[j].value)
  }

  /**
   * The `any(...)` test of line 632, evaluated left to right: None when it
   * reaches a missing reply (whose `.lower()` raises) before a reply that
   * mentions a found appointment.
   */
  function AlreadyFound(rs: seq<Option<string>>): (r: Option<bool>)
    ensures r == Some(true) <==> exists k :: FoundAt(rs, k)
    ensures r.None? <==> exists k :: MissingAt(rs, k)
    ensures r == Some(false) <==> Unremarkable(rs)
  {
    if rs == [] then Some(false)
    else if rs[0].None? then
      assert MissingAt(rs, 0);
      None
    else if MentionsFoundAppointment(rs[0].value) then
      assert FoundAt(rs, 0);
      Some(true)
    else
      var r := AlreadyFound(rs[1..]);
      ShiftPositions(rs);
      r
  }

  /** The `k`th reply is the first to mention a found appointment, and none before it is missing. */
  predicate FoundAt(rs: seq<Option<string>>, k: int) {
    0 <= k < |rs| && rs[k].Some? && MentionsFoundAppointment(rs[k].value) && Unremarkable(rs[..k])
  }

  /** The `k`th reply is missing, and none before it mentions a found appointment. */
  predicate MissingAt(rs: seq<Option<string>>, k: int) {
    0 <= k < |rs| && rs[k].None? && Unremarkable(rs[..k])
  }

  /** Past an unremarkable first reply, positions shift by one. */
  lemma ShiftAt(rs: seq<Option<string>>, k: int)
    requires rs != [] && rs[0].Some? && !MentionsFoundAppointment(rs[0].value)
    ensures FoundAt(rs, k + 1) <==> FoundAt(rs[1..], k)
    ensures MissingAt(rs, k + 1) <==> MissingAt(rs[1..], k)
  {
    if 0 <= k < |rs| - 1 {
      assert rs[k + 1] == rs[1..][k];
      assert forall j :: 0 <= j < k ==> rs[..k + 1][j + 1] == rs[1..][..k][j];
      assert Unremarkable(rs[..k + 1]) <==> Unremarkable(rs[1..][..k]);
    }
  }

  lemma ShiftPositions(rs: seq<Option<string>>)
    requires rs != [] && rs[0].Some? && !MentionsFoundAppointment(rs[0].value)
    ensures (exists k :: FoundAt(rs, k)) <==> (exists k :: FoundAt(rs[1..], k))
    ensures (exists k :: MissingAt(rs, k)) <==> (exists k :: MissingAt(rs[1..], k))
    ensures Unremarkable(rs) <==> Unremarkable(rs[1..])
  {
    if exists k :: FoundAt(rs, k) {
      var k :| FoundAt(rs, k);
      ShiftAt(rs, k - 1);
    }
    if exists k :: FoundAt(rs[1..], k) {
      var k :| FoundAt(rs[1..], k);
      ShiftAt(rs, k);
    }
    if exists k :: MissingAt(rs, k) {
      var k :| MissingAt(rs, k);
      ShiftAt(rs, k - 1);
    }
    if exists k :: MissingAt(rs[1..], k) {
      var k :| MissingAt(rs[1..], k);
      ShiftAt(rs, k);
    }
    assert forall j :: 0 <= j < |rs| - 1 ==> rs[j + 1] == rs[1..][j];
  }

  /** The prompt cannot be built: the test of line 632 reads a missing reply. */
  ghost predicate ReadsMissingReply(history: seq<Turn>) {
    |history| > 2 && exists k :: MissingAt(AssistantReplies(Recent(history)), k)
  }

  function HistoryBlock(history: seq<Turn>): string {
    if history == [] then "" else "\n\nRecent conversation:\n" + ConcatMap(Recent(history), TurnLine)
  }

  function CustomerBlock(data: Option<Customer>): string {
    match data
    case None => ""
    case Some(c) =>
      "\n\nCustomer data available:\n" + "- Name: " + c.name + "\n" + "- Email: " + c.email + "\n"
      + "- Phone: " + c.phone + "\n"
  }

  /** A truthy email (`if customer_email:`). */
  predicate Known(email: Option<string>) {
    email.Some? && email.value != ""
  }

  function EmailBlock(email: Option<string>, data: Option<Customer>): string {
    if Known(email) && data.None? then "\n\nCustomer email provided: " + email.value + "\n" else ""
  }

  /** The context paragraph of lines 624-634; None when it raises. */
  function ContextBlock(history: seq<Turn>, email: Option<string>, data: Option<Customer>): Option<string> {
    if |history| <= 2 then Some("")
    else match AlreadyFound(AssistantReplies(Recent(history)))
      case None => None
      case Some(found) =>
        Some("\n\nConversation context: The customer has been asking about rescheduling their appointment. "
             + (if Known(email) then "They provided their email: " + email.value + ". " else "")
             + (if data.Some? then "I have their account information. " else "")
             + (if found then "I already found their appointment information. " else "")
             + "Continue helping them with their request.\n")
  }

  lemma ContextRaises(history: seq<Turn>, email: Option<string>, data: Option<Customer>)
    ensures ContextBlock(history, email, data).None? <==> ReadsMissingReply(history)
  {
    if |history| > 2 {
      var found := AlreadyFound(AssistantReplies(Recent(history)));
    }
  }

  function CustomerSays(transcript: string): string {
    "\n\nCustomer says: " + transcript + "\n\n"
  }

  /** The fixed closing rules of lines 637-648. */
  const ClosingRules: string :=
    "IMPORTANT: Choose ONE response type only:\n\n"
    + "OPTION 1 - Function Call: If you need to call a Zendesk function, respond EXACTLY with this JSON format:\n"
    + "{\"function\": \"function_name\", \"arguments\": {...}}\n\n"
    + "OPTION 2 - Direct Response: If providing a direct response, respond naturally WITHOUT any JSON.\n\n"
    + "SPECIAL RULES:\n"
    + "- If customer asks to reschedule and you have their appointment info, use create_support_ticket()\n"
    + "- If customer provides email for the first time, use get_customer_info()\n"
    + "- If customer asks about appointments and you have their email, use search_customer_tickets()\n"
    + "- DO NOT ask for email if already provided\n"
    + "- DO NOT ask for appointment details if already found\n\n"
    + "DO NOT mix both types. Choose either function call OR direct response, not both.\n\n"
    + "Your response:"

  /**
   * The prompt: the fixed instructions, the last four turns, what is known
   * about the customer, the context paragraph, the caller's words and the
   * closing rules. None when building it raises.
   */
  function BuildPrompt(instructions: string, transcript: string, history: seq<Turn>,
                       data: Option<Customer>, email: Option<string>): (r: Option<string>)
    ensures r.None? <==> ReadsMissingReply(history)
  {
    ContextRaises(history, email, data);
    match ContextBlock(history, email, data)
    case None => None
    case Some(context) =>
      Some(instructions + HistoryBlock(history) + CustomerBlock(data) + EmailBlock(email, data) + context
           + CustomerSays(transcript) + ClosingRules)
  }

  lemma PromptShape(instructions: string, transcript: string, history: seq<Turn>,
                    data: Option<Customer>, email: Option<string>)
    requires !ReadsMissingReply(history)
    ensures ContextBlock(history, email, data).Some?
    ensures BuildPrompt(instructions, transcript, history, data, email).value
      == instructions + HistoryBlock(history) + CustomerBlock(data) + EmailBlock(email, data)
         + ContextBlock(history, email, data).value + CustomerSays(transcript) + ClosingRules
  {
    ContextRaises(history, email, data);
  }

  /**
   * What the prompt always carries: the caller's words, each of the last
   * four turns, and the bare email while no account data is known.
   */
  lemma PromptCarriesContext(instructions: string, transcript: string, history: seq<Turn>,
                             data: Option<Customer>, email: Option<string>, i: nat)
    requires !ReadsMissingReply(history)
    ensures Contains(BuildPrompt(instructions, transcript, history, data, email).value, CustomerSays(transcript))
    ensures i < |Recent(history)| ==>
      Contains(BuildPrompt(instructions, transcript, history, data, email).value, TurnLine(Recent(history)[i]))
    ensures Known(email) && data.None? ==>
      Contains(BuildPrompt(instructions, transcript, history, data, email).value, EmailBlock(email, data))
  {
    PromptShape(instructions, transcript, history, data, email);
    var context := ContextBlock(history, email, data).value;
    var h, c, e, t := HistoryBlock(history), CustomerBlock(data), EmailBlock(email, data), CustomerSays(transcript);
    var rules := ClosingRules;
    ContainsWitness(t, t, 0);
    ContainsRight(instructions + h + c + e + context, t, t);
    ContainsLeft(instructions + h + c + e + context + t, rules, t);
    ContainsWitness(e, e, 0);
    ContainsRight(instructions + h + c, e, e);
    ContainsLeft(instructions + h + c + e, context, e);
    ContainsLeft(instructions + h + c + e + context, t, e);
    ContainsLeft(instructions + h + c + e + context + t, rules, e);
    if i < |Recent(history)| && history != [] {
      var l := TurnLine(Recent(history)[i]);
      ConcatMapHasEveryPart(Recent(history), TurnLine, i);
      ContainsRight("\n\nRecent conversation:\n", ConcatMap(Recent(history), TurnLine), l);
      ContainsRight(instructions, h, l);
      ContainsLeft(instructions + h, c, l);
      ContainsLeft(instructions + h + c, e, l);
      ContainsLeft(instructions + h + c + e, context, l);
      ContainsLeft(instructions + h + c + e + context, t, l);
      ContainsLeft(instructions + h + c + e + context + t, rules, l);
    }
  }
}
