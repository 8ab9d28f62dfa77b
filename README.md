# Zendesk voice agent — a Dafny model of its core

The agent listens to a caller through a streaming speech-to-text feed,
assembles finished utterances, asks a language model what to do with each
one, runs Zendesk support operations (customer lookup, ticket search, ticket
creation, comments, billing escalation), turns the results into spoken
sentences and plays synthesized audio back through a buffered output stream.
Between utterances it keeps conversation state in globals: the caller's email,
the customer record, a pending ticket request awaiting email confirmation,
the last sticky intent (refund, escalate, support) and the recent history.

The model covers that core, file by file:

- `wrappers.dfy` — `Option`.
- `text.dfy` (`Text`) — the Python string operations the agent relies on:
  `lower()` (ASCII), `strip()`, substring `in`, `any(... in ...)`,
  `" ".join`, integer formatting, and facts about them.
- `email.dfy` (`EmailExtraction`) — `extract_email_from_text`: three regular
  expressions tried in order (each a `Matcher` parameter, see below), then
  the clean-up that removes whitespace and rewrites the words "at" and "dot".
- `intent.dfy` (`Intent`) — the sticky intent update at the start of each
  step and `detect_customer_intent`.
- `zendesk.dfy` (`Zendesk`) — `execute_zendesk_function` over a snapshot of
  the backend: the six operations, their argument checks, their exact error
  and success texts, the merge-into-open-ticket policy, the ticket filters of
  the search, and the log of backend requests each one makes.
- `render.dfy` (`Render`) — the turning of an operation's result into the
  sentence spoken to the caller (lines 887-993).
- `prompt.dfy` (`Prompt`) — `build_function_calling_prompt`, including the
  fact that it raises when a recent assistant entry has no text.
- `conversation.dfy` (`Conversation`) — `process_with_function_calling` and
  `process_with_gemini` as specification functions over a `Session`, and the
  class `Agent` whose fields are the conversation globals and whose methods
  update them in place, each proved equal to its specification function.
- `conversation_props.dfy` (`ConversationProperties`) — what a step promises.
- `utterance.dfy` (`Utterance`) — `on_stt_message`: buffering final segments
  and handing over the joined utterance on `UtteranceEnd`; class `Assembler`.
- `playback.dfy` (`Playback`) — text clean-up before synthesis, the
  1024-sample chunking, and the playback buffer with its callback; class
  `Player`.

Outside effects are parameters of the model: the backend is a `Backend`
value read by a step (the step returns the list of `Call`s it would send);
the language model is a function from prompt to `LlmOutcome`; the scan of
the model's answer for a JSON function call is a function from answer to
`Option<FunctionCall>`; each regular expression is a `Matcher`, a function
from text to the matched substring. A Python exception that escapes
`process_with_function_calling` is the `raised` flag of a `StepOutcome`.

Where the documented behaviour and the code differ, the model follows the
code. The documentation says spoken addresses such as
"jeff at gmail dot com" are converted to "jeff@gmail.com"; in the code all
whitespace is removed before the word-bounded "at"/"dot" substitution, so
the words are glued to their neighbours and never replaced
(`EmailExtraction.SpokenFormUnconverted`). Likewise the confirmation flow
is documented as reachable, but the only branch that would enter it reads
`result` before it is assigned on that path (line 877), so it never starts
(`ConversationProperties.ConfirmationNeverStarts`).

A defect of the code as written is kept in the model: when the model asks
for escalate_to_billing and the operation fails (for instance without an
email argument while no email is known), lines 864-871 take
`.get('message')` of the error result, so the turn's reply is missing. That
missing reply is stored in the history, and the very next turn, if it
reaches the prompt, raises on it, so the caller then hears "I didn't catch
that" whatever they say (`ConversationProperties.MissingReplyBreaksNextPrompt`).

## Model

| member | source | states |
|---|---|---|
| EmailExtraction.FirstMatch | zendesk_voice_agent.py:1381-1384 | None exactly when no pattern matches; otherwise the match of the first pattern that matches, with every earlier pattern failing |
| EmailExtraction.ExtractEmail | zendesk_voice_agent.py:1370-1393 | the standard pattern wins, then the spoken one, then the spaced one, each match cleaned up; None exactly when none matches; a found address has no whitespace |
| EmailExtraction.CleanupHasNoSpace | zendesk_voice_agent.py:1386-1388 | the clean-up never leaves whitespace in the address |
| EmailExtraction.SpokenFormUnconverted | zendesk_voice_agent.py:1386-1388 | a spoken "user at domain dot tld" of word characters comes back as "useratdomaindottld", with no "@" |
| Intent.StickyIntentPriority | zendesk_voice_agent.py:664-675 | refund words beat escalate words, which beat support words, the details become the utterance; with none of them the previous intent stays |
| Intent.DetectCustomerIntent | zendesk_voice_agent.py:1395-1432 | the type is that of the last matching category (support, then meeting, then order, then account), each as an if-and-only-if; email is required iff any category matches; account access iff account words; the ticket action iff support words |
| Zendesk.Dispatch | zendesk_voice_agent.py:343-536 | every success has the shape of its operation: a customer record for get_customer_info, a listing for the search, otherwise a completed action carrying "note_added" or "ticket_created" (create_support_ticket), "customer_and_ticket_created" with the new customer's id (confirm_email_and_create_ticket), or no action (add_comment_to_ticket, escalate_to_billing); only create_support_ticket asks for an email to be confirmed; only the six known names can succeed |
| Zendesk.MissingArgumentsMakeNoCalls | zendesk_voice_agent.py:346-505 | each operation missing a required argument fails with its own message and sends no request |
| Zendesk.UnknownFunctionRejected | zendesk_voice_agent.py:534-535 | an unknown name fails with "Unknown function: " and the name, and sends no request |
| Zendesk.CustomerLookup | zendesk_voice_agent.py:346-366 | get_customer_info succeeds iff the email is given and known to the backend, and then returns that customer |
| Zendesk.UnknownCustomerNeedsConfirmation | zendesk_voice_agent.py:399-412 | a ticket request for an unknown email asks for confirmation of that email after one lookup request |
| Zendesk.MergeIntoOpenTicket | zendesk_voice_agent.py:414-532 | a ticket is only created when the customer has no open ticket; otherwise a successful request adds a non-public comment to the first open ticket |
| Zendesk.SearchListsOpenTickets | zendesk_voice_agent.py:368-397 | the search lists an ordered subsequence of the open tickets: each ticket naming an appointment (resp. an order) as many times as it is open and no other ticket, or all of them |
| Zendesk.KeepIsFilter | zendesk_voice_agent.py:376-393 | the filtering keeps each passing ticket as many times as it occurs and no failing one, as a subsequence of the input |
| Zendesk.CollectAppointments | zendesk_voice_agent.py:376-386 | the loop collects exactly the open tickets whose subject or description names an appointment keyword, in order |
| Render.FailureIsReported | zendesk_voice_agent.py:986-991 | a failed operation's error text is read out inside the apology |
| Render.ListingCountsAllDescribesFirstThree | zendesk_voice_agent.py:896-956 | a non-empty listing opens with the count of everything found and reads the full description of each of the first three tickets |
| Render.ListingIgnoresTail | zendesk_voice_agent.py:896-956 | tickets past the third do not change the answer beyond the count |
| Render.DescribeItems | zendesk_voice_agent.py:902-922 | the loop over the first three tickets builds exactly one line per ticket, in order |
| Prompt.Recent | zendesk_voice_agent.py:547 | the last four history entries, or all of them when there are fewer, in order |
| Prompt.AlreadyFound | zendesk_voice_agent.py:631-633 | true iff a reply mentions a found appointment before any missing reply, None iff a missing reply comes first, false iff all replies are present and unremarkable |
| Prompt.ContextRaises | zendesk_voice_agent.py:624-634 | the context paragraph raises exactly when more than two entries exist and a recent missing reply is read before a found appointment |
| Prompt.BuildPrompt | zendesk_voice_agent.py:542-650 | the prompt cannot be built exactly when the history makes the context paragraph raise |
| Prompt.PromptCarriesContext | zendesk_voice_agent.py:607-636 | the prompt contains the caller's words, each of the last four turns, and the bare email when no customer record is known |
| Conversation.Agent.constructor | zendesk_voice_agent.py:45-62 | all conversation globals start empty |
| Conversation.Agent.TakeUpUtterance | zendesk_voice_agent.py:657-675 | the globals become the prelude of the step: found email taken up, sticky intent updated |
| Conversation.Agent.AnswerConfirmation | zendesk_voice_agent.py:678-719 | the confirmation branch updates the globals and replies as its specification function says |
| Conversation.Agent.ProcessWithFunctionCalling | zendesk_voice_agent.py:652-1015 | the whole step updates the globals, replies, raises and calls the backend as the specification function `Step` says |
| Conversation.Agent.RespondToModel | zendesk_voice_agent.py:763-1015 | the step after the prompt is built agrees with its specification function |
| Conversation.Agent.ActOnCall | zendesk_voice_agent.py:820-993 | handling the function call found in the model's answer agrees with its specification function |
| Conversation.Agent.LookUpAccount | zendesk_voice_agent.py:831-858 | the account lookup with its chained search or escalation agrees with its specification function |
| Conversation.Agent.RequestEscalation | zendesk_voice_agent.py:862-874 | the escalation branch agrees with its specification function |
| Conversation.Agent.ProcessWithGemini | zendesk_voice_agent.py:1017-1052 | a whole turn (history append, step, trimming, fallback apology) agrees with its specification function |
| ConversationProperties.StepRecordsOneExchange | zendesk_voice_agent.py:652-1015 | an answered step appends exactly the utterance and the reply to the history; a raising step records nothing and sends nothing; the sticky intent is always updated |
| ConversationProperties.ConfirmationNeverStarts | zendesk_voice_agent.py:877-885 | no step sets the confirmation flag or stores a pending request that was not there before |
| ConversationProperties.ConfirmationStaysOff | zendesk_voice_agent.py:877-885 | starting without a pending confirmation, every turn ends without one |
| ConversationProperties.TicketRequestNeverDispatched | zendesk_voice_agent.py:821-885 | a create_support_ticket call from the model never reaches the backend; the reply is the trouble apology iff an email argument is given, else the email request |
| ConversationProperties.ConfirmationDispatchesStoredRequest | zendesk_voice_agent.py:678-700 | while confirming, a yes-word runs the stored request once and leaves the confirmation state |
| ConversationProperties.DenialForgetsEmail | zendesk_voice_agent.py:702-712 | while confirming, a no-word without a yes-word forgets the request and the email, keeps the customer record, and asks for the correct email |
| ConversationProperties.UnclearAnswerKeepsWaiting | zendesk_voice_agent.py:713-719 | while confirming, an answer with neither asks for yes or no and changes nothing else |
| ConversationProperties.NotCorrectConfirms | zendesk_voice_agent.py:680-683 | "not correct" contains the yes-word "correct", so it confirms |
| ConversationProperties.GreetingAnsweredDirectly | zendesk_voice_agent.py:721-735 | outside confirmation a greeting is answered by name or generically, without asking the model |
| ConversationProperties.EmailRequestedExactlyWhenMissing | zendesk_voice_agent.py:746-757 | past greetings and general questions the model is skipped iff an account matter is raised with no email or record known, and the caller is then asked for the email |
| ConversationProperties.EmailTakenUp | zendesk_voice_agent.py:657-662 | an email found in the utterance becomes the known email unless a denial then forgets it |
| ConversationProperties.FailedEscalationReportedAsDone | zendesk_voice_agent.py:835-848 | after a successful lookup with a refund or escalate intent, a failed escalation is still reported as done |
| ConversationProperties.ConverseHistory | zendesk_voice_agent.py:1023-1052 | an answered turn adds four entries and keeps the last twelve; a raising turn adds the utterance alone and apologises |
| ConversationProperties.TwoMissingRepliesRaise | zendesk_voice_agent.py:1038-1045 | a history ending in two missing replies makes the next prompt raise |
| ConversationProperties.MissingReplyBreaksNextPrompt | zendesk_voice_agent.py:862-874 | a turn answered with no text leaves a history whose next prompt cannot be built |
| Utterance.AssembleContract | zendesk_voice_agent.py:1233-1270 | on an utterance end the buffer is left empty and the stripped joined text is handed over iff it is non-empty and no audio is playing (so nothing for an empty buffer); a segment is buffered iff it is final and non-empty; any other message changes nothing; nothing is handed over except at an end |
| Utterance.SegmentsMakeUtterance | zendesk_voice_agent.py:1233-1270 | a run of messages buffers exactly its final non-empty segments, which the next utterance end hands over |
| Utterance.Assembler.constructor | zendesk_voice_agent.py:50 | the transcript buffer starts empty |
| Utterance.Assembler.OnSttMessage | zendesk_voice_agent.py:1227-1275 | the buffer and the handed-over utterance are those of `Assemble` on the previous buffer |
| Playback.SpeechTextContract | zendesk_voice_agent.py:1060-1065 | nothing is spoken iff the stripped text is empty; spoken text has no newline or carriage return and at most 503 characters; it is the stripped, flattened text, or its first 500 characters followed by "..." when it is longer; a one-line text of at most 500 characters after stripping is spoken exactly as stripped |
| Playback.ChunkSamples | zendesk_voice_agent.py:1126-1129 | the chunks concatenate back to the samples, each is non-empty and at most 1024 long, and their number is the ceiling of the length over 1024 |
| Playback.Consume | zendesk_voice_agent.py:1159-1169 | the callback always outputs the requested number of frames: a prefix of the buffer, or the whole buffer padded with silence |
| Playback.DrainPlaysInOrder | zendesk_voice_agent.py:1159-1169 | callbacks that ask for no more than is buffered play the buffer out in order and leave the rest |
| Playback.Player.Feed | zendesk_voice_agent.py:1189-1195 | new audio is appended and the speaking flag is raised once audio is buffered |
| Playback.Player.Callback | zendesk_voice_agent.py:1159-1169 | the output and the new buffer are those of `Consume`; the speaking flag is untouched |
| Playback.Player.FeedAll | zendesk_voice_agent.py:1183-1191 | feeding a sequence of chunks appends them all, in order, and the speaking flag ends raised iff it was raised before or some chunk was fed and audio is buffered |

## Left out

- The Zendesk REST client (lines 69-201) and its network I/O: each step reads a fixed `Backend` snapshot and returns the requests it would send.
- The exception handler of execute_zendesk_function (lines 537-540, "Function execution failed"): the backend snapshot never fails.
- Numeric JSON argument values: arguments are strings or booleans, so an integer ticket id is written as a string.
- Customer and ticket fields that the API may return as null: they are modelled as present.
- Zendesk.Dispatch: add_comment_to_ticket's `public` argument is modelled by its truthiness rather than passed through as any JSON value.
- The Gemini call itself and the conversation topic detection (lines 1026-1035), whose result is never used by the step.
- The scan of the model's answer for a JSON object (lines 775-811): it is the `parseCall` parameter.
- The regular expressions' own matching (lines 1376-1378): each is a `Matcher` parameter returning the matched text.
- The fixed instruction text of lines 549-605: it is the `instructions` parameter of the prompt.
- Non-ASCII letters in `lower()` and in the regular-expression word class.
- The unreachable branch at line 966 and the `last_ticket`, `last_order`, `last_appointment` locals, which no step reads.
- ElevenLabs synthesis, MP3 decoding and the float scaling of samples (lines 1068-1124): audio samples are integers.
- Threads, the audio queue's blocking and timeouts, sleeps, the speaking-flag clearing with its debounce (lines 1197-1217) and the output stream.
- The websocket connection, keep-alive, reconnection, `main`, malformed speech-to-text messages, console output and the transcript file.
- The Gemini function-schema table: it is only documentation for the model.
