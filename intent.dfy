/**
 * Keyword-driven intent: the sticky intent the conversation step keeps
 * (refund, escalate or support, with the utterance that set it) and the
 * standalone classifier detect_customer_intent, which the agent never calls.
 */
module Intent {
  import opened Wrappers
  import opened Text

  datatype Intent = Refund | Escalate | Support

  const RefundWords: seq<string> := ["refund", "money back", "return", "cancel"]
  const EscalateWords: seq<string> := ["escalate", "billing"]
  const SupportWords: seq<string> := ["appointment", "order", "ticket", "support"]

  /** The last intent seen and the utterance that carried it; both start empty. */
  datatype Sticky = Sticky(intent: Option<Intent>, details: Option<string>)

  /** The intent a lower-cased, stripped utterance names, refund words first; None when none. */
  function Classify(lowered: string): Option<Intent> {
    if AnyIn(lowered, RefundWords) then Some(Refund)
    else if AnyIn(lowered, EscalateWords) then Some(Escalate)
    else if AnyIn(lowered, SupportWords) then Some(Support)
    else None
  }

  /** The sticky update: a keyword overwrites intent and details; no keyword keeps both. */
  function UpdateSticky(st: Sticky, transcript: string): Sticky {
    var found := Classify(Strip(Lower(transcript)));
    if found.Some? then Sticky(found, Some(transcript)) else st
  }

  /**
   * Refund words beat escalate words, which beat support words; the details
   * are the utterance as spoken; an utterance with none of them changes nothing.
   */
  lemma StickyIntentPriority(st: Sticky, transcript: string)
    ensures var l := Strip(Lower(transcript));
      AnyIn(l, RefundWords) ==> UpdateSticky(st, transcript) == Sticky(Some(Refund), Some(transcript))
    ensures var l := Strip(Lower(transcript));
      !AnyIn(l, RefundWords) && AnyIn(l, EscalateWords) ==>
        UpdateSticky(st, transcript) == Sticky(Some(Escalate), Some(transcript))
    ensures var l := Strip(Lower(transcript));
      !AnyIn(l, RefundWords) && !AnyIn(l, EscalateWords) && AnyIn(l, SupportWords) ==>
        UpdateSticky(st, transcript) == Sticky(Some(Support), Some(transcript))
    ensures var l := Strip(Lower(transcript));
      !AnyIn(l, RefundWords) && !AnyIn(l, EscalateWords) && !AnyIn(l, SupportWords) ==>
        UpdateSticky(st, transcript) == st
  {
  }

  datatype IntentType = General | AccountManagement | OrderInquiry | MeetingManagement | SupportRequest

  /** The dictionary detect_customer_intent returns. */
  datatype CustomerIntent = CustomerIntent(
    kind: IntentType,
    requiresEmail: bool,
    requiresAccountAccess: bool,
    actionNeeded: Option<string>)

  const AccountKeywords: seq<string> := ["account", "profile", "details", "information", "change", "update", "modify"]
  const OrderKeywords: seq<string> := ["order", "purchase", "transaction", "payment", "invoice", "receipt"]
  const MeetingKeywords: seq<string> := ["meeting", "appointment", "schedule", "booking", "call", "evisa"]
  const SupportKeywords: seq<string> := ["help", "support", "issue", "problem", "ticket", "complaint"]

  /**
   * detect_customer_intent: four keyword tests on the lower-cased text, each
   * overwriting the type set by the earlier ones. So the type is that of the
   * LAST category that matches, email is required as soon as any matches,
   * account access only for account words, and a ticket action only for support words.
   */
  function DetectCustomerIntent(text: string): (r: CustomerIntent)
    ensures var t := Lower(text);
      && (r.kind == SupportRequest <==> AnyIn(t, SupportKeywords))
      && (r.kind == MeetingManagement <==> AnyIn(t, MeetingKeywords) && !AnyIn(t, SupportKeywords))
      && (r.kind == OrderInquiry <==>
            AnyIn(t, OrderKeywords) && !AnyIn(t, MeetingKeywords) && !AnyIn(t, SupportKeywords))
      && (r.kind == AccountManagement <==>
            AnyIn(t, AccountKeywords) && !AnyIn(t, OrderKeywords) && !AnyIn(t, MeetingKeywords)
            && !AnyIn(t, SupportKeywords))
      && (r.requiresEmail <==> r.kind != General)
      && (r.requiresAccountAccess <==> AnyIn(t, AccountKeywords))
      && r.actionNeeded == (if AnyIn(t, SupportKeywords) then Some("create_ticket") else None)
  {
    var t := Lower(text);
    var r0 := CustomerIntent(General, false, false, None);
    var r1 := if AnyIn(t, AccountKeywords)
              then r0.(kind := AccountManagement, requiresEmail := true, requiresAccountAccess := true)
              else r0;
    var r2 := if AnyIn(t, OrderKeywords) then r1.(kind := OrderInquiry, requiresEmail := true) else r1;
    var r3 := if AnyIn(t, MeetingKeywords) then r2.(kind := MeetingManagement, requiresEmail := true) else r2;
    if AnyIn(t, SupportKeywords)
    then r3.(kind := SupportRequest, requiresEmail := true, actionNeeded := Some("create_ticket"))
    else r3
  }
}
