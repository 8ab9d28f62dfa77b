/**
 * How process_with_function_calling turns the result of a dispatched
 * operation into the sentence spoken back to the caller.
 */
module Render {
  import opened Wrappers
  import opened Text
  import opened Zendesk
  import EmailExtraction

  /**
   * The four searches run over a ticket description: a day-month-year date,
   * an amount followed by "USD", "Invoice - <token>" and "Product - <words>";
   * each yields its first capture group or None.
   */
  datatype DetailPatterns = DetailPatterns(
    date: EmailExtraction.Matcher,
    usd: EmailExtraction.Matcher,
    invoice: EmailExtraction.Matcher,
    product: EmailExtraction.Matcher)

  /** At most this many listed tickets are described one by one. */
  const DetailedItems := 3

  function Welcome(name: string): string {
    "Great! I found your account. Welcome back, " + name + ". How can I help you today?"
  }

  function Apology(error: string): string {
    "I'm sorry, but I encountered an issue: " + error + ". Please try again or contact support directly."
  }

  function Details(description: string): string {
    "Details: " + description + " "
  }

  function AppointmentHead(t: Ticket, rx: DetailPatterns): string {
    var d := t.description;
    (match rx.date(d)
     case Some(date) => "Your " + t.subject + " appointment is scheduled for " + date + ". "
     case None => "Appointment: " + t.subject + ". ")
    + (if Contains(Lower(d), "paid") && rx.usd(d).Some? then "You paid " + rx.usd(d).value + " USD for this service. " else "")
  }

  function OrderHead(t: Ticket, rx: DetailPatterns): string {
    var d := t.description;
    "Order #" + NatToString(t.id) + ": " + t.subject + ". "
    + (if rx.invoice(d).Some? then "Invoice: " + rx.invoice(d).value + ". " else "")
    + (if rx.product(d).Some? then "Product: " + rx.product(d).value + ". " else "")
  }

  function TicketHead(t: Ticket): string {
    "Ticket #" + NatToString(t.id) + ": " + t.subject + ". "
  }

  /** The sentences describing one listed ticket; each ends with its full description. */
  function Line(bucket: Bucket, t: Ticket, rx: DetailPatterns): string {
    (match bucket
     case Appointments => AppointmentHead(t, rx)
     case Orders => OrderHead(t, rx)
     case Tickets => TicketHead(t))
    + Details(t.description)
  }

  /** The lines of the given tickets, in order. */
  function Lines(bucket: Bucket, items: seq<Ticket>, rx: DetailPatterns): string {
    ConcatMap(items, t => Line(bucket, t, rx))
  }

  function Detailed(items: seq<Ticket>): seq<Ticket> {
    if |items| <= DetailedItems then items else items[..DetailedItems]
  }

  function Noun(bucket: Bucket): string {
    match bucket
    case Appointments => "appointment"
    case Orders => "order"
    case Tickets => "ticket"
  }

  function Header(bucket: Bucket, count: nat): string {
    "I found " + NatToString(count) + " " + Noun(bucket) + "(s) for you. "
  }

  function Trailer(bucket: Bucket): string {
    if bucket == Appointments then "Would you like me to help you reschedule this appointment?" else ""
  }

  function NothingFound(bucket: Bucket): string {
    match bucket
    case Appointments => "I don't see any appointments scheduled for you at the moment."
    case Orders => "I don't see any orders in your account at the moment."
    case Tickets => "I don't see any open tickets for you at the moment."
  }

  /** The answer to a search: a count of everything found, then the first three described. */
  function ListingText(bucket: Bucket, items: seq<Ticket>, rx: DetailPatterns): string {
    if items == [] then NothingFound(bucket)
    else Header(bucket, |items|) + Lines(bucket, Detailed(items), rx) + Trailer(bucket)
  }

  /**
   * The sentence for the result of `name`, in the default path of lines
   * 888-990. A failed call is reported with its error text.
   */
  function Render(name: string, r: Reply, rx: DetailPatterns): string
    requires Shaped(name, r)
  {
    if r.Success() then
      if name == GetCustomerInfo then Welcome(r.customer.name)
      else if name == SearchCustomerTickets then ListingText(r.bucket, r.items, rx)
      else if name == CreateSupportTicket || name == ConfirmEmailAndCreateTicket then
        "Perfect! " + r.message + " Our team will review your request and get back to you soon."
      else if name == AddCommentToTicket then
        "Great! " + r.message + ". Your information has been added to the ticket."
      else
        assert name == EscalateToBilling;
        r.message
    else Apology(r.ErrorText().GetOr("Unknown error occurred"))
  }

  /** A failed operation's error text is passed on to the caller inside the apology. */
  lemma FailureIsReported(name: string, r: Reply, rx: DetailPatterns)
    requires Shaped(name, r) && r.Failure?
    ensures Contains(Render(name, r, rx), r.error)
  {
    var s := Render(name, r, rx);
    var pre, post := "I'm sorry, but I encountered an issue: ", ". Please try again or contact support directly.";
    assert s == pre + r.error + post;
    assert s[|pre|..|pre| + |r.error|] == r.error;
    ContainsWitness(s, r.error, |pre|);
  }

  lemma LineHasDetails(bucket: Bucket, t: Ticket, rx: DetailPatterns)
    ensures Contains(Line(bucket, t, rx), Details(t.description))
  {
    var d := Details(t.description);
    var head := Line(bucket, t, rx)[..|Line(bucket, t, rx)| - |d|];
    assert Line(bucket, t, rx) == head + d + "";
    ContainsWitness(d, d, 0);
    ContainsInfix(head, d, "", d);
  }

  /**
   * A non-empty search result is announced with the number of everything
   * found, and the full description of each of the first three tickets is
   * read out.
   */
  lemma ListingCountsAllDescribesFirstThree(bucket: Bucket, items: seq<Ticket>, rx: DetailPatterns, i: nat)
    requires items != [] && i < |items| && i < DetailedItems
    ensures ListingText(bucket, items, rx)[..|Header(bucket, |items|)|] == Header(bucket, |items|)
    ensures Contains(ListingText(bucket, items, rx), Details(items[i].description))
  {
    var lines := Lines(bucket, Detailed(items), rx);
    assert Detailed(items)[i] == items[i];
    ConcatMapHasEveryPart(Detailed(items), t => Line(bucket, t, rx), i);
    LineHasDetails(bucket, items[i], rx);
    ContainsTrans(lines, Line(bucket, items[i], rx), Details(items[i].description));
    ContainsInfix(Header(bucket, |items|), lines, Trailer(bucket), Details(items[i].description));
  }

  /** Tickets past the third change the announced count but nothing else of the answer. */
  lemma ListingIgnoresTail(bucket: Bucket, items: seq<Ticket>, others: seq<Ticket>, rx: DetailPatterns)
    requires |items| == |others| && Detailed(items) == Detailed(others)
    ensures ListingText(bucket, items, rx) == ListingText(bucket, others, rx)
  {
  }

  /**
   * The loop over the first three tickets of lines 902-922, 927-940 and
   * 948-954: one line appended per ticket.
   */
  method DescribeItems(bucket: Bucket, items: seq<Ticket>, rx: DetailPatterns) returns (text: string)
    ensures text == Lines(bucket, Detailed(items), rx)
  {
    var shown := Detailed(items);
    text := "";
    for i := 0 to |shown|
      invariant text == Lines(bucket, shown[..i], rx)
    {
      assert shown[..i + 1][..i] == shown[..i];
      assert shown[..i + 1][i] == shown[i];
      text := text + Line(bucket, shown[i], rx);
    }
    assert shown[..|shown|] == shown;
  }
}
