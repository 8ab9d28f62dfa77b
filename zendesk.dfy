/**
 * execute_zendesk_function: the six ticketing operations the language model
 * may request, run against a snapshot of the ticketing backend. Each call
 * yields the result dictionary (as a `Reply`) and the log of backend requests
 * it made, in order.
 */
module Zendesk {
  import opened Wrappers
  import opened Text

  /** A JSON argument value supplied by the language model. */
  datatype Arg = Str(s: string) | Flag(b: bool)

  type Args = map<string, Arg>

  function Get(args: Args, key: string): Option<Arg> {
    if key in args then Some(args[key]) else None
  }

  /** Python truthiness of an argument (`if not email`, `all([...])`). */
  predicate Truthy(a: Option<Arg>) {
    match a
    case None => false
    case Some(Str(s)) => s != ""
    case Some(Flag(b)) => b
  }

  /** `str(v)` of an argument value, as it is interpolated or sent on. */
  function Show(a: Arg): string {
    match a
    case Str(s) => s
    case Flag(b) => if b then "True" else "False"
  }

  /** `str(arguments.get(key, default))`. */
  function ArgText(args: Args, key: string, default: string): string {
    if key in args then Show(args[key]) else default
  }

  /** A truthy ticket id as returned by the backend (`if ticket_id:`). */
  predicate HasId(id: Option<string>) {
    id.Some? && id.value != ""
  }

  datatype Customer = Customer(id: nat, name: string, email: string, phone: string, createdAt: string)

  datatype Ticket = Ticket(id: nat, subject: string, description: string)

  /**
   * What the ticketing backend answers during one dispatcher call: the first
   * user found per email, the open tickets per requester email, the id a
   * ticket creation returns (None on failure), whether comments are accepted,
   * and the user a customer creation returns (None on failure).
   */
  datatype Backend = Backend(
    customers: map<string, Customer>,
    openTickets: map<string, seq<Ticket>>,
    newTicketId: Option<string>,
    commentAccepted: bool,
    newCustomer: Option<Customer>)

  function LookupCustomer(b: Backend, email: string): Option<Customer> {
    if email in b.customers then Some(b.customers[email]) else None
  }

  function OpenTicketsOf(b: Backend, email: string): seq<Ticket> {
    if email in b.openTickets then b.openTickets[email] else []
  }

  /** One request to the backend. */
  datatype Call =
    | FindCustomer(email: string)
    | FindOpenTickets(email: string)
    | CreateTicket(subject: string, comment: string, requesterEmail: string, requesterName: string,
                   tags: seq<string>, priority: string)
    | AddComment(ticketId: string, body: string, public: bool)
    | CreateCustomer(email: string)

  datatype Bucket = Appointments | Orders | Tickets

  /**
   * The result dictionary. `Failure` carries "error" and no "success";
   * get_customer_info's `{"success": False, "error": ...}` is also a `Failure`,
   * as no reader tells the two apart.
   */
  datatype Reply =
    | Failure(error: string)
    | NeedsConfirmation(email: string)
    | CustomerFound(customer: Customer)
    | Listing(bucket: Bucket, items: seq<Ticket>)
    | Done(message: string, action: Option<string>, ticketId: Option<string>, customerId: Option<nat>)
  {
    /** `result.get("success")` */
    predicate Success() {
      CustomerFound? || Listing? || Done?
    }

    /** `result.get("error")` */
    function ErrorText(): Option<string> {
      match this
      case Failure(e) => Some(e)
      case NeedsConfirmation(_) => Some("Customer not found")
      case _ => None
    }

    /** `result.get("message")` */
    function Message(): Option<string> {
      if Done? then Some(message) else None
    }
  }

  datatype Outcome = Outcome(reply: Reply, calls: seq<Call>)

  const GetCustomerInfo := "get_customer_info"
  const SearchCustomerTickets := "search_customer_tickets"
  const CreateSupportTicket := "create_support_ticket"
  const ConfirmEmailAndCreateTicket := "confirm_email_and_create_ticket"
  const AddCommentToTicket := "add_comment_to_ticket"
  const EscalateToBilling := "escalate_to_billing"

  predicate IsKnown(name: string) {
    name == GetCustomerInfo || name == SearchCustomerTickets || name == CreateSupportTicket
    || name == ConfirmEmailAndCreateTicket || name == AddCommentToTicket || name == EscalateToBilling
  }

  /**
   * Which kind of successful reply each operation gives, and the action a
   * completed one reports; no success for an unknown name; only
   * create_support_ticket asks for an email to be confirmed.
   */
  predicate Shaped(name: string, r: Reply) {
    && (r.Success() ==> IsKnown(name))
    && (r.Success() && name == GetCustomerInfo ==> r.CustomerFound?)
    && (r.Success() && name == SearchCustomerTickets ==> r.Listing?)
    && (r.Success() && name != GetCustomerInfo && name != SearchCustomerTickets ==> r.Done?)
    && (r.NeedsConfirmation? ==> name == CreateSupportTicket)
    && (r.Done? && name == CreateSupportTicket ==>
          r.action == Some("note_added") || r.action == Some("ticket_created"))
    && (r.Done? && name == ConfirmEmailAndCreateTicket ==>
          r.action == Some("customer_and_ticket_created") && r.customerId.Some?)
    && (r.Done? && (name == AddCommentToTicket || name == EscalateToBilling) ==> r.action.None?)
  }

  const AppointmentKeywords: seq<string> := ["appointment", "meeting", "schedule", "booking", "call", "evisa", "visa"]
  const OrderKeywords: seq<string> := ["order", "purchase", "payment", "invoice"]

  /** An appointment keyword in the lower-cased subject or description. */
  predicate IsAppointment(t: Ticket) {
    AnyIn(Lower(t.subject), AppointmentKeywords) || AnyIn(Lower(t.description), AppointmentKeywords)
  }

  /** An order keyword in the lower-cased subject (the description is not consulted). */
  predicate IsOrder(t: Ticket) {
    AnyIn(Lower(t.subject), OrderKeywords)
  }

  /** The elements of `s` that satisfy `p`, in their order. */
  function Keep<T>(s: seq<T>, p: T -> bool): seq<T> {
    if s == [] then []
    else Keep(s[..|s| - 1], p) + (if p(s[|s| - 1]) then [s[|s| - 1]] else [])
  }

  /** `a` is `b` with some elements left out, the rest in their order. */
  predicate IsSubsequence<T(==)>(a: seq<T>, b: seq<T>) {
    if a == [] then true
    else if b == [] then false
    else if a[|a| - 1] == b[|b| - 1] then IsSubsequence(a[..|a| - 1], b[..|b| - 1])
    else IsSubsequence(a, b[..|b| - 1])
  }

  lemma {:induction false} SubsequenceExtend<T>(a: seq<T>, b: seq<T>, x: T)
    requires IsSubsequence(a, b)
    ensures IsSubsequence(a, b + [x])
    decreases |b|, 1
  {
    if a != [] {
      assert (b + [x])[..|b|] == b;
      if a[|a| - 1] == x {
        SubsequenceDropLast(a, b);
      }
    }
  }

  lemma {:induction false} SubsequenceDropLast<T>(a: seq<T>, b: seq<T>)
    requires a != [] && IsSubsequence(a, b)
    ensures IsSubsequence(a[..|a| - 1], b)
    decreases |b|, 0
  {
    if b != [] {
      if a[|a| - 1] == b[|b| - 1] {
        SubsequenceExtend(a[..|a| - 1], b[..|b| - 1], b[|b| - 1]);
        assert b[..|b| - 1] + [b[|b| - 1]] == b;
      } else {
        SubsequenceDropLast(a, b[..|b| - 1]);
        SubsequenceExtend(a[..|a| - 1], b[..|b| - 1], b[|b| - 1]);
        assert b[..|b| - 1] + [b[|b| - 1]] == b;
      }
    }
  }

  /**
   * `Keep` is the order-preserving sublist of exactly the elements that
   * satisfy the test: all of its elements pass, each passing element occurs
   * in it as often as in the input and each failing one not at all, and it
   * is a subsequence of the input.
   */
  lemma {:induction false} KeepIsFilter<T>(s: seq<T>, p: T -> bool)
    ensures forall x :: x in Keep(s, p) ==> p(x)
    ensures forall x :: x in Keep(s, p) <==> x in s && p(x)
    ensures forall x :: multiset(Keep(s, p))[x] == if p(x) then multiset(s)[x] else 0
    ensures IsSubsequence(Keep(s, p), s)
  {
    if s != [] {
      var init, last := s[..|s| - 1], s[|s| - 1];
      KeepIsFilter(init, p);
      assert s == init + [last];
      assert multiset(s) == multiset(init) + multiset{last};
      var k := Keep(init, p);
      if p(last) {
        assert Keep(s, p) == k + [last];
        assert k + [last] != [] && (k + [last])[..|k|] == k;
      } else {
        assert Keep(s, p) == k;
        SubsequenceExtend(k, init, last);
      }
    }
  }

  /**
   * The loop at lines 378-386: walk the tickets once and append every
   * appointment-related one to a fresh list.
   */
  method CollectAppointments(tickets: seq<Ticket>) returns (appointments: seq<Ticket>)
    ensures appointments == Keep(tickets, IsAppointment)
  {
    appointments := [];
    var i := 0;
    while i < |tickets|
      invariant 0 <= i <= |tickets|
      invariant appointments == Keep(tickets[..i], IsAppointment)
    {
      var ticket := tickets[i];
      assert tickets[..i + 1][..i] == tickets[..i];
      if IsAppointment(ticket) {
        appointments := appointments + [ticket];
      }
      i := i + 1;
    }
    assert tickets[..i] == tickets;
  }

  function GetCustomerInfoOp(b: Backend, args: Args): Outcome {
    var email := Get(args, "email");
    if !Truthy(email) then Outcome(Failure("Email is required"), [])
    else
      var e := Show(email.value);
      match LookupCustomer(b, e)
      case Some(c) => Outcome(CustomerFound(c), [FindCustomer(e)])
      case None => Outcome(Failure("Customer not found"), [FindCustomer(e)])
  }

  function SearchCustomerTicketsOp(b: Backend, args: Args): Outcome {
    var email := Get(args, "email");
    var searchType := if "search_type" in args then args["search_type"] else Str("all");
    if !Truthy(email) then Outcome(Failure("Email is required"), [])
    else
      var e := Show(email.value);
      var tickets := OpenTicketsOf(b, e);
      var calls := [FindOpenTickets(e)];
      if searchType == Str("appointments") then Outcome(Listing(Appointments, Keep(tickets, IsAppointment)), calls)
      else if searchType == Str("orders") then Outcome(Listing(Orders, Keep(tickets, IsOrder)), calls)
      else Outcome(Listing(Tickets, tickets), calls)
  }

  function CreateSupportTicketOp(b: Backend, args: Args): Outcome {
    var email, subject, description := Get(args, "email"), Get(args, "subject"), Get(args, "description");
    var priority := ArgText(args, "priority", "normal");
    if !(Truthy(email) && Truthy(subject) && Truthy(description)) then
      Outcome(Failure("Email, subject, and description are required"), [])
    else
      var e, desc := Show(email.value), Show(description.value);
      match LookupCustomer(b, e)
      case None => Outcome(NeedsConfirmation(e), [FindCustomer(e)])
      case Some(c) =>
        var open := OpenTicketsOf(b, e);
        var calls := [FindCustomer(e), FindOpenTickets(e)];
        if |open| > 0 then
          var tid := NatToString(open[0].id);
          var calls' := calls + [AddComment(tid, desc, false)];
          if b.commentAccepted then
            Outcome(Done("Your request has been added to your existing ticket.", Some("note_added"), Some(tid), None), calls')
          else Outcome(Failure("Failed to add note to existing ticket"), calls')
        else
          var calls' := calls + [CreateTicket(Show(subject.value), desc, e, c.name, ["voice_chat", "support"], priority)];
          if HasId(b.newTicketId) then
            Outcome(Done("Your request has been submitted successfully.", Some("ticket_created"), b.newTicketId, None), calls')
          else Outcome(Failure("Failed to create ticket"), calls')
  }

  const AccountCreatedMessage :=
    "Great! I've created your account and submitted your request. Our team will review it and get back to you soon."

  function ConfirmEmailAndCreateTicketOp(b: Backend, args: Args): Outcome {
    var email, subject, description := Get(args, "email"), Get(args, "subject"), Get(args, "description");
    var priority := ArgText(args, "priority", "normal");
    if !(Truthy(email) && Truthy(subject) && Truthy(description)) then
      Outcome(Failure("Email, subject, and description are required"), [])
    else
      var e := Show(email.value);
      match b.newCustomer
      case None => Outcome(Failure("Failed to create customer account"), [CreateCustomer(e)])
      case Some(c) =>
        var calls := [CreateCustomer(e),
                      CreateTicket(Show(subject.value), Show(description.value), e, c.name,
                                   ["voice_chat", "support", "new_customer"], priority)];
        if HasId(b.newTicketId) then
          Outcome(Done(AccountCreatedMessage, Some("customer_and_ticket_created"), b.newTicketId, Some(c.id)), calls)
        else Outcome(Failure("Failed to create ticket"), calls)
  }

  function AddCommentToTicketOp(b: Backend, args: Args): Outcome {
    var ticketId, comment := Get(args, "ticket_id"), Get(args, "comment");
    var public := if "public" in args then Truthy(Some(args["public"])) else true;
    if !(Truthy(ticketId) && Truthy(comment)) then Outcome(Failure("Ticket ID and comment are required"), [])
    else
      var tid := Show(ticketId.value);
      var calls := [AddComment(tid, Show(comment.value), public)];
      if b.commentAccepted then Outcome(Done("Comment added to ticket #" + tid, None, None, None), calls)
      else Outcome(Failure("Failed to add comment"), calls)
  }

  const EscalatedMessage :=
    "Your request has been escalated to our billing department. They will review your case and contact you within 24 hours."

  function EscalateToBillingOp(b: Backend, args: Args): Outcome {
    var email, reason := Get(args, "email"), Get(args, "reason");
    var priority := ArgText(args, "priority", "normal");
    if !(Truthy(email) && Truthy(reason)) then Outcome(Failure("Email and reason are required"), [])
    else
      var e, note := Show(email.value), "Escalation to billing: " + Show(reason.value);
      match LookupCustomer(b, e)
      case None => Outcome(Failure("Customer not found for escalation"), [FindCustomer(e)])
      case Some(c) =>
        var open := OpenTicketsOf(b, e);
        var calls := [FindCustomer(e), FindOpenTickets(e)];
        if |open| > 0 then
          var calls' := calls + [AddComment(NatToString(open[0].id), note, false)];
          if !b.commentAccepted then Outcome(Failure("Failed to add escalation note to ticket"), calls')
          else Outcome(Done(EscalatedMessage, None, None, None), calls')
        else
          var calls' := calls + [CreateTicket("Billing Escalation Request", note, e, c.name,
                                              ["voice_chat", "support", "escalation"], priority)];
          if !HasId(b.newTicketId) then Outcome(Failure("Failed to create ticket for escalation"), calls')
          else Outcome(Done(EscalatedMessage, None, None, None), calls')
  }

  /**
   * execute_zendesk_function: run the named operation. Whatever the arguments,
   * the reply has the shape its operation promises, and only the six known
   * operations can succeed.
   */
  function Dispatch(b: Backend, name: string, args: Args): (o: Outcome)
    ensures Shaped(name, o.reply)
  {
    if name == GetCustomerInfo then GetCustomerInfoOp(b, args)
    else if name == SearchCustomerTickets then SearchCustomerTicketsOp(b, args)
    else if name == CreateSupportTicket then CreateSupportTicketOp(b, args)
    else if name == ConfirmEmailAndCreateTicket then ConfirmEmailAndCreateTicketOp(b, args)
    else if name == AddCommentToTicket then AddCommentToTicketOp(b, args)
    else if name == EscalateToBilling then EscalateToBillingOp(b, args)
    else Outcome(Failure("Unknown function: " + name), [])
  }

  /** Missing required arguments are an error raised before any request reaches the backend. */
  lemma MissingArgumentsMakeNoCalls(b: Backend, name: string, args: Args)
    ensures name == GetCustomerInfo && !Truthy(Get(args, "email"))
            ==> Dispatch(b, name, args) == Outcome(Failure("Email is required"), [])
    ensures name == SearchCustomerTickets && !Truthy(Get(args, "email"))
            ==> Dispatch(b, name, args) == Outcome(Failure("Email is required"), [])
    ensures (name == CreateSupportTicket || name == ConfirmEmailAndCreateTicket)
            && !(Truthy(Get(args, "email")) && Truthy(Get(args, "subject")) && Truthy(Get(args, "description")))
            ==> Dispatch(b, name, args) == Outcome(Failure("Email, subject, and description are required"), [])
    ensures name == AddCommentToTicket && !(Truthy(Get(args, "ticket_id")) && Truthy(Get(args, "comment")))
            ==> Dispatch(b, name, args) == Outcome(Failure("Ticket ID and comment are required"), [])
    ensures name == EscalateToBilling && !(Truthy(Get(args, "email")) && Truthy(Get(args, "reason")))
            ==> Dispatch(b, name, args) == Outcome(Failure("Email and reason are required"), [])
  {
  }

  /** An unknown operation name is reported by name and touches nothing. */
  lemma UnknownFunctionRejected(b: Backend, name: string, args: Args)
    requires !IsKnown(name)
    ensures Dispatch(b, name, args) == Outcome(Failure("Unknown function: " + name), [])
  {
  }

  /** A ticket request for an email the backend does not know asks for confirmation of that email. */
  lemma UnknownCustomerNeedsConfirmation(b: Backend, args: Args)
    requires Truthy(Get(args, "email")) && Truthy(Get(args, "subject")) && Truthy(Get(args, "description"))
    requires LookupCustomer(b, ArgText(args, "email", "")).None?
    ensures var o := Dispatch(b, CreateSupportTicket, args);
      o.reply == NeedsConfirmation(ArgText(args, "email", "")) && o.calls == [FindCustomer(ArgText(args, "email", ""))]
  {
  }

  /** get_customer_info succeeds exactly when the backend knows the email, and returns that customer. */
  lemma CustomerLookup(b: Backend, args: Args)
    ensures var r := Dispatch(b, GetCustomerInfo, args).reply;
      r.Success() <==> Truthy(Get(args, "email")) && ArgText(args, "email", "") in b.customers
    ensures var r := Dispatch(b, GetCustomerInfo, args).reply;
      r.Success() ==> r == CustomerFound(b.customers[ArgText(args, "email", "")])
  {
  }

  predicate CreatesTicket(calls: seq<Call>) {
    exists i :: 0 <= i < |calls| && calls[i].CreateTicket?
  }

  /**
   * The merge policy of create_support_ticket and escalate_to_billing: with
   * an open ticket, no ticket is created and the text goes as a non-public
   * comment on the first open ticket; a ticket is only ever created when the
   * customer has no open ticket.
   */
  lemma MergeIntoOpenTicket(b: Backend, name: string, args: Args)
    requires name == CreateSupportTicket || name == EscalateToBilling
    ensures var o := Dispatch(b, name, args); var e := ArgText(args, "email", "");
      CreatesTicket(o.calls) ==> "email" in args && OpenTicketsOf(b, e) == []
    ensures var o := Dispatch(b, name, args); var e := ArgText(args, "email", "");
      o.reply.Success() && OpenTicketsOf(b, e) != [] ==>
        && !CreatesTicket(o.calls)
        && o.calls[|o.calls| - 1].AddComment?
        && o.calls[|o.calls| - 1].ticketId == NatToString(OpenTicketsOf(b, e)[0].id)
        && !o.calls[|o.calls| - 1].public
  {
  }

  /**
   * search_customer_tickets: "appointments" keeps, in order, the open tickets
   * whose subject or description names an appointment; "orders" those whose
   * subject names an order; any other search type lists them all.
   */
  lemma SearchListsOpenTickets(b: Backend, args: Args)
    requires Truthy(Get(args, "email"))
    ensures var r := Dispatch(b, SearchCustomerTickets, args).reply;
      var open := OpenTicketsOf(b, ArgText(args, "email", ""));
      && r.Listing?
      && IsSubsequence(r.items, open)
      && (Get(args, "search_type") == Some(Str("appointments")) ==>
            && r.bucket == Appointments
            && forall t :: multiset(r.items)[t] == if IsAppointment(t) then multiset(open)[t] else 0)
      && (Get(args, "search_type") == Some(Str("orders")) ==>
            && r.bucket == Orders
            && forall t :: multiset(r.items)[t] == if IsOrder(t) then multiset(open)[t] else 0)
      && (Get(args, "search_type") != Some(Str("appointments")) && Get(args, "search_type") != Some(Str("orders")) ==>
            r == Listing(Tickets, open))
  {
    var open := OpenTicketsOf(b, ArgText(args, "email", ""));
    KeepIsFilter(open, IsAppointment);
    KeepIsFilter(open, IsOrder);
    SubsequenceReflexive(open);
  }

  lemma {:induction false} SubsequenceReflexive<T>(s: seq<T>)
    ensures IsSubsequence(s, s)
  {
    if s != [] {
      SubsequenceReflexive(s[..|s| - 1]);
    }
  }
}
