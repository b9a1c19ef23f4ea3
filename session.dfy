/**
 * The chat widget's session state -- the ticket list, the message log, the
 * priority picked in the ticket form and the busy flag -- and the handlers
 * that change it: a user turn, the priority buttons, ticket creation (kept
 * in memory, or handed to the data SDK), and the SDK's data-changed callback.
 */
module Session {

  import opened Text
  import opened Tickets
  import opened Responses

  /** One entry of the message log: the text, who wrote it, and when. */
  datatype Message = Message(text: string, isUser: bool, timestamp: string)

  /**
   * Where `createTicket` sends a new ticket: the in-memory fallback when no
   * data SDK is installed, or the SDK, whose `create` reports success or failure.
   */
  datatype Backend = InMemory | DataSdk(isOk: bool)

  /** The bot's notice after a ticket is kept in memory. */
  function CreatedNotice(t: Ticket): string
  {
    "\U{2705} **Ticket Created Successfully!**\n\n**Ticket ID:** " + t.ticketId
    + "\n**Priority:** " + Upper(t.priority)
    + "\n**Type:** " + t.issueType
    + "\n\nA member of our IT team will review your ticket and get back to you shortly."
  }

  /** The bot's notice after the data SDK stored a ticket. */
  function PersistedNotice(t: Ticket): string
  {
    CreatedNotice(t) + " You can track your ticket status using the \"View Tickets\" button."
  }

  const FAILED_NOTICE: string := "\U{274C} Failed to create ticket. Please try again."

  const THANK_YOU: string :=
    "Great, I'm glad I could help! If you have any other IT issues in the future, don't hesitate to reach out. Have a great day! \U{1F44B}"

  /** Both success notices quote the ticket's id and its priority in upper case. */
  lemma NoticesNameTicket(t: Ticket)
    ensures Contains(CreatedNotice(t), t.ticketId) && Contains(PersistedNotice(t), t.ticketId)
    ensures Contains(CreatedNotice(t), Upper(t.priority)) && Contains(PersistedNotice(t), Upper(t.priority))
  {
    var head := "\U{2705} **Ticket Created Successfully!**\n\n**Ticket ID:** ";
    var mid := "\n**Priority:** ";
    var tail := "\n**Type:** " + t.issueType
      + "\n\nA member of our IT team will review your ticket and get back to you shortly.";
    var n := CreatedNotice(t);
    var upper := Upper(t.priority);
    assert n == head + t.ticketId + mid + upper + tail;
    assert n[|head|..|head| + |t.ticketId|] == t.ticketId;
    assert OccursAt(n, t.ticketId, |head|);
    var j := |head| + |t.ticketId| + |mid|;
    assert n[j..j + |upper|] == upper;
    assert OccursAt(n, upper, j);
    ContainsIff(n, t.ticketId);
    ContainsIff(n, upper);
    var p := PersistedNotice(t);
    assert p[..|n|] == n;
    ContainsPrefix(p, n, t.ticketId);
    ContainsPrefix(p, n, upper);
  }

  /** A pattern found in a prefix is found in the whole text. */
  lemma ContainsPrefix(s: string, prefix: string, p: string)
    requires |prefix| <= |s| && s[..|prefix|] == prefix
    requires Contains(prefix, p)
    ensures Contains(s, p)
  {
    ContainsIff(prefix, p);
    var i :| OccursAt(prefix, p, i);
    assert s[i..i + |p|] == prefix[i..i + |p|];
    assert OccursAt(s, p, i);
    ContainsIff(s, p);
  }

  /** The session state of one open chat page. */
  class HelpDesk {
    var tickets: seq<Ticket>
    var messages: seq<Message>
    var selectedPriority: string
    var isProcessing: bool

    /** The sidebar counters for the current tickets (`updateStats`). */
    function Counters(): Stats
      reads this
    {
      ComputeStats(tickets)
    }

    /** The state when the page loads: no tickets, no messages, medium priority, idle. */
    constructor()
      ensures tickets == [] && messages == []
      ensures selectedPriority == "medium" && !isProcessing
      ensures Counters() == Stats(0, 0, 0)
    {
      tickets := [];
      messages := [];
      selectedPriority := "medium";
      isProcessing := false;
    }

    /** `setPriority`: the picked priority becomes the one new tickets get. */
    method SetPriority(priority: string)
      modifies this
      ensures selectedPriority == priority
      ensures tickets == old(tickets) && messages == old(messages) && isProcessing == old(isProcessing)
    {
      selectedPriority := priority;
    }

    /** `showCreateTicketModal`: opening the form resets the priority to medium. */
    method ShowCreateTicketModal()
      modifies this
      ensures selectedPriority == "medium"
      ensures tickets == old(tickets) && messages == old(messages) && isProcessing == old(isProcessing)
    {
      SetPriority("medium");
    }

    /** `sendThankYou`: the bot closes the conversation. */
    method SendThankYou(at: string)
      modifies this
      ensures messages == old(messages) + [Message(THANK_YOU, false, at)]
      ensures tickets == old(tickets) && selectedPriority == old(selectedPriority) && isProcessing == old(isProcessing)
    {
      messages := messages + [Message(THANK_YOU, false, at)];
    }

    /**
     * `createTicket`. The record is built the same way on both paths from the
     * clock reading `now`, the form fields and the selected priority, and is
     * returned. Without the data SDK it is appended to the ticket list; with
     * it, it is only handed to the SDK, so the local list stays as it is until
     * the SDK calls back. Either way one bot notice is logged at `noticeAt`.
     */
    method CreateTicket(now: nat, issueType: string, description: string, createdAt: string,
                        noticeAt: string, backend: Backend) returns (ticket: Ticket)
      modifies this
      ensures ticket == NewTicket(now, issueType, description, old(selectedPriority), createdAt)
      ensures ticket.status == "open" && ticket.escalated && ticket.priority == old(selectedPriority)
      ensures backend.InMemory? ==>
        tickets == old(tickets) + [ticket]
        && messages == old(messages) + [Message(CreatedNotice(ticket), false, noticeAt)]
        && Counters() == Stats(old(Counters()).open + 1, old(Counters()).pending, old(Counters()).resolved)
      ensures backend.DataSdk? ==>
        tickets == old(tickets)
        && messages == old(messages)
          + [Message(if backend.isOk then PersistedNotice(ticket) else FAILED_NOTICE, false, noticeAt)]
      ensures selectedPriority == old(selectedPriority) && isProcessing == old(isProcessing)
    {
      ticket := NewTicket(now, issueType, description, selectedPriority, createdAt);
      if backend.InMemory? {
        CountAppend(tickets, ticket, "open");
        CountAppend(tickets, ticket, "pending");
        CountAppend(tickets, ticket, "resolved");
        tickets := tickets + [ticket];
        messages := messages + [Message(CreatedNotice(ticket), false, noticeAt)];
      } else if backend.isOk {
        messages := messages + [Message(PersistedNotice(ticket), false, noticeAt)];
      } else {
        messages := messages + [Message(FAILED_NOTICE, false, noticeAt)];
      }
    }

    /** `dataHandler.onDataChanged`: the SDK's list replaces the local one. */
    method OnDataChanged(data: seq<Ticket>)
      modifies this
      ensures tickets == data && Counters() == ComputeStats(data)
      ensures messages == old(messages) && selectedPriority == old(selectedPriority) && isProcessing == old(isProcessing)
    {
      tickets := data;
    }

    /**
     * The part of `handleUserMessage` before its pause: a message is ignored
     * while a reply is pending or when it is blank after trimming; otherwise
     * the session turns busy and logs the user's message at `at`.
     */
    method BeginTurn(message: string, at: string) returns (started: bool)
      modifies this
      ensures started <==> !old(isProcessing) && Trim(message) != []
      ensures started ==> isProcessing && messages == old(messages) + [Message(message, true, at)]
      ensures !started ==> isProcessing == old(isProcessing) && messages == old(messages)
      ensures tickets == old(tickets) && selectedPriority == old(selectedPriority)
    {
      started := !isProcessing && Trim(message) != [];
      if started {
        isProcessing := true;
        messages := messages + [Message(message, true, at)];
      }
    }

    /** The part of `handleUserMessage` after its pause: the reply is logged and the session is idle again. */
    method CompleteTurn(message: string, at: string)
      modifies this
      ensures messages == old(messages) + [Message(GenerateResponse(message).text, false, at)]
      ensures !isProcessing
      ensures tickets == old(tickets) && selectedPriority == old(selectedPriority)
    {
      var response := GenerateResponse(message);
      messages := messages + [Message(response.text, false, at)];
      isProcessing := false;
    }

    /**
     * `handleUserMessage` with nothing else happening during its pause: an
     * ignored message changes nothing; an accepted one logs the user's
     * message, then the reply, and leaves the session idle.
     */
    method HandleUserMessage(message: string, userAt: string, botAt: string)
      modifies this
      ensures old(isProcessing) || Trim(message) == [] ==>
        messages == old(messages) && isProcessing == old(isProcessing)
      ensures !old(isProcessing) && Trim(message) != [] ==>
        messages == old(messages)
          + [Message(message, true, userAt)] + [Message(GenerateResponse(message).text, false, botAt)]
        && !isProcessing
      ensures tickets == old(tickets) && selectedPriority == old(selectedPriority)
    {
      var started := BeginTurn(message, userAt);
      if started {
        CompleteTurn(message, botAt);
      }
    }
  }

  /**
   * A page with no data SDK on which the user files one ticket per clock
   * reading in `nows`: the counters end at (number of tickets, 0, 0).
   */
  method FileTicketsInMemory(nows: seq<nat>, issueType: string, description: string, at: string)
    returns (counters: Stats)
    ensures counters == Stats(|nows|, 0, 0)
  {
    var desk := new HelpDesk();
    for i := 0 to |nows|
      invariant |desk.tickets| == i
      invariant forall t | t in desk.tickets :: t.status == "open"
    {
      var _ := desk.CreateTicket(nows[i], issueType, description, at, at, InMemory);
    }
    AllOpenStats(desk.tickets);
    counters := desk.Counters();
  }

  /** While one reply is pending, a second message is ignored and the log shows only the first and its reply. */
  method OverlappingMessages(first: string, second: string, at: string) returns (log: seq<Message>)
    requires Trim(first) != []
    ensures log == [Message(first, true, at)] + [Message(GenerateResponse(first).text, false, at)]
  {
    var desk := new HelpDesk();
    var started := desk.BeginTurn(first, at);
    assert desk.isProcessing && desk.messages == [Message(first, true, at)];
    var ignored := desk.BeginTurn(second, at);
    assert desk.messages == [Message(first, true, at)];
    desk.CompleteTurn(first, at);
    log := desk.messages;
  }
}
