/**
 * Ticket records: how a new ticket is stamped (`createTicket`), the
 * timestamp-derived id, the derived open/pending/resolved counts
 * (`updateStats`) and the colour shown for a priority (`getPriorityColor`).
 */
module Tickets {

  import opened Text

  /** A ticket record; the fields are `ticket_id`, `issue_type`, ..., `escalated` of the script. */
  datatype Ticket = Ticket(
    ticketId: string,
    issueType: string,
    description: string,
    priority: string,
    status: string,
    createdAt: string,
    escalated: bool)

  // ---------------------------------------------------------------
  // Ticket ids: 'TKT-' + Date.now().toString(36).toUpperCase()
  // ---------------------------------------------------------------

  /** The base-36 digit for `d`, lower case as `toString(36)` writes it. */
  function Digit36(d: nat): char
    requires d < 36
  {
    if d < 10 then ('0' as int + d) as char else ('a' as int + d - 10) as char
  }

  /** `n.toString(36)` for a non-negative integer: most significant digit first, no leading zeros. */
  function Radix36(n: nat): (r: string)
    ensures |r| >= 1
    ensures n > 0 ==> r[0] != '0'
    decreases n
  {
    if n < 36 then [Digit36(n)] else Radix36(n / 36) + [Digit36(n % 36)]
  }

  /** The value of an upper-case base-36 digit. */
  function DigitValue(c: char): nat
  {
    if '0' <= c <= '9' then c as int - '0' as int
    else if 'A' <= c <= 'Z' then c as int - 'A' as int + 10
    else 0
  }

  /** Reads an upper-case base-36 numeral. */
  function ParseRadix36(s: string): nat
    decreases |s|
  {
    if s == [] then 0 else ParseRadix36(s[..|s| - 1]) * 36 + DigitValue(s[|s| - 1])
  }

  lemma {:induction false} Radix36RoundTrip(n: nat)
    ensures ParseRadix36(Upper(Radix36(n))) == n
    decreases n
  {
    if n < 36 {
      assert Upper(Radix36(n))[..0] == [];
    } else {
      var init, last := Radix36(n / 36), [Digit36(n % 36)];
      UpperConcat(init, last);
      var s := Upper(init) + Upper(last);
      assert s[..|s| - 1] == Upper(init);
      Radix36RoundTrip(n / 36);
    }
  }

  /** The id of a ticket created at millisecond timestamp `now`. */
  function TicketId(now: nat): string
  {
    "TKT-" + Upper(Radix36(now))
  }

  /** Every ticket id is "TKT-" followed by at least one digit or upper-case letter. */
  lemma TicketIdShape(now: nat)
    ensures |TicketId(now)| > 4 && TicketId(now)[..4] == "TKT-"
    ensures forall i :: 4 <= i < |TicketId(now)| ==>
      '0' <= TicketId(now)[i] <= '9' || 'A' <= TicketId(now)[i] <= 'Z'
  {
    forall i | 0 <= i < |Radix36(now)| ensures '0' <= Radix36(now)[i] <= '9' || 'a' <= Radix36(now)[i] <= 'z' {
      Radix36Digits(now, i);
    }
  }

  lemma {:induction false} Radix36Digits(n: nat, i: nat)
    requires i < |Radix36(n)|
    ensures '0' <= Radix36(n)[i] <= '9' || 'a' <= Radix36(n)[i] <= 'z'
    decreases n
  {
    if n >= 36 && i < |Radix36(n / 36)| {
      Radix36Digits(n / 36, i);
    }
  }

  /** Tickets created at different timestamps get different ids. */
  lemma TicketIdInjective(a: nat, b: nat)
    ensures TicketId(a) == TicketId(b) ==> a == b
  {
    if TicketId(a) == TicketId(b) {
      assert TicketId(a)[4..] == Upper(Radix36(a));
      assert TicketId(b)[4..] == Upper(Radix36(b));
      Radix36RoundTrip(a);
      Radix36RoundTrip(b);
    }
  }

  // ---------------------------------------------------------------
  // Creating a ticket
  // ---------------------------------------------------------------

  const DEFAULT_DESCRIPTION: string := "No description provided"

  /**
   * The record `createTicket` builds: stamped id and creation time, the
   * description defaulted when empty, the selected priority, status "open"
   * and escalated.
   */
  function NewTicket(now: nat, issueType: string, description: string, priority: string, createdAt: string): (t: Ticket)
    ensures t.status == "open" && t.escalated
    ensures t.priority == priority && t.issueType == issueType && t.createdAt == createdAt
    ensures t.description == (if description == "" then DEFAULT_DESCRIPTION else description)
    ensures t.description != ""
    ensures t.ticketId == TicketId(now)
    ensures |t.ticketId| > 4 && t.ticketId[..4] == "TKT-"
  {
    TicketIdShape(now);
    Ticket(TicketId(now), issueType, if description == "" then DEFAULT_DESCRIPTION else description,
           priority, "open", createdAt, true)
  }

  // ---------------------------------------------------------------
  // Derived counts: tickets.filter(t => t.status === s).length
  // ---------------------------------------------------------------

  /** `tickets.filter(t => t.status === status)`: the tickets with that status, in order. */
  function FilterStatus(tickets: seq<Ticket>, status: string): (r: seq<Ticket>)
    ensures |r| <= |tickets|
    ensures forall t | t in r :: t in tickets && t.status == status
    ensures forall t | t in tickets && t.status == status :: t in r
    decreases |tickets|
  {
    if tickets == [] then []
    else (if tickets[0].status == status then [tickets[0]] else []) + FilterStatus(tickets[1..], status)
  }

  /** Filtering keeps every ticket with the status as many times as it occurs, and drops every other. */
  lemma {:induction false} FilterMultiplicity(tickets: seq<Ticket>, status: string)
    ensures forall t :: multiset(FilterStatus(tickets, status))[t] ==
                        (if t.status == status then multiset(tickets)[t] else 0)
    decreases |tickets|
  {
    if tickets != [] {
      FilterMultiplicity(tickets[1..], status);
      assert tickets == [tickets[0]] + tickets[1..];
    }
  }

  function CountStatus(tickets: seq<Ticket>, status: string): nat
  {
    |FilterStatus(tickets, status)|
  }

  /** The three counters in the sidebar. */
  datatype Stats = Stats(open: nat, pending: nat, resolved: nat)

  /** `updateStats`: the counters recomputed from the current tickets. */
  function ComputeStats(tickets: seq<Ticket>): Stats
  {
    Stats(CountStatus(tickets, "open"), CountStatus(tickets, "pending"), CountStatus(tickets, "resolved"))
  }

  /** The statuses of the tickets, in order. */
  function Statuses(tickets: seq<Ticket>): (r: seq<string>)
    ensures |r| == |tickets|
    ensures forall i :: 0 <= i < |tickets| ==> r[i] == tickets[i].status
  {
    seq(|tickets|, i requires 0 <= i < |tickets| => tickets[i].status)
  }

  /** A count is the number of occurrences of its status among the tickets' statuses. */
  lemma {:induction false} CountIsMultiplicity(tickets: seq<Ticket>, status: string)
    ensures CountStatus(tickets, status) == multiset(Statuses(tickets))[status]
    decreases |tickets|
  {
    if tickets != [] {
      CountIsMultiplicity(tickets[1..], status);
      assert Statuses(tickets) == [tickets[0].status] + Statuses(tickets[1..]);
    }
  }

  lemma {:induction false} FilterConcat(a: seq<Ticket>, b: seq<Ticket>, status: string)
    ensures FilterStatus(a + b, status) == FilterStatus(a, status) + FilterStatus(b, status)
    decreases |a|
  {
    if a != [] {
      assert (a + b)[1..] == a[1..] + b;
      FilterConcat(a[1..], b, status);
    } else {
      assert a + b == b;
    }
  }

  /** Appending a ticket raises the count of its status by one and leaves the other counts alone. */
  lemma CountAppend(tickets: seq<Ticket>, t: Ticket, status: string)
    ensures CountStatus(tickets + [t], status) ==
      CountStatus(tickets, status) + (if t.status == status then 1 else 0)
  {
    FilterConcat(tickets, [t], status);
    assert FilterStatus([t], status) == if t.status == status then [t] else [];
  }

  /** The three counts together never exceed the number of tickets. */
  lemma {:induction false} StatsBounded(tickets: seq<Ticket>)
    ensures ComputeStats(tickets).open + ComputeStats(tickets).pending + ComputeStats(tickets).resolved <= |tickets|
    decreases |tickets|
  {
    if tickets != [] {
      StatsBounded(tickets[1..]);
    }
  }

  /** When every ticket is open, the counters read (number of tickets, 0, 0). */
  lemma {:induction false} AllOpenStats(tickets: seq<Ticket>)
    requires forall t | t in tickets :: t.status == "open"
    ensures ComputeStats(tickets) == Stats(|tickets|, 0, 0)
    decreases |tickets|
  {
    if tickets != [] {
      AllOpenStats(tickets[1..]);
    }
  }

  // ---------------------------------------------------------------
  // Priority colours
  // ---------------------------------------------------------------

  const PRIORITY_COLORS: map<string, string> := map["low" := "#10b981", "medium" := "#f59e0b", "high" := "#ef4444"]

  /** `getPriorityColor`: the colour of a known priority, the medium colour otherwise. */
  function PriorityColor(priority: string): (color: string)
    ensures color in PRIORITY_COLORS.Values
    ensures priority in PRIORITY_COLORS ==> color == PRIORITY_COLORS[priority]
    ensures priority !in PRIORITY_COLORS ==> color == PRIORITY_COLORS["medium"]
  {
    if priority in PRIORITY_COLORS && PRIORITY_COLORS[priority] != "" then PRIORITY_COLORS[priority]
    else PRIORITY_COLORS["medium"]
  }

  /** The three priorities have three different colours, and anything else is shown as medium. */
  lemma PriorityColorsDistinct(priority: string)
    ensures PriorityColor("low") != PriorityColor("medium")
    ensures PriorityColor("medium") != PriorityColor("high")
    ensures PriorityColor("high") != PriorityColor("low")
    ensures priority != "low" && priority != "high" ==> PriorityColor(priority) == "#f59e0b"
  {
  }
}
