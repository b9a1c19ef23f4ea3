# IT help-desk chat widget: a verified model

This project models the logic inside the help-desk chat widget's script,
`ai-helpdesk-chatbot/static/script.js`. Most of that script is DOM wiring. The core has four parts:

- **The knowledge base.** Five categories, in declaration order: password, internet, software, login
  and hardware. Each has keywords, a canned response and a follow-up (`knowledge_base.dfy`). It is an
  ordered sequence of entries, because the order decides ties.
- **Intent detection and the reply.** `detectIntent` lowers the message. It returns the first
  category, in declaration order, that has a keyword occurring in the lowered message, and `null` when
  there is none. `generateResponse` turns that category into that category's reply, or into a generic
  request for clarification (`intent.dfy`, `responses.dfy`). The string operations used here
  (`toLowerCase`, `toUpperCase`, `includes`, `trim`) are in `text.dfy`.
- **Tickets.** A new ticket gets:
  - an id of the form `TKT-` followed by the upper-cased base-36 timestamp;
  - the default description when the form's description is empty;
  - the selected priority, status `open`, and `escalated` set.

  The sidebar counters are derived by filtering the ticket list by status. `getPriorityColor` maps a
  priority to its colour (`tickets.dfy`).
- **The session.** Four of the page's five module-level variables are `tickets`, `messages`,
  `selectedPriority` and `isProcessing`. They are the fields of the class `Session.HelpDesk`, whose
  methods are the handlers that change them (`session.dfy`):
  - a user turn, guarded by the busy flag and by the trimmed input being non-empty;
  - the priority buttons;
  - ticket creation, kept in memory when no data SDK is installed and handed to the SDK otherwise;
  - the SDK's `onDataChanged` callback, which replaces the ticket list.

The script's inputs from its environment are parameters of the methods:

- `Date.now()` is a `nat`.
- Each `new Date().toISOString()` is a string.
- Whether `window.dataSdk` exists, and what its `create` returned, is a `Backend` value.

Ticket fields are named in camelCase (`ticketId` for `ticket_id`, and so on). Statuses and priorities
are kept as strings, because the SDK may hand back any record.

## Model

| member | source | states |
|---|---|---|
| KnowledgeBase.TableWellFormed | ai-helpdesk-chatbot/static/script.js:14-90 | the table has five entries with distinct categories, and every keyword is non-empty and already lower case |
| Text.ContainsIff | ai-helpdesk-chatbot/static/script.js:101 | `includes` holds exactly when the pattern occurs at some position of the text |
| Text.TrimEmptyIff | ai-helpdesk-chatbot/static/script.js:220 | `message.trim()` is empty exactly when every character is ECMAScript white space or a line terminator |
| Intent.DetectIntent | ai-helpdesk-chatbot/static/script.js:97-107 | the nested loop with early return yields the category found by the recursive first-match definition |
| Intent.IntentIsFirstMatchingCategory | ai-helpdesk-chatbot/static/script.js:97-107 | the intent is `c` if and only if some keyword of `c` occurs in the lowered message and no earlier category has one |
| Intent.NoIntentIffNoKeyword | ai-helpdesk-chatbot/static/script.js:97-107 | the result is `null` if and only if no keyword of any category occurs in the lowered message |
| Intent.EarlierCategoryWins | ai-helpdesk-chatbot/static/script.js:99-104 | when categories `i < j` both match, the result is a category declared no later than `i`, and never `j` |
| Intent.IntentIgnoresCase | ai-helpdesk-chatbot/static/script.js:98 | lowering or upper-casing the message does not change its intent |
| Intent.PasswordKeywordDecides | ai-helpdesk-chatbot/static/script.js:15-16 | any message containing a password keyword, in any case, is a password problem |
| Intent.PasswordResetInAnyCase | ai-helpdesk-chatbot/static/script.js:98-101 | "PASSWORD RESET" and "password reset" are both password problems |
| Intent.WifiPasswordIsPassword | ai-helpdesk-chatbot/static/script.js:14-31 | any message containing "wifi password", in any case, matches the internet entry too, but password, declared first, wins |
| Intent.CantLoginIsPassword | ai-helpdesk-chatbot/static/script.js:14-61 | any message containing "cant login" matches the login entry as well, yet is a password problem |
| Intent.LoginQuickActionHasNoIntent | ai-helpdesk-chatbot/static/script.js:246 | the login quick action "I can't log into my account" contains no keyword of any category |
| Responses.Lookup | ai-helpdesk-chatbot/static/script.js:113 | `knowledgeBase[intent]` finds an entry of that category, and finds nothing exactly when no entry has it |
| Responses.GenerateResponse | ai-helpdesk-chatbot/static/script.js:110-133 | every reply offers escalation (`showEscalate` is true) |
| Responses.LookupFindsEntry | ai-helpdesk-chatbot/static/script.js:113 | in a table with distinct categories, looking up entry `i`'s category returns entry `i` |
| Responses.MatchedReply | ai-helpdesk-chatbot/static/script.js:113-119 | when entry `i` is the first to match, the reply is its response and follow-up, tagged with its category's name |
| Responses.GeneralReplyIffNoKeyword | ai-helpdesk-chatbot/static/script.js:122-132 | the reply is the clarification text with no follow-up and intent "general" if and only if no keyword occurs |
| Responses.FollowUpIffMatched | ai-helpdesk-chatbot/static/script.js:110-133 | the reply has a follow-up exactly when a category matched, and intent "general" exactly when none did |
| Responses.LoginQuickActionGetsClarification | ai-helpdesk-chatbot/static/script.js:246 | the login quick action gets the generic clarification with intent "general" |
| Tickets.Radix36RoundTrip | ai-helpdesk-chatbot/static/script.js:321 | reading the upper-cased base-36 numeral of `now` back gives `now` |
| Tickets.TicketIdShape | ai-helpdesk-chatbot/static/script.js:321 | every id is "TKT-" followed by at least one digit or upper-case letter |
| Tickets.TicketIdInjective | ai-helpdesk-chatbot/static/script.js:321 | tickets stamped at different timestamps get different ids |
| Tickets.NewTicket | ai-helpdesk-chatbot/static/script.js:320-328 | the new ticket is open and escalated, has the given priority, type and time, the id stamped from `now` (so starting "TKT-"), and a description that is the default exactly when the input is empty |
| Tickets.FilterStatus | ai-helpdesk-chatbot/static/script.js:410-412 | the filtered list holds exactly the tickets with the given status, and is no longer than the list |
| Tickets.FilterMultiplicity | ai-helpdesk-chatbot/static/script.js:410-412 | filtering keeps each ticket with the status exactly as often as it occurs in the list, and drops every other ticket |
| Tickets.CountIsMultiplicity | ai-helpdesk-chatbot/static/script.js:410-412 | each counter equals the number of occurrences of its status among the tickets' statuses |
| Tickets.CountAppend | ai-helpdesk-chatbot/static/script.js:409-412 | appending a ticket raises its own status's count by one and leaves the other counts as they were |
| Tickets.StatsBounded | ai-helpdesk-chatbot/static/script.js:409-412 | open + pending + resolved never exceeds the number of tickets |
| Tickets.AllOpenStats | ai-helpdesk-chatbot/static/script.js:409-412 | when every ticket is open, the counters read (number of tickets, 0, 0) |
| Tickets.PriorityColor | ai-helpdesk-chatbot/static/script.js:304-311 | the colour is always one of the three, a known priority's own colour, and the medium colour for any other value |
| Tickets.PriorityColorsDistinct | ai-helpdesk-chatbot/static/script.js:305-309 | low, medium and high have three different colours, and everything that is not low or high is shown as medium |
| Session.NoticesNameTicket | ai-helpdesk-chatbot/static/script.js:332-338 | both success notices quote the ticket id and the upper-cased priority |
| Session.HelpDesk.constructor | ai-helpdesk-chatbot/static/script.js:8-11 | a page starts with no tickets, no messages, medium priority, not busy, and all counters zero |
| Session.HelpDesk.SetPriority | ai-helpdesk-chatbot/static/script.js:291-292 | the selected priority becomes the given one, and nothing else changes |
| Session.HelpDesk.ShowCreateTicketModal | ai-helpdesk-chatbot/static/script.js:277-281 | opening the ticket form resets the selected priority to medium |
| Session.HelpDesk.SendThankYou | ai-helpdesk-chatbot/static/script.js:255-257 | one bot message, the closing thanks, is logged |
| Session.HelpDesk.CreateTicket | ai-helpdesk-chatbot/static/script.js:314-374 | in memory, exactly one new open ticket at the selected priority is appended, the open count rises by one and the success notice is logged. With the SDK, the local list is untouched whether `create` succeeds or fails, and the matching notice is logged |
| Session.HelpDesk.OnDataChanged | ai-helpdesk-chatbot/static/script.js:425-429 | the ticket list becomes exactly the SDK's data, and the counters are recomputed from it |
| Session.HelpDesk.BeginTurn | ai-helpdesk-chatbot/static/script.js:219-223 | a message is taken if and only if the session is idle and the trimmed input is non-empty; if taken, the session turns busy and logs the user's message, otherwise nothing changes |
| Session.HelpDesk.CompleteTurn | ai-helpdesk-chatbot/static/script.js:230-237 | the bot's reply text is logged and the session is idle again |
| Session.HelpDesk.HandleUserMessage | ai-helpdesk-chatbot/static/script.js:219-238 | a busy session or blank input changes nothing. Otherwise exactly two messages are logged, the user's and then the bot's reply, and the session ends idle |
| Session.FileTicketsInMemory | ai-helpdesk-chatbot/static/script.js:320-340 | from a fresh page without SDK, n ticket creations leave the counters at (n, 0, 0) |
| Session.OverlappingMessages | ai-helpdesk-chatbot/static/script.js:219-238 | a message sent while a reply is pending is ignored: the log holds only the first message and its reply |

## Left out

- Text.Lower: only ASCII letters are mapped. JavaScript's `toLowerCase` maps all of Unicode. The keywords are ASCII, so a non-ASCII letter whose lower case is ASCII (for example KELVIN SIGN to "k") would match in the script but not in the model.
- Text.Upper: for the same reason, the priority in a ticket notice is upper-cased for ASCII letters only.
- Intent.IntentIgnoresCase: the upper-case half holds only because case mapping is ASCII. In JavaScript, "wiﬁ" (with the ligature U+FB01) upper-cases to "WIFI", which matches internet, and "ßlow" upper-cases to "SSLOW", which matches slow, so upper-casing can change the intent there.
- Tickets.PriorityColor: the script looks up a plain object, so keys inherited from `Object.prototype` (such as "constructor") return a function, not a colour. The model treats every unknown priority as medium.
- Tickets.TicketIdInjective: ids are distinct only for distinct timestamps. Two tickets created in the same millisecond get the same id, as in the script.
- DOM rendering is not modelled:
  - `addMessage`'s HTML (only its `messages.push` is modelled);
  - the typing indicator;
  - `renderTicketsList`;
  - `showTicketsModal`, `hideTicketsModal` and `hideCreateTicketModal`;
  - the submit button's disabled state;
  - `init`'s event wiring;
  - the config and branding text.
- `escapeHtml` relies on the browser's `textContent`/`innerHTML` round trip, a foreign call.
- `formatMarkdown` is not modelled: JavaScript regular-expression replacement is out of proportion to its value.
- `handleQuickAction` fills the input and dispatches a submit event, which is DOM I/O. Its login query appears only as the constant `Intent.LOGIN_QUICK_ACTION`.
- The `config` variable (script.js:7, the fifth module-level variable) is not modelled. It is never reassigned and only supplies the company name, the bot name and the welcome text to the page.
- `init`'s welcome message is not modelled. In the script a loaded page's log starts with that bot message, so `Session.HelpDesk.constructor`, `Session.FileTicketsInMemory` and `Session.OverlappingMessages` start from an empty log where the page would hold one message.
- Clock readings (`Date.now()`, `new Date().toISOString()`) are method parameters. The Turn methods take one timestamp per logged message.
- The 1-2 second random pause in `handleUserMessage` is not modelled. `BeginTurn` and `CompleteTurn` are the two halves on either side of the pause. `HandleUserMessage` is the turn with nothing interleaved.
- `window.dataSdk` (`init`, `create`) is an external collaborator. Only its presence and the `isOk` result of `create` are modelled, as `Session.Backend`.
