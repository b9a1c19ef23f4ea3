/**
 * Response generation (`generateResponse`): the detected category's canned
 * response and follow-up, or a fixed request for more details when no
 * category matches; the escalation actions are offered either way.
 */
module Responses {

  import opened Wrappers
  import opened Text
  import opened KnowledgeBase
  import opened Intent

  /** The reply record: body text, optional follow-up, intent name and whether to offer escalation. */
  datatype Response = Response(text: string, followUp: Option<string>, intent: string, showEscalate: bool)

  /** The generic clarification prompt, sent when no category matches. */
  const CLARIFICATION: string :=
    "I understand you're experiencing an issue. To help you better, could you please provide more details about:\n\n\U{2022} **What** exactly is happening?\n\U{2022} **When** did it start?\n\U{2022} **What** error messages (if any) are you seeing?\n\nOr you can use the **Quick Actions** on the left to select your issue type."

  /** The reply for a message that matches no category. */
  const GENERAL_RESPONSE: Response := Response(CLARIFICATION, None, "general", true)

  /** `knowledgeBase[intent]`: the first entry of `entries` for category `c`, if any. */
  function Lookup(entries: seq<Entry>, c: Category): (r: Option<Entry>)
    ensures r.Some? ==> r.value in entries && r.value.category == c
    ensures r.None? <==> forall i :: 0 <= i < |entries| ==> entries[i].category != c
    decreases |entries|
  {
    if entries == [] then None
    else if entries[0].category == c then Some(entries[0])
    else Lookup(entries[1..], c)
  }

  function GenerateResponse(message: string): (r: Response)
    ensures r.showEscalate
  {
    match IntentOf(message)
    case Some(c) =>
      (match Lookup(TABLE, c)
       case Some(e) => Response(e.response, Some(e.followUp), c.Name(), true)
       case None => GENERAL_RESPONSE)
    case None => GENERAL_RESPONSE
  }

  /** In a table with distinct categories, looking up the category of entry `i` finds entry `i`. */
  lemma {:induction false} LookupFindsEntry(entries: seq<Entry>, i: nat)
    requires DistinctCategories(entries)
    requires i < |entries|
    ensures Lookup(entries, entries[i].category) == Some(entries[i])
    decreases |entries|
  {
    if i > 0 {
      assert entries[1..][i - 1] == entries[i];
      assert DistinctCategories(entries[1..]) by {
        forall a, b | 0 <= a < b < |entries| - 1 ensures entries[1..][a].category != entries[1..][b].category {
          assert entries[1..][a] == entries[a + 1] && entries[1..][b] == entries[b + 1];
        }
      }
      LookupFindsEntry(entries[1..], i - 1);
    }
  }

  /**
   * When entry `i` is the first to match, the reply is that category's
   * response and follow-up, tagged with the category's name.
   */
  lemma MatchedReply(message: string, i: nat)
    requires IsFirstMatch(Lower(message), TABLE, i)
    ensures GenerateResponse(message) ==
      Response(TABLE[i].response, Some(TABLE[i].followUp), TABLE[i].category.Name(), true)
  {
    FirstMatchAt(Lower(message), TABLE, i);
    TableWellFormed();
    LookupFindsEntry(TABLE, i);
  }

  /**
   * The reply is the generic clarification, with no follow-up and intent
   * "general", exactly when no keyword of any category occurs in the lowered message.
   */
  lemma GeneralReplyIffNoKeyword(message: string)
    ensures GenerateResponse(message) == GENERAL_RESPONSE <==>
      forall i, k :: 0 <= i < |TABLE| && 0 <= k < |TABLE[i].keywords| ==>
        !Contains(Lower(message), TABLE[i].keywords[k])
  {
    NoIntentIffNoKeyword(message);
    if IntentOf(message).Some? {
      FirstMatchFound(Lower(message), TABLE);
      var i :| IsFirstMatch(Lower(message), TABLE, i) && TABLE[i].category == IntentOf(message).value;
      MatchedReply(message, i);
      assert GenerateResponse(message).followUp != GENERAL_RESPONSE.followUp;
    }
  }

  /** No category is called "general", so a matched reply never looks like the generic one. */
  lemma NameNotGeneral(c: Category)
    ensures c.Name() != "general"
  {
    assert c.Name()[0] != 'g';
  }

  /** A follow-up is attached exactly when some category matched. */
  lemma FollowUpIffMatched(message: string)
    ensures GenerateResponse(message).followUp.Some? <==> IntentOf(message).Some?
    ensures GenerateResponse(message).intent == "general" <==> IntentOf(message).None?
  {
    if IntentOf(message).Some? {
      FirstMatchFound(Lower(message), TABLE);
      var i :| IsFirstMatch(Lower(message), TABLE, i) && TABLE[i].category == IntentOf(message).value;
      MatchedReply(message, i);
      NameNotGeneral(TABLE[i].category);
    }
  }

  /** The login quick action ("log into", not "login") gets the generic clarification. */
  lemma LoginQuickActionGetsClarification()
    ensures GenerateResponse(LOGIN_QUICK_ACTION) == GENERAL_RESPONSE
    ensures GenerateResponse(LOGIN_QUICK_ACTION).intent == "general"
  {
    LoginQuickActionHasNoIntent();
  }
}
