/**
 * Intent detection (`detectIntent`): the input is lowered, the categories
 * are tried in declaration order and, within a category, the keywords in
 * declaration order; the first category with a keyword occurring in the
 * lowered input is the intent, and no match at all yields no intent.
 */
module Intent {

  import opened Wrappers
  import opened Text
  import opened KnowledgeBase

  /** Some keyword of `e` occurs in `text`. */
  predicate Matches(text: string, e: Entry)
  {
    exists k :: 0 <= k < |e.keywords| && Contains(text, e.keywords[k])
  }

  /** The category of the first entry of `entries` that matches `text`. */
  function FirstMatch(text: string, entries: seq<Entry>): Option<Category>
    decreases |entries|
  {
    if entries == [] then None
    else if Matches(text, entries[0]) then Some(entries[0].category)
    else FirstMatch(text, entries[1..])
  }

  /** The intent of a user message: the first matching category of the table, on the lowered text. */
  function IntentOf(message: string): Option<Category>
  {
    FirstMatch(Lower(message), TABLE)
  }

  /** Entry `i` matches and no entry before it does. */
  ghost predicate IsFirstMatch(text: string, entries: seq<Entry>, i: int)
  {
    0 <= i < |entries| && Matches(text, entries[i])
    && forall j :: 0 <= j < i ==> !Matches(text, entries[j])
  }

  /**
   * `detectIntent` as the script writes it: nested loops over the table and
   * the keywords, returning at the first keyword found.
   */
  method DetectIntent(message: string) returns (intent: Option<Category>)
    ensures intent == IntentOf(message)
  {
    var lowerMessage := Lower(message);
    for i := 0 to |TABLE|
      invariant FirstMatch(lowerMessage, TABLE[i..]) == FirstMatch(lowerMessage, TABLE)
    {
      var entry := TABLE[i];
      for k := 0 to |entry.keywords|
        invariant forall j :: 0 <= j < k ==> !Contains(lowerMessage, entry.keywords[j])
      {
        if Contains(lowerMessage, entry.keywords[k]) {
          assert Matches(lowerMessage, TABLE[i..][0]);
          return Some(entry.category);
        }
      }
      assert TABLE[i..][1..] == TABLE[i + 1..];
    }
    return None;
  }

  lemma {:induction false} FirstMatchAt(text: string, entries: seq<Entry>, i: int)
    requires IsFirstMatch(text, entries, i)
    ensures FirstMatch(text, entries) == Some(entries[i].category)
    decreases |entries|
  {
    if i > 0 {
      assert !Matches(text, entries[0]);
      assert IsFirstMatch(text, entries[1..], i - 1) by {
        forall j | 0 <= j < i - 1 ensures !Matches(text, entries[1..][j]) {
          assert entries[1..][j] == entries[j + 1];
        }
      }
      FirstMatchAt(text, entries[1..], i - 1);
    }
  }

  lemma {:induction false} FirstMatchFound(text: string, entries: seq<Entry>)
    requires FirstMatch(text, entries).Some?
    ensures exists i :: IsFirstMatch(text, entries, i) && entries[i].category == FirstMatch(text, entries).value
    decreases |entries|
  {
    if Matches(text, entries[0]) {
      assert IsFirstMatch(text, entries, 0);
    } else {
      FirstMatchFound(text, entries[1..]);
      var i :| IsFirstMatch(text, entries[1..], i) && entries[1..][i].category == FirstMatch(text, entries).value;
      assert IsFirstMatch(text, entries, i + 1) by {
        forall j | 0 <= j < i + 1 ensures !Matches(text, entries[j]) {
          if j > 0 {
            assert entries[j] == entries[1..][j - 1];
          }
        }
      }
    }
  }

  lemma {:induction false} FirstMatchNone(text: string, entries: seq<Entry>)
    ensures FirstMatch(text, entries) == None <==> forall i :: 0 <= i < |entries| ==> !Matches(text, entries[i])
    decreases |entries|
  {
    if entries != [] {
      FirstMatchNone(text, entries[1..]);
      if !Matches(text, entries[0]) {
        forall i | 0 <= i < |entries| && (forall j :: 0 <= j < |entries| - 1 ==> !Matches(text, entries[1..][j]))
          ensures !Matches(text, entries[i])
        {
          if i > 0 {
            assert entries[i] == entries[1..][i - 1];
          }
        }
      }
    }
  }

  /**
   * The intent is category `c` exactly when `c` has a keyword occurring in the
   * lowered message and no category declared before it does.
   */
  lemma IntentIsFirstMatchingCategory(message: string, c: Category)
    ensures IntentOf(message) == Some(c) <==>
      exists i :: IsFirstMatch(Lower(message), TABLE, i) && TABLE[i].category == c
  {
    if IntentOf(message) == Some(c) {
      FirstMatchFound(Lower(message), TABLE);
    }
    if exists i :: IsFirstMatch(Lower(message), TABLE, i) && TABLE[i].category == c {
      var i :| IsFirstMatch(Lower(message), TABLE, i) && TABLE[i].category == c;
      FirstMatchAt(Lower(message), TABLE, i);
    }
  }

  /** There is no intent exactly when no keyword of any category occurs in the lowered message. */
  lemma NoIntentIffNoKeyword(message: string)
    ensures IntentOf(message) == None <==>
      forall i, k :: 0 <= i < |TABLE| && 0 <= k < |TABLE[i].keywords| ==>
        !Contains(Lower(message), TABLE[i].keywords[k])
  {
    FirstMatchNone(Lower(message), TABLE);
  }

  /**
   * Ties go by declaration order, not by position in the text: when categories
   * `i < j` both match, the intent is a category declared no later than `i`,
   * and never that of `j`.
   */
  lemma EarlierCategoryWins(message: string, i: nat, j: nat)
    requires i < j < |TABLE|
    requires Matches(Lower(message), TABLE[i])
    ensures exists m :: 0 <= m <= i && IntentOf(message) == Some(TABLE[m].category)
    ensures IntentOf(message) != Some(TABLE[j].category)
  {
    TableWellFormed();
    FirstMatchNone(Lower(message), TABLE);
    FirstMatchFound(Lower(message), TABLE);
    var m :| IsFirstMatch(Lower(message), TABLE, m) && TABLE[m].category == IntentOf(message).value;
    assert m <= i;
  }

  /** Lowering or raising the case of the message does not change its intent. */
  lemma IntentIgnoresCase(message: string)
    ensures IntentOf(Lower(message)) == IntentOf(message)
    ensures IntentOf(Upper(message)) == IntentOf(message)
  {
    LowerIdempotent(message);
    assert Lower(Upper(message)) == Lower(message);
  }

  /** A message whose lowered text holds a password keyword is a password problem. */
  lemma PasswordKeywordDecides(message: string, k: nat)
    requires k < |PASSWORD_KEYWORDS|
    requires Contains(Lower(message), PASSWORD_KEYWORDS[k])
    ensures IntentOf(message) == Some(Password)
  {
    assert Matches(Lower(message), TABLE[0]);
    FirstMatchAt(Lower(message), TABLE, 0);
  }

  lemma LowerPasswordReset()
    ensures Lower("PASSWORD RESET") == "password reset"
    ensures Lower("password reset") == "password reset"
  {
  }

  lemma PasswordResetInAnyCase()
    ensures IntentOf("PASSWORD RESET") == Some(Password)
    ensures IntentOf("password reset") == Some(Password)
  {
    LowerPasswordReset();
    assert OccursAt("password reset", "password", 0);
    ContainsIff("password reset", "password");
    PasswordKeywordDecides("PASSWORD RESET", 0);
    PasswordKeywordDecides("password reset", 0);
  }

  /** Both "password" and "wifi" occur in "wifi password". */
  lemma WifiPasswordKeywords()
    ensures Contains("wifi password", "password")
    ensures Contains("wifi password", "wifi")
  {
    assert OccursAt("wifi password", "password", 5);
    ContainsIff("wifi password", "password");
    assert StartsWith("wifi password", "wifi");
  }

  /** A text holding an internet keyword matches the internet entry. */
  lemma InternetKeywordMatches(text: string, k: nat)
    requires k < |INTERNET_KEYWORDS|
    requires Contains(text, INTERNET_KEYWORDS[k])
    ensures Matches(text, TABLE[1])
  {
    assert TABLE[1].keywords[k] == INTERNET_KEYWORDS[k];
  }

  /**
   * A message containing "wifi password" in any case names an internet
   * keyword, but "password" is declared first and wins.
   */
  lemma WifiPasswordIsPassword(message: string)
    requires Contains(Lower(message), "wifi password")
    ensures Matches(Lower(message), TABLE[1])
    ensures IntentOf(message) == Some(Password)
  {
    WifiPasswordKeywords();
    ContainsTransitive(Lower(message), "wifi password", "password");
    ContainsTransitive(Lower(message), "wifi password", "wifi");
    PasswordKeywordDecides(message, 0);
    InternetKeywordMatches(Lower(message), 1);
  }

  /**
   * "cant login" is a password keyword, so any message containing it is a
   * password problem, although the login keyword "login" occurs in it too.
   */
  lemma CantLoginIsPassword(message: string)
    requires Contains(Lower(message), "cant login")
    ensures Matches(Lower(message), TABLE[3])
    ensures IntentOf(message) == Some(Password)
  {
    PasswordKeywordDecides(message, 5);
    assert OccursAt("cant login", "login", 5);
    ContainsIff("cant login", "login");
    ContainsTransitive(Lower(message), "cant login", "login");
    assert Contains(Lower(message), TABLE[3].keywords[0]);
  }

  /** The message the login quick action sends, and its lowered form. */
  const LOGIN_QUICK_ACTION: string := "I can't log into my account"
  const LOWERED_LOGIN_QUICK_ACTION: string := "i can't log into my account"

  lemma LowerLoginQuickAction()
    ensures Lower(LOGIN_QUICK_ACTION) == LOWERED_LOGIN_QUICK_ACTION
  {
  }

  lemma QuickActionLacksSome()
    ensures 'b' !in LOWERED_LOGIN_QUICK_ACTION && 'd' !in LOWERED_LOGIN_QUICK_ACTION
    ensures 'e' !in LOWERED_LOGIN_QUICK_ACTION && 'f' !in LOWERED_LOGIN_QUICK_ACTION
    ensures 'h' !in LOWERED_LOGIN_QUICK_ACTION
  {
  }

  lemma QuickActionLacksOthers()
    ensures 'k' !in LOWERED_LOGIN_QUICK_ACTION && 'p' !in LOWERED_LOGIN_QUICK_ACTION
    ensures 'r' !in LOWERED_LOGIN_QUICK_ACTION && 's' !in LOWERED_LOGIN_QUICK_ACTION
    ensures 'w' !in LOWERED_LOGIN_QUICK_ACTION
  {
  }

  /** In the lowered login query the only "g" is followed by a space, so "login" does not occur. */
  lemma LoginNotInQuickAction()
    ensures !Contains(LOWERED_LOGIN_QUICK_ACTION, "login")
  {
    var text := LOWERED_LOGIN_QUICK_ACTION;
    assert |text| == 27 && text[10] == 'g' && text[11] == ' ';
    assert 'g' !in text[..10] && 'g' !in text[11..];
    forall i | 0 <= i ensures !OccursAt(text, "login", i) {
      if i + 5 <= |text| {
        if i + 2 < 10 {
          assert text[..10][i + 2] == text[i + 2] != 'g';
        } else if i + 2 > 10 {
          assert text[11..][i + 2 - 11] == text[i + 2] != 'g';
        } else {
          assert text[i + 3] != 'i';
        }
        assert text[i..i + 5][2] == text[i + 2] && text[i..i + 5][3] == text[i + 3];
      }
    }
    ContainsIff(text, "login");
  }

  /** A text without "login" and without the characters p, r, f, k has no password keyword. */
  lemma NoPasswordKeyword(text: string)
    requires !Contains(text, "login")
    requires 'p' !in text && 'r' !in text && 'f' !in text && 'k' !in text
    ensures forall k | 0 <= k < |PASSWORD_KEYWORDS| :: !Contains(text, PASSWORD_KEYWORDS[k])
  {
    AbsentCharRefutes(text, "password", 'p');
    AbsentCharRefutes(text, "reset", 'r');
    AbsentCharRefutes(text, "forgot", 'f');
    AbsentCharRefutes(text, "change password", 'p');
    AbsentCharRefutes(text, "locked out", 'k');
    assert OccursAt("cant login", "login", 5);
    ContainsIff("cant login", "login");
    if Contains(text, "cant login") {
      ContainsTransitive(text, "cant login", "login");
    }
    forall k | 0 <= k < |PASSWORD_KEYWORDS| ensures !Contains(text, PASSWORD_KEYWORDS[k]) {
      assert PASSWORD_KEYWORDS[k] in PASSWORD_KEYWORDS;
    }
  }

  /** A text without the characters e, w, s, d has no internet keyword. */
  lemma NoInternetKeyword(text: string)
    requires 'e' !in text && 'w' !in text && 's' !in text && 'd' !in text
    ensures forall k | 0 <= k < |INTERNET_KEYWORDS| :: !Contains(text, INTERNET_KEYWORDS[k])
  {
    AbsentCharRefutes(text, "internet", 'e');
    AbsentCharRefutes(text, "wifi", 'w');
    AbsentCharRefutes(text, "network", 'e');
    AbsentCharRefutes(text, "connection", 'e');
    AbsentCharRefutes(text, "slow", 's');
    AbsentCharRefutes(text, "disconnect", 'd');
    AbsentCharRefutes(text, "no internet", 'e');
    AbsentCharRefutes(text, "cant connect", 'e');
    forall k | 0 <= k < |INTERNET_KEYWORDS| ensures !Contains(text, INTERNET_KEYWORDS[k]) {
      assert INTERNET_KEYWORDS[k] in INTERNET_KEYWORDS;
    }
  }

  /** A text without the characters s, e, r, w, p, b has no software keyword. */
  lemma NoSoftwareKeyword(text: string)
    requires 's' !in text && 'e' !in text && 'r' !in text && 'w' !in text && 'p' !in text && 'b' !in text
    ensures forall k | 0 <= k < |SOFTWARE_KEYWORDS| :: !Contains(text, SOFTWARE_KEYWORDS[k])
  {
    AbsentCharRefutes(text, "software", 's');
    AbsentCharRefutes(text, "error", 'e');
    AbsentCharRefutes(text, "crash", 'r');
    AbsentCharRefutes(text, "not working", 'w');
    AbsentCharRefutes(text, "application", 'p');
    AbsentCharRefutes(text, "program", 'p');
    AbsentCharRefutes(text, "install", 's');
    AbsentCharRefutes(text, "update", 'p');
    AbsentCharRefutes(text, "bug", 'b');
    forall k | 0 <= k < |SOFTWARE_KEYWORDS| ensures !Contains(text, SOFTWARE_KEYWORDS[k]) {
      assert SOFTWARE_KEYWORDS[k] in SOFTWARE_KEYWORDS;
    }
  }

  /** A text without "login" and without the characters s, e, h, d has no login keyword. */
  lemma NoLoginKeyword(text: string)
    requires !Contains(text, "login")
    requires 's' !in text && 'e' !in text && 'h' !in text && 'd' !in text
    ensures forall k | 0 <= k < |LOGIN_KEYWORDS| :: !Contains(text, LOGIN_KEYWORDS[k])
  {
    AbsentCharRefutes(text, "sign in", 's');
    AbsentCharRefutes(text, "access", 'e');
    AbsentCharRefutes(text, "authentication", 'h');
    AbsentCharRefutes(text, "cant access", 'e');
    AbsentCharRefutes(text, "denied", 'd');
    AbsentCharRefutes(text, "unauthorized", 'h');
    forall k | 0 <= k < |LOGIN_KEYWORDS| ensures !Contains(text, LOGIN_KEYWORDS[k]) {
      assert LOGIN_KEYWORDS[k] in LOGIN_KEYWORDS;
    }
  }

  /** A text without the characters h, s, k, r, p, b has no hardware keyword. */
  lemma NoHardwareKeyword(text: string)
    requires 'h' !in text && 's' !in text && 'k' !in text && 'r' !in text && 'p' !in text && 'b' !in text
    ensures forall k | 0 <= k < |HARDWARE_KEYWORDS| :: !Contains(text, HARDWARE_KEYWORDS[k])
  {
    AbsentCharRefutes(text, "hardware", 'h');
    AbsentCharRefutes(text, "screen", 's');
    AbsentCharRefutes(text, "keyboard", 'k');
    AbsentCharRefutes(text, "mouse", 's');
    AbsentCharRefutes(text, "monitor", 'r');
    AbsentCharRefutes(text, "printer", 'p');
    AbsentCharRefutes(text, "broken", 'b');
    AbsentCharRefutes(text, "not responding", 'r');
    forall k | 0 <= k < |HARDWARE_KEYWORDS| ensures !Contains(text, HARDWARE_KEYWORDS[k]) {
      assert HARDWARE_KEYWORDS[k] in HARDWARE_KEYWORDS;
    }
  }

  /**
   * A message whose lowered text lacks "login" and the characters b, d, e, f,
   * h, k, p, r, s and w matches no keyword of any category.
   */
  lemma NoIntentWithoutKeyLetters(message: string)
    requires !Contains(Lower(message), "login")
    requires 'b' !in Lower(message) && 'd' !in Lower(message) && 'e' !in Lower(message)
    requires 'f' !in Lower(message) && 'h' !in Lower(message) && 'k' !in Lower(message)
    requires 'p' !in Lower(message) && 'r' !in Lower(message) && 's' !in Lower(message)
    requires 'w' !in Lower(message)
    ensures IntentOf(message) == None
  {
    var text := Lower(message);
    NoPasswordKeyword(text);
    NoInternetKeyword(text);
    NoSoftwareKeyword(text);
    NoLoginKeyword(text);
    NoHardwareKeyword(text);
    TableKeywords();
    FirstMatchNone(text, TABLE);
  }

  /**
   * The login quick action matches no category: "log into" is not "login",
   * and every other keyword holds a character the message lacks.
   */
  lemma LoginQuickActionHasNoIntent()
    ensures IntentOf(LOGIN_QUICK_ACTION) == None
  {
    LowerLoginQuickAction();
    QuickActionLacksSome();
    QuickActionLacksOthers();
    LoginNotInQuickAction();
    NoIntentWithoutKeyLetters(LOGIN_QUICK_ACTION);
  }
}
