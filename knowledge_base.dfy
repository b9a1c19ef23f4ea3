/**
 * The knowledge base of the helpdesk assistant: an ordered table of issue
 * categories, each with its trigger keywords, its canned troubleshooting
 * response and its escalation follow-up. Declaration order is significant:
 * intent detection returns the first category that matches.
 */
module KnowledgeBase {

  import Text

  datatype Category = Password | Internet | Software | Login | Hardware
  {
    /** The identifier the script uses for the category (the key in its table). */
    function Name(): string
    {
      match this
      case Password => "password"
      case Internet => "internet"
      case Software => "software"
      case Login => "login"
      case Hardware => "hardware"
    }
  }

  /** One row of the table: a category, its keywords in the script's order, its canned response and its follow-up. */
  datatype Entry = Entry(category: Category, keywords: seq<string>, response: string, followUp: string)

  const PASSWORD_KEYWORDS: seq<string> :=
    ["password", "reset", "forgot", "change password", "locked out", "cant login"]
  const INTERNET_KEYWORDS: seq<string> :=
    ["internet", "wifi", "network", "connection", "slow", "disconnect", "no internet", "cant connect"]
  const SOFTWARE_KEYWORDS: seq<string> :=
    ["software", "error", "crash", "not working", "application", "program", "install", "update", "bug"]
  const LOGIN_KEYWORDS: seq<string> :=
    ["login", "sign in", "access", "authentication", "cant access", "denied", "unauthorized"]
  const HARDWARE_KEYWORDS: seq<string> :=
    ["hardware", "screen", "keyboard", "mouse", "monitor", "printer", "broken", "not responding"]

  const PASSWORD_RESPONSE: string :=
    "I can help you with password issues! Here's what you can try:\n\n**Step 1:** Go to the company login portal\n**Step 2:** Click \"Forgot Password\" below the login form\n**Step 3:** Enter your work email address\n**Step 4:** Check your email for a reset link (including spam folder)\n**Step 5:** Create a new password (min 8 chars, 1 number, 1 special char)\n\n\U{23F1}\U{FE0F} The reset link expires in 24 hours.\n\nDid this solve your issue?"
  const PASSWORD_FOLLOW_UP: string :=
    "If you're still having trouble, I can create a support ticket to have IT manually reset your password."
  const INTERNET_RESPONSE: string :=
    "Let's troubleshoot your internet connection:\n\n**Step 1:** Check if other devices can connect\n**Step 2:** Restart your computer\n**Step 3:** Disconnect and reconnect to the network\n**Step 4:** Forget the network and re-enter credentials\n**Step 5:** Try connecting via ethernet if available\n\n\U{1F527} **Quick Fix:** Press Win+R, type \"ncpa.cpl\", right-click your adapter \U{2192} Disable, wait 10 seconds, then Enable.\n\nIs your connection working now?"
  const INTERNET_FOLLOW_UP: string :=
    "If the issue persists, it might be a network infrastructure problem. I can escalate this to our network team."
  const SOFTWARE_RESPONSE: string :=
    "I'll help you resolve this software issue:\n\n**Step 1:** Close the application completely\n**Step 2:** Check Task Manager (Ctrl+Shift+Esc) for any running processes\n**Step 3:** Clear the application cache/temp files\n**Step 4:** Run the application as Administrator\n**Step 5:** Check for available updates\n\n\U{1F504} **If it keeps crashing:** Try repairing the installation via Control Panel \U{2192} Programs \U{2192} Repair.\n\nWhat application are you having trouble with?"
  const SOFTWARE_FOLLOW_UP: string :=
    "If the problem continues, I can create a ticket for our software team to investigate further."
  const LOGIN_RESPONSE: string :=
    "Let's fix your login issue:\n\n**Step 1:** Verify you're using the correct username (usually your email)\n**Step 2:** Check if Caps Lock is on\n**Step 3:** Clear browser cookies and cache\n**Step 4:** Try a different browser or incognito mode\n**Step 5:** Check if your account is active in the directory\n\n\U{1F510} **Account locked?** Wait 30 minutes for automatic unlock, or contact IT.\n\nWhich system are you trying to access?"
  const LOGIN_FOLLOW_UP: string :=
    "If you're still locked out, I can escalate to have your account verified and unlocked."
  const HARDWARE_RESPONSE: string :=
    "For hardware issues, here are some initial steps:\n\n**Step 1:** Check all cable connections\n**Step 2:** Try restarting the device\n**Step 3:** Test with different cables/ports if available\n**Step 4:** Check Device Manager for driver issues\n**Step 5:** Try the hardware on a different computer\n\n\U{1F50C} **Power issues?** Try a different outlet or power strip.\n\nWhat specific hardware is causing problems?"
  const HARDWARE_FOLLOW_UP: string :=
    "Hardware issues often require physical inspection. I can create a ticket for an IT technician to assist you."

  /** The table in declaration order: password, internet, software, login, hardware. */
  const TABLE: seq<Entry> := [
    Entry(Password, PASSWORD_KEYWORDS, PASSWORD_RESPONSE, PASSWORD_FOLLOW_UP),
    Entry(Internet, INTERNET_KEYWORDS, INTERNET_RESPONSE, INTERNET_FOLLOW_UP),
    Entry(Software, SOFTWARE_KEYWORDS, SOFTWARE_RESPONSE, SOFTWARE_FOLLOW_UP),
    Entry(Login, LOGIN_KEYWORDS, LOGIN_RESPONSE, LOGIN_FOLLOW_UP),
    Entry(Hardware, HARDWARE_KEYWORDS, HARDWARE_RESPONSE, HARDWARE_FOLLOW_UP)
  ]

  /** Each category appears at most once in `entries`. */
  predicate DistinctCategories(entries: seq<Entry>)
  {
    forall i, j :: 0 <= i < j < |entries| ==> entries[i].category != entries[j].category
  }

  /** Every keyword is non-empty and lower case, so that it can match lowered input. */
  predicate LowerCaseKeywords(entries: seq<Entry>)
  {
    forall i, k :: 0 <= i < |entries| && 0 <= k < |entries[i].keywords| ==>
      entries[i].keywords[k] != [] && Text.IsLowerCase(entries[i].keywords[k])
  }

  /**
   * Every keyword of the list is non-empty and lower case. This says the same
   * as `Text.IsLowerCase` of each keyword, but by character membership
   * rather than by index, which is much cheaper to check on literal lists;
   * `TableWellFormed` converts it to `Text.IsLowerCase`.
   */
  ghost predicate LowerCaseList(keywords: seq<string>)
  {
    forall kw | kw in keywords :: kw != [] && forall c | c in kw :: !('A' <= c <= 'Z')
  }

  lemma PasswordKeywordsLowerCase()
    ensures LowerCaseList(PASSWORD_KEYWORDS)
  {
  }

  lemma InternetKeywordsLowerCase()
    ensures LowerCaseList(INTERNET_KEYWORDS)
  {
  }

  lemma SoftwareKeywordsLowerCase()
    ensures LowerCaseList(SOFTWARE_KEYWORDS)
  {
  }

  lemma LoginKeywordsLowerCase()
    ensures LowerCaseList(LOGIN_KEYWORDS)
  {
  }

  lemma HardwareKeywordsLowerCase()
    ensures LowerCaseList(HARDWARE_KEYWORDS)
  {
  }

  lemma TableWellFormed()
    ensures |TABLE| == 5
    ensures DistinctCategories(TABLE)
    ensures LowerCaseKeywords(TABLE)
  {
    PasswordKeywordsLowerCase();
    InternetKeywordsLowerCase();
    SoftwareKeywordsLowerCase();
    LoginKeywordsLowerCase();
    HardwareKeywordsLowerCase();
    forall i, k | 0 <= i < |TABLE| && 0 <= k < |TABLE[i].keywords|
      ensures TABLE[i].keywords[k] != [] && Text.IsLowerCase(TABLE[i].keywords[k])
    {
      assert TABLE[i].keywords[k] in TABLE[i].keywords;
      assert LowerCaseList(TABLE[i].keywords);
      var kw := TABLE[i].keywords[k];
      forall j | 0 <= j < |kw| ensures !('A' <= kw[j] <= 'Z') {
        assert kw[j] in kw;
      }
    }
  }

  lemma TableKeywords()
    ensures |TABLE| == 5
    ensures TABLE[0].category == Password && TABLE[0].keywords == PASSWORD_KEYWORDS
    ensures TABLE[1].category == Internet && TABLE[1].keywords == INTERNET_KEYWORDS
    ensures TABLE[2].category == Software && TABLE[2].keywords == SOFTWARE_KEYWORDS
    ensures TABLE[3].category == Login && TABLE[3].keywords == LOGIN_KEYWORDS
    ensures TABLE[4].category == Hardware && TABLE[4].keywords == HARDWARE_KEYWORDS
  {
  }
}
