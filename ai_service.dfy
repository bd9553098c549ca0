/**
 * The response composer (app/services/ai_service.py): decides whether an
 * inbound message is a first-contact greeting, picks one of three prompt
 * modes, builds the prompt for the language model, cleans what comes back,
 * and falls back to canned replies when nothing usable does.
 *
 * The model call is a parameter `generator`: it receives the full prompt and
 * yields the text, or `None` for a timeout, an API error or an empty answer.
 * The clock is the parameter `now` (seconds); the measured generation time is
 * the parameter `elapsedMs`.
 */
module AiService {
  import opened Options
  import opened Text

  // ---------------------------------------------------------------------
  // Conversation history
  // ---------------------------------------------------------------------

  /**
   * The `timestamp` of a stored record: the key is missing, its value cannot
   * be parsed or compared with the current time, or a time in seconds.
   */
  datatype Timestamp = Absent | Unusable | At(seconds: int)

  /** The fields of a stored conversation record that the composer reads. */
  datatype Conversation = Conversation(userMessage: Option<string>, aiResponse: Option<string>, timestamp: Timestamp)

  /** Python truthiness of `Optional[List[Dict]]`: neither `None` nor empty. */
  predicate HasHistory(history: Option<seq<Conversation>>) {
    history.Some? && history.value != []
  }

  /** Six hours: a newest record older than this starts a new conversation. */
  const StaleAfterSeconds: int := 6 * 60 * 60

  /**
   * `_is_first_interaction`. `history[0]` is the newest record. A missing or
   * unusable timestamp makes the answer false.
   */
  function IsFirstInteraction(history: Option<seq<Conversation>>, now: int): (first: bool)
    ensures first ==> !HasHistory(history) || history.value[0].timestamp.At?
  {
    if !HasHistory(history) then true
    else
      match history.value[0].timestamp
      case At(t) => now - t > StaleAfterSeconds
      case Absent => false
      case Unusable => false
  }

  lemma NoHistoryIsFirst(now: int)
    ensures IsFirstInteraction(None, now)
    ensures IsFirstInteraction(Some([]), now)
  {
  }

  /** With a usable timestamp the cut-off is strict: exactly six hours is not stale. */
  lemma StaleCutoff(history: seq<Conversation>, now: int)
    requires history != [] && history[0].timestamp.At?
    ensures IsFirstInteraction(Some(history), now) <==> now - history[0].timestamp.seconds > StaleAfterSeconds
    ensures now - history[0].timestamp.seconds == 6 * 3600 ==> !IsFirstInteraction(Some(history), now)
  {
  }

  /** The conservative case: history without a usable timestamp is a continuing conversation. */
  lemma NoUsableTimestampIsNotFirst(history: seq<Conversation>, now: int)
    requires history != [] && !history[0].timestamp.At?
    ensures !IsFirstInteraction(Some(history), now)
  {
  }

  // ---------------------------------------------------------------------
  // Greeting detection and the personalisation flag
  // ---------------------------------------------------------------------

  const Greetings: seq<string> := [
    "salam", "assalam", "aoa", "assalamu alaikum", "hello", "hi", "hey",
    "good morning", "good afternoon", "good evening", "namaste", "adab"
  ]

  /** `message.lower().strip()`. */
  function Normalized(message: string): (r: string)
    ensures |r| <= |message|
  {
    Strip(Lower(message))
  }

  /** `_is_greeting_message`: some greeting token is a substring of the normalised message. */
  function IsGreetingMessage(message: string): (r: bool)
    ensures r <==> exists k :: 0 <= k < |Greetings| && Contains(Normalized(message), Greetings[k])
  {
    ContainsAny(Normalized(message), Greetings)
  }

  /** Where the tokens the examples rely on sit in their lists. */
  lemma TokenPositions()
    ensures Greetings[4] == "hello" && Greetings[5] == "hi"
    ensures SalamTokens[0] == "salam" && HelloTokens[1] == "hi" && ThanksTokens[0] == "thanks"
  {
  }

  /** A message whose normalised form contains the `k`-th token is a greeting. */
  lemma GreetingByToken(message: string, k: nat)
    requires k < |Greetings| && Contains(Normalized(message), Greetings[k])
    ensures IsGreetingMessage(message)
  {
  }

  /** Substring matching: "this" is a greeting because it contains "hi". */
  lemma ThisIsAGreeting()
    ensures IsGreetingMessage("this")
  {
    LowerLowercase("this");
    ContainsAt("this", "hi", 1);
    TokenPositions();
    GreetingByToken("this", 5);
  }

  /** Case does not matter: "Hello" is a greeting. */
  lemma CapitalHelloIsAGreeting()
    ensures IsGreetingMessage("Hello")
  {
    LowerHello();
    ContainsAt("hello", "hello", 0);
    TokenPositions();
    GreetingByToken("Hello", 4);
  }

  /** "ok" contains no greeting token. */
  lemma OkIsNoGreeting()
    ensures !IsGreetingMessage("ok")
  {
    LowerLowercase("ok");
    forall k | 0 <= k < |Greetings|
      ensures !Contains("ok", Greetings[k])
    {
      if k == 5 {
        NoCharNoContain("ok", "hi");
      } else {
        TooShortToContain("ok", Greetings[k]);
      }
    }
  }

  /** `lower()` and `strip()` leave a short lower-case word alone. */
  lemma LowerLowercase(s: string)
    requires forall i :: 0 <= i < |s| ==> 'a' <= s[i] <= 'z'
    ensures Normalized(s) == s
  {
    assert Lower(s) == s;
    if s != [] {
      assert !IsSpace(s[0]) && !IsSpace(s[|s| - 1]);
    }
  }

  lemma LowerHello()
    ensures Normalized("Hello") == "hello"
  {
    assert Lower("Hello") == "hello";
    LowerLowercase("hello");
  }

  /** Python truthiness of `user_name: Optional[str]`. */
  predicate HasName(userName: Option<string>) {
    userName.Some? && userName.value != []
  }

  /** `use_personalized_greeting = is_first and is_greeting and user_name`. */
  function UsePersonalizedGreeting(message: string, history: Option<seq<Conversation>>, userName: Option<string>, now: int): (personalize: bool)
    ensures personalize <==>
              && IsGreetingMessage(message)
              && userName.Some? && userName.value != []
              && (|| !HasHistory(history)
                  || (history.value[0].timestamp.At? && now - history.value[0].timestamp.seconds > StaleAfterSeconds))
  {
    IsFirstInteraction(history, now) && IsGreetingMessage(message) && HasName(userName)
  }

  // ---------------------------------------------------------------------
  // Prompt modes and prompt assembly
  // ---------------------------------------------------------------------

  datatype PromptMode = PersonalizedGreeting(name: string) | ContinuingConversation | ColdStart

  /** The text an f-string shows for `user_name`. */
  function NameText(userName: Option<string>): string {
    match userName
    case Some(n) => n
    case None => "None"
  }

  /** The mode chosen at the top of `_generate_gemini_response`, by precedence. */
  function SelectMode(personalize: bool, history: Option<seq<Conversation>>, userName: Option<string>): (mode: PromptMode)
    ensures mode.PersonalizedGreeting? <==> personalize
    ensures mode.ContinuingConversation? <==> !personalize && HasHistory(history)
    ensures mode.ColdStart? <==> !personalize && !HasHistory(history)
    ensures mode.PersonalizedGreeting? && userName.Some? ==> mode.name == userName.value
  {
    if personalize then PersonalizedGreeting(NameText(userName))
    else if HasHistory(history) then ContinuingConversation
    else ColdStart
  }

  /** The rule every mode's instructions carry. */
  const NoTransportRule: string :=
    "- NEVER mention WhatsApp, messaging apps, or customer support unless specifically asked"

  const PersonalizedOpening: string :=
    "You are a helpful, intelligent AI assistant. This is your first interaction with the user.\n\nCRITICAL RULES:\n"
    + "- The user's name appears to be "

  function PersonalizedRules(name: string): string {
    ", so you can greet them personally this ONE time\n"
    + "- If they say Islamic greeting (Salam, AOA, Assalam), respond with \"Walaikum Assalam " + name + "!\"\n"
    + "- If they say other greetings, respond naturally with their name once\n"
    + "- Be warm, friendly, and professional\n"
    + "- Ask how you can help them today\n"
    + "- Keep response under 100 words\n"
    + "- NEVER mention WhatsApp, messaging apps, or customer support\n"
    + "# In system_prompt sections, make sure this line exists:\n"
  }

  const PersonalizedClosing: string :=
    "\n- After this greeting, NEVER use their name again unless they specifically ask"

  /** The instructions of the personalised first-greeting mode; `name` appears twice. */
  function PersonalizedPrompt(name: string): string {
    PersonalizedOpening + name + PersonalizedRules(name) + NoTransportRule + PersonalizedClosing
  }

  const ContinuingRules: string :=
    "You are an intelligent AI assistant continuing a conversation.\n\nCRITICAL RULES:\n"
    + "- Be helpful, smart, and conversational like ChatGPT\n"
    + "- NEVER use the user's name (you already greeted them before)\n"
    + "- Answer any question on any topic - technology, education, life, science, etc.\n"
    + "- Be concise but informative (under 150 words)\n"
    + "- Handle multiple languages: English, Urdu, Roman Urdu, Hindi\n"
    + "- If you don't know something, say so honestly\n"
    + "- Be natural and engaging\n"

  const ContinuingClosing: string :=
    "\n- NEVER mention WhatsApp, messaging, or customer support unless specifically asked"

  /** The instructions of the continuing-conversation mode: never use a name. */
  const ContinuingPrompt: string := ContinuingRules + NoTransportRule + ContinuingClosing

  const ColdStartRules: string :=
    "You are an intelligent AI assistant like ChatGPT.\n\nCRITICAL RULES:\n"
    + "- Be helpful, smart, and conversational\n"
    + "- Answer any question on any topic\n"
    + "- Handle multiple languages: English, Urdu, Roman Urdu, Hindi  \n"
    + "- Be concise but informative (under 150 words)\n"
    + "- Be natural, friendly, and engaging\n"
    + "- If you don't know something, admit it honestly\n"

  /** The instructions of the cold-start mode: the transport rule is given twice. */
  const ColdStartPrompt: string := ColdStartRules + NoTransportRule + ("\n" + NoTransportRule)

  function SystemPrompt(mode: PromptMode): string {
    match mode
    case PersonalizedGreeting(name) => PersonalizedPrompt(name)
    case ContinuingConversation => ContinuingPrompt
    case ColdStart => ColdStartPrompt
  }

  /** Every mode forbids mentioning the messaging transport unless asked. */
  lemma EveryModeForbidsTransportTalk(mode: PromptMode)
    ensures Contains(SystemPrompt(mode), NoTransportRule)
  {
    match mode
    case PersonalizedGreeting(name) => PersonalizedForbidsTransportTalk(name);
    case ContinuingConversation => ContinuingForbidsTransportTalk();
    case ColdStart => ColdStartForbidsTransportTalk();
  }

  lemma PersonalizedForbidsTransportTalk(name: string)
    ensures Contains(PersonalizedPrompt(name), NoTransportRule)
  {
    ContainsPiece(PersonalizedOpening + name + PersonalizedRules(name), NoTransportRule, PersonalizedClosing);
  }

  lemma ContinuingForbidsTransportTalk()
    ensures Contains(ContinuingPrompt, NoTransportRule)
  {
    ContainsPiece(ContinuingRules, NoTransportRule, ContinuingClosing);
  }

  lemma ColdStartForbidsTransportTalk()
    ensures Contains(ColdStartPrompt, NoTransportRule)
  {
    ContainsPiece(ColdStartRules, NoTransportRule, "\n" + NoTransportRule);
  }

  /** The personalised mode puts the name into the instructions. */
  lemma PersonalizedPromptNamesUser(name: string)
    ensures Contains(SystemPrompt(PersonalizedGreeting(name)), name)
  {
    ContainsSecondOfFive(PersonalizedOpening, name, PersonalizedRules(name), NoTransportRule, PersonalizedClosing);
  }

  /** `conv.get(key, '')`. */
  function Field(value: Option<string>): string {
    value.GetOr("")
  }

  /** The two lines one record contributes to the context block. */
  function Turn(c: Conversation): string {
    "User: " + Field(c.userMessage) + "\n" + ("You: " + Field(c.aiResponse) + "\n")
  }

  /** The records' turns, in list order. */
  function Turns(cs: seq<Conversation>): (r: string)
    ensures cs == [] <==> r == []
  {
    if cs == [] then "" else Turns(cs[..|cs| - 1]) + Turn(cs[|cs| - 1])
  }

  lemma {:induction false} TurnsAppend(a: seq<Conversation>, b: seq<Conversation>)
    ensures Turns(a + b) == Turns(a) + Turns(b)
    decreases |b|
  {
    if b == [] {
      assert a + b == a;
    } else {
      var b' := b[..|b| - 1];
      var last := b[|b| - 1];
      assert (a + b)[..|a + b| - 1] == a + b';
      assert (a + b)[|a + b| - 1] == last;
      calc {
        Turns(a + b);
        Turns(a + b') + Turn(last);
        { TurnsAppend(a, b'); }
        Turns(a) + Turns(b') + Turn(last);
        Turns(a) + (Turns(b') + Turn(last));
        Turns(a) + Turns(b);
      }
    }
  }

  /** The context lists the first record's turn first, then the rest in order. */
  lemma TurnsInListOrder(cs: seq<Conversation>)
    requires cs != []
    ensures Turns(cs) == Turn(cs[0]) + Turns(cs[1..])
  {
    assert cs == [cs[0]] + cs[1..];
    TurnsAppend([cs[0]], cs[1..]);
    assert [cs[0]][..0] == [];
  }

  /** Python's `history[-3:]`: the last three records, or all of them when there are fewer. */
  function LastThree(history: seq<Conversation>): (window: seq<Conversation>)
    ensures |window| == if |history| < 3 then |history| else 3
    ensures window == history[|history| - |window|..]
  {
    if |history| <= 3 then history else history[|history| - 3..]
  }

  const ContextHeader: string := "Recent conversation context:\n"

  /** The context block, present only when there is history. */
  function ContextBlock(history: Option<seq<Conversation>>): string {
    if HasHistory(history) then ContextHeader + Turns(LastThree(history.value)) + "\n" else ""
  }

  const MessageLabel: string := "Current user message: "
  const ResponseCue: string := "Your response:"

  /** The prompt `_generate_gemini_response` sends to the model, around the mode's instructions `system`. */
  function PromptText(system: string, history: Option<seq<Conversation>>, message: string): string {
    system + "\n\n" + ContextBlock(history) + (MessageLabel + message + "\n" + ResponseCue)
  }

  /** The prompt opens with the instructions and ends with the current message and the cue. */
  lemma PromptFrame(system: string, history: Option<seq<Conversation>>, message: string)
    ensures system + "\n\n" <= PromptText(system, history, message)
    ensures IsSuffix(MessageLabel + message + "\n" + ResponseCue, PromptText(system, history, message))
  {
    var p := PromptText(system, history, message);
    var front := system + "\n\n";
    var back := MessageLabel + message + "\n" + ResponseCue;
    assert p == front + ContextBlock(history) + back;
    assert p[..|front|] == front;
    assert p[|p| - |back|..] == back;
  }

  /** Without history the prompt has no context block at all. */
  lemma PromptWithoutHistory(system: string, history: Option<seq<Conversation>>, message: string)
    requires !HasHistory(history)
    ensures PromptText(system, history, message) == system + "\n\n" + (MessageLabel + message + "\n" + ResponseCue)
  {
    assert ContextBlock(history) == "";
  }

  /** With history the context holds the turns of exactly the last three records, in list order. */
  lemma PromptWithHistory(system: string, history: seq<Conversation>, message: string)
    requires history != []
    ensures PromptText(system, Some(history), message)
         == system + "\n\n" + ContextHeader + Turns(LastThree(history)) + "\n"
            + (MessageLabel + message + "\n" + ResponseCue)
  {
  }

  /**
   * The prompt-building part of `_generate_gemini_response`: appends the
   * context lines one by one over `history[-3:]`.
   */
  method BuildPrompt(system: string, history: Option<seq<Conversation>>, message: string) returns (prompt: string)
    ensures prompt == PromptText(system, history, message)
  {
    prompt := system + "\n\n";
    if HasHistory(history) {
      prompt := prompt + ContextHeader;
      ghost var head := prompt;
      var window := LastThree(history.value);
      var i := 0;
      while i < |window|
        invariant 0 <= i <= |window|
        invariant prompt == head + Turns(window[..i])
      {
        var conv := window[i];
        var userLine := "User: " + Field(conv.userMessage) + "\n";
        var aiLine := "You: " + Field(conv.aiResponse) + "\n";
        ghost var before := Turns(window[..i]);
        prompt := prompt + userLine;
        prompt := prompt + aiLine;
        assert prompt == head + Turns(window[..i + 1]) by {
          TurnsStep(window, i);
          Regroup(head, before, userLine, aiLine);
        }
        i := i + 1;
      }
      assert window[..i] == window;
      prompt := prompt + "\n";
      assert prompt == system + "\n\n" + ContextBlock(history) by {
        Regroup(system + "\n\n", ContextHeader, Turns(window), "\n");
      }
    } else {
      assert prompt == system + "\n\n" + ContextBlock(history);
    }
    ghost var block := prompt;
    prompt := prompt + (MessageLabel + message + "\n");
    prompt := prompt + ResponseCue;
    assert prompt == block + (MessageLabel + message + "\n" + ResponseCue);
  }

  /** One more record adds its turn at the end. */
  lemma TurnsStep(window: seq<Conversation>, i: nat)
    requires i < |window|
    ensures Turns(window[..i + 1]) == Turns(window[..i]) + Turn(window[i])
  {
    assert window[..i + 1][..i] == window[..i];
  }

  // ---------------------------------------------------------------------
  // Cleaning the model's output
  // ---------------------------------------------------------------------

  const UnwantedPrefixes: seq<string> := ["You:", "Assistant:", "Response:", "Your response:"]

  /**
   * One pass over `prefixes` from index `i` on, in order: each one found at
   * the front is cut off and the rest stripped.
   */
  function StripPrefixes(text: string, prefixes: seq<string>, i: nat): string
    requires i <= |prefixes|
    decreases |prefixes| - i
  {
    if i == |prefixes| then text
    else if prefixes[i] <= text then StripPrefixes(Strip(text[|prefixes[i]|..]), prefixes, i + 1)
    else StripPrefixes(text, prefixes, i + 1)
  }

  /** From a stripped text the pass leaves a stripped trailing part of it. */
  lemma {:induction false} StripPrefixesKeepsSuffix(text: string, prefixes: seq<string>, i: nat)
    requires i <= |prefixes| && IsStripped(text)
    ensures IsStripped(StripPrefixes(text, prefixes, i))
    ensures IsSuffix(StripPrefixes(text, prefixes, i), text)
    decreases |prefixes| - i
  {
    if i < |prefixes| {
      if prefixes[i] <= text {
        var rest := Strip(text[|prefixes[i]|..]);
        StripAfterPrefix(text, prefixes[i]);
        StripPrefixesKeepsSuffix(rest, prefixes, i + 1);
        SuffixTrans(StripPrefixes(rest, prefixes, i + 1), rest, text);
      } else {
        StripPrefixesKeepsSuffix(text, prefixes, i + 1);
      }
    }
  }

  /** Cutting a prefix off a stripped text and stripping again leaves a trailing part of it. */
  lemma StripAfterPrefix(text: string, p: string)
    requires p <= text
    ensures IsStripped(text) ==> IsSuffix(Strip(text[|p|..]), text)
  {
    var rest := text[|p|..];
    if IsStripped(text) {
      if rest != [] {
        assert rest[|rest| - 1] == text[|text| - 1];
      }
      StripOfTrimmedEnd(rest);
      SuffixOfDrop(text, |p|, Strip(rest));
    }
  }

  /** None of the prefixes `i` up to `k` is found at the front of `text`. */
  predicate NoneMatch(text: string, prefixes: seq<string>, i: nat, k: nat)
    requires i <= k <= |prefixes|
    decreases k - i
  {
    i == k || (!(prefixes[i] <= text) && NoneMatch(text, prefixes, i + 1, k))
  }

  lemma {:induction false} NoneMatchFromAll(text: string, prefixes: seq<string>, i: nat, k: nat)
    requires i <= k <= |prefixes|
    requires forall j :: i <= j < k ==> !(prefixes[j] <= text)
    ensures NoneMatch(text, prefixes, i, k)
    decreases k - i
  {
    if i < k {
      NoneMatchFromAll(text, prefixes, i + 1, k);
    }
  }

  /** Prefixes `i` up to `k` that do not match at the front of `text` are passed over without effect. */
  lemma {:induction false} SkipUnmatched(text: string, prefixes: seq<string>, i: nat, k: nat)
    requires i <= k <= |prefixes|
    requires forall j :: i <= j < k ==> !(prefixes[j] <= text)
    ensures StripPrefixes(text, prefixes, i) == StripPrefixes(text, prefixes, k)
  {
    NoneMatchFromAll(text, prefixes, i, k);
    SkipNoneMatch(text, prefixes, i, k);
  }

  lemma {:induction false} SkipNoneMatch(text: string, prefixes: seq<string>, i: nat, k: nat)
    requires i <= k <= |prefixes| && NoneMatch(text, prefixes, i, k)
    ensures StripPrefixes(text, prefixes, i) == StripPrefixes(text, prefixes, k)
    decreases k - i
  {
    if i < k {
      calc {
        StripPrefixes(text, prefixes, i);
        { SkipOne(text, prefixes, i); }
        StripPrefixes(text, prefixes, i + 1);
        { SkipNoneMatch(text, prefixes, i + 1, k); }
        StripPrefixes(text, prefixes, k);
      }
    }
  }

  lemma SkipOne(text: string, prefixes: seq<string>, i: nat)
    requires i < |prefixes| && !(prefixes[i] <= text)
    ensures StripPrefixes(text, prefixes, i) == StripPrefixes(text, prefixes, i + 1)
  {
  }

  /** A prefix found at the front is cut off, the rest is stripped, and the pass goes on. */
  lemma TakeOne(text: string, prefixes: seq<string>, i: nat)
    requires i < |prefixes| && prefixes[i] <= text
    ensures StripPrefixes(text, prefixes, i) == StripPrefixes(Strip(text[|prefixes[i]|..]), prefixes, i + 1)
  {
  }

  /** A text that starts with none of `prefixes` passes through unchanged. */
  lemma NoPrefixNoChange(text: string, prefixes: seq<string>)
    requires forall k :: 0 <= k < |prefixes| ==> !(prefixes[k] <= text)
    ensures StripPrefixes(text, prefixes, 0) == text
  {
    SkipUnmatched(text, prefixes, 0, |prefixes|);
  }

  /** The cleaned reply, or `None` when nothing usable is left (`return response if response else None`). */
  function Cleaned(raw: Option<string>): (r: Option<string>)
    ensures r.Some? ==> r.value != [] && IsStripped(r.value)
    ensures r.Some? ==> raw.Some? && IsSuffix(r.value, Strip(raw.value))
  {
    if raw.None? || raw.value == [] then None
    else
      var text := StripPrefixes(Strip(raw.value), UnwantedPrefixes, 0);
      StripPrefixesKeepsSuffix(Strip(raw.value), UnwantedPrefixes, 0);
      if text == [] then None else Some(text)
  }

  /** A reply that starts with none of the prefixes is only stripped. */
  lemma CleanedKeepsPlainText(raw: string)
    requires Strip(raw) != []
    requires forall k :: 0 <= k < |UnwantedPrefixes| ==> !(UnwantedPrefixes[k] <= Strip(raw))
    ensures Cleaned(Some(raw)) == Some(Strip(raw))
  {
    NoPrefixNoChange(Strip(raw), UnwantedPrefixes);
  }

  /** A tag, one space and a stripped body: `strip` keeps it, and cutting the tag leaves the body. */
  lemma TaggedText(tag: string, body: string)
    requires tag != [] && !IsSpace(tag[0])
    requires body != [] && IsStripped(body)
    ensures Strip(tag + " " + body) == tag + " " + body
    ensures tag <= tag + " " + body
    ensures Strip((tag + " " + body)[|tag|..]) == body
  {
    var text := tag + " " + body;
    assert text[0] == tag[0] && text[|text| - 1] == body[|body| - 1];
    StrippedWord(text);
    assert text[|tag|..] == " " + body;
    StrippedAfterOneSpace(body);
  }

  /**
   * Over any prefix list: the `k`-th prefix, a space and a body come out as
   * the body when no earlier prefix matches the text and no later one
   * matches the body.
   */
  lemma StripPrefixesAfterTag(prefixes: seq<string>, k: nat, body: string)
    requires k < |prefixes| && prefixes[k] != [] && !IsSpace(prefixes[k][0])
    requires body != [] && IsStripped(body)
    requires forall j :: 0 <= j < k ==> !(prefixes[j] <= prefixes[k] + " " + body)
    requires forall j :: k < j < |prefixes| ==> !(prefixes[j] <= body)
    ensures StripPrefixes(Strip(prefixes[k] + " " + body), prefixes, 0) == body
  {
    var text := prefixes[k] + " " + body;
    TaggedText(prefixes[k], body);
    calc {
      StripPrefixes(Strip(text), prefixes, 0);
      StripPrefixes(text, prefixes, 0);
      { SkipUnmatched(text, prefixes, 0, k); }
      StripPrefixes(text, prefixes, k);
      { TakeOne(text, prefixes, k); }
      StripPrefixes(Strip(text[|prefixes[k]|..]), prefixes, k + 1);
      StripPrefixes(body, prefixes, k + 1);
      { SkipUnmatched(body, prefixes, k + 1, |prefixes|); }
      StripPrefixes(body, prefixes, |prefixes|);
    }
  }

  /**
   * The `k`-th prefix, a space and a body: when no earlier prefix matches
   * the reply and no later one matches the body, the cleaned reply is the
   * body. Each prefix is looked at once, in list order.
   */
  lemma CleanedAfterTag(k: nat, body: string)
    requires k < |UnwantedPrefixes|
    requires body != [] && IsStripped(body)
    requires forall j :: 0 <= j < k ==> !(UnwantedPrefixes[j] <= UnwantedPrefixes[k] + " " + body)
    requires forall j :: k < j < |UnwantedPrefixes| ==> !(UnwantedPrefixes[j] <= body)
    ensures Cleaned(Some(UnwantedPrefixes[k] + " " + body)) == Some(body)
  {
    PrefixesStartWithLetters(k);
    StripPrefixesAfterTag(UnwantedPrefixes, k, body);
  }

  lemma PrefixesStartWithLetters(k: nat)
    requires k < |UnwantedPrefixes|
    ensures UnwantedPrefixes[k] != [] && 'A' <= UnwantedPrefixes[k][0] <= 'Z'
  {
  }

  /** A leading role tag is removed together with the space after it. */
  lemma CleaningRemovesRoleTag()
    ensures Cleaned(Some("You: Hello")) == Some("Hello")
  {
    assert "You: Hello" == UnwantedPrefixes[0] + " " + "Hello";
    CleanedAfterTag(0, "Hello");
  }

  /**
   * The prefixes are tried once each, in list order: a role tag that only
   * shows up after a later prefix was cut stays.
   */
  lemma CleaningIsOnePass()
    ensures Cleaned(Some("Response: You: hi")) == Some("You: hi")
  {
    var body := "You: hi";
    assert "Response: You: hi" == UnwantedPrefixes[2] + " " + body;
    assert (UnwantedPrefixes[2] + " " + body)[0] == 'R';
    CleanedAfterTag(2, body);
  }

  /** A reply that is nothing but a role tag (`"You:"`, `" You: "`), or no reply at all, is no reply. */
  lemma CleaningBareTag(raw: string)
    requires Strip(raw) == "You:"
    ensures Cleaned(Some(raw)) == None
    ensures Cleaned(None) == None
  {
    var tag := Strip(raw);
    assert tag == UnwantedPrefixes[0];
    assert tag[|tag|..] == [];
    forall j | 1 <= j < |UnwantedPrefixes|
      ensures !(UnwantedPrefixes[j] <= [])
    {
      PrefixesStartWithLetters(j);
    }
    calc {
      StripPrefixes(tag, UnwantedPrefixes, 0);
      { TakeOne(tag, UnwantedPrefixes, 0); }
      StripPrefixes(Strip(tag[|tag|..]), UnwantedPrefixes, 1);
      StripPrefixes([], UnwantedPrefixes, 1);
      { SkipUnmatched([], UnwantedPrefixes, 1, |UnwantedPrefixes|); }
      StripPrefixes([], UnwantedPrefixes, |UnwantedPrefixes|);
    }
  }

  /** A text with no white space at either end is its own `strip`. */
  lemma StrippedWord(s: string)
    requires s != [] && !IsSpace(s[0]) && !IsSpace(s[|s| - 1])
    ensures Strip(s) == s
  {
  }

  lemma StrippedAfterOneSpace(s: string)
    requires s != [] && !IsSpace(s[0]) && !IsSpace(s[|s| - 1])
    ensures Strip(" " + s) == s
  {
    assert (" " + s)[1..] == s;
    assert StripLeft(" " + s) == StripLeft(s) == s;
  }

  /**
   * `_generate_gemini_response`: build the prompt for the chosen mode, ask
   * the generator, clean the answer. The method keeps the source's steps and
   * their order (mode, prompt loop, one generator call, cleaning loop) and is
   * proved equal to `GeminiReply`, which the lemmas reason about.
   */
  method GenerateGeminiResponse(message: string, history: Option<seq<Conversation>>, personalize: bool,
                                userName: Option<string>, generator: string -> Option<string>)
    returns (reply: Option<string>)
    ensures reply == GeminiReply(message, history, personalize, userName, generator)
    ensures reply.Some? ==> reply.value != [] && IsStripped(reply.value)
  {
    var mode := SelectMode(personalize, history, userName);
    var prompt := BuildPrompt(SystemPrompt(mode), history, message);
    var response := generator(prompt);
    reply := CleanResponse(response);
  }

  /** What `_generate_gemini_response` returns. */
  function GeminiReply(message: string, history: Option<seq<Conversation>>, personalize: bool,
                       userName: Option<string>, generator: string -> Option<string>): Option<string>
  {
    Cleaned(generator(PromptText(SystemPrompt(SelectMode(personalize, history, userName)), history, message)))
  }

  /** The cleaning part of `_generate_gemini_response`: one strip, then one loop over the prefixes. */
  method CleanResponse(response: Option<string>) returns (r: Option<string>)
    ensures r == Cleaned(response)
  {
    r := response;
    if response.Some? && response.value != [] {
      var text := Strip(response.value);
      ghost var cleaned := StripPrefixes(text, UnwantedPrefixes, 0);
      var i := 0;
      while i < |UnwantedPrefixes|
        invariant 0 <= i <= |UnwantedPrefixes|
        invariant StripPrefixes(text, UnwantedPrefixes, i) == cleaned
      {
        var prefix := UnwantedPrefixes[i];
        if prefix <= text {
          var rest := Strip(text[|prefix|..]);
          assert StripPrefixes(text, UnwantedPrefixes, i) == StripPrefixes(rest, UnwantedPrefixes, i + 1) by {
            TakeOne(text, UnwantedPrefixes, i);
          }
          text := rest;
        } else {
          assert StripPrefixes(text, UnwantedPrefixes, i) == StripPrefixes(text, UnwantedPrefixes, i + 1) by {
            SkipOne(text, UnwantedPrefixes, i);
          }
        }
        i := i + 1;
      }
      assert text == cleaned;
      r := Some(text);
    }
    if r.Some? && r.value == [] {
      r := None;
    }
  }

  // ---------------------------------------------------------------------
  // Rule-based fallback
  // ---------------------------------------------------------------------

  const SalamTokens: seq<string> := ["salam", "aoa", "assalam"]
  const HelloTokens: seq<string> := ["hello", "hi", "hey"]
  const ThanksTokens: seq<string> := ["thanks", "thank you", "shukriya"]
  const FarewellTokens: seq<string> := ["bye", "goodbye", "alvida"]
  const WellBeingTokens: seq<string> := ["how are you", "kya haal"]
  const HelpTokens: seq<string> := ["help", "madad", "sahayata"]

  const SalamReply: string := "Walaikum Assalam! How can I help you?"
  const HelloReply: string := "Hello! How can I assist you today?"
  const ThanksReply: string := "You're welcome! Is there anything else I can help you with?"
  const FarewellReply: string := "Goodbye! Feel free to reach out anytime you need help."
  const WellBeingReply: string := "I'm doing well, thank you! How can I help you today?"
  const HelpReply: string := "I'm here to help! What do you need assistance with?"
  const GenericReply: string := "I'm here to assist you! " + "Could you please tell me what you'd like to know or discuss?"

  /** The seven replies that do not mention a name. */
  const CannedReplies: set<string> :=
    {SalamReply, HelloReply, ThanksReply, FarewellReply, WellBeingReply, HelpReply, GenericReply}

  function PersonalSalamReply(name: string): string {
    "Walaikum Assalam " + name + "! How can I help you today?"
  }

  function PersonalHelloReply(name: string): string {
    "Hello " + name + "! How can I assist you today?"
  }

  /** `_intelligent_fallback`: the first category whose token occurs in the normalised message decides. */
  function IntelligentFallback(message: string, personalize: bool, userName: Option<string>): (reply: string)
    ensures reply != []
    ensures reply in CannedReplies
         || (personalize && HasName(userName)
             && (reply == PersonalSalamReply(userName.value) || reply == PersonalHelloReply(userName.value)))
  {
    var text := Normalized(message);
    if personalize && HasName(userName) && ContainsAny(text, SalamTokens) then
      PersonalSalamReply(userName.value)
    else if personalize && HasName(userName) && ContainsAny(text, HelloTokens) then
      PersonalHelloReply(userName.value)
    else if ContainsAny(text, SalamTokens) then SalamReply
    else if ContainsAny(text, HelloTokens) then HelloReply
    else if ContainsAny(text, ThanksTokens) then ThanksReply
    else if ContainsAny(text, FarewellTokens) then FarewellReply
    else if ContainsAny(text, WellBeingTokens) then WellBeingReply
    else if ContainsAny(text, HelpTokens) then HelpReply
    else GenericReply
  }

  /** A salam-group token wins over every later category. */
  lemma SalamWins(message: string, personalize: bool, userName: Option<string>)
    requires ContainsAny(Normalized(message), SalamTokens)
    ensures IntelligentFallback(message, personalize, userName)
         == if personalize && HasName(userName) then PersonalSalamReply(userName.value) else SalamReply
  {
  }

  /** Without a salam-group token, a hello-group token wins over thanks, farewell, well-being and help. */
  lemma HelloBeforeLaterCategories(message: string, personalize: bool, userName: Option<string>)
    requires !ContainsAny(Normalized(message), SalamTokens) && ContainsAny(Normalized(message), HelloTokens)
    ensures IntelligentFallback(message, personalize, userName)
         == if personalize && HasName(userName) then PersonalHelloReply(userName.value) else HelloReply
  {
  }

  lemma ThanksNoSalam()
    ensures !ContainsAny("thanks", SalamTokens)
  {
    NoLeadingPairNoContain("thanks", "salam");
    NoLeadingPairNoContain("thanks", "aoa");
    NoLeadingPairNoContain("thanks", "assalam");
    NoneOfThree("thanks", "salam", "aoa", "assalam");
  }

  lemma ThanksNoHello()
    ensures !ContainsAny("thanks", HelloTokens)
  {
    NoLeadingPairNoContain("thanks", "hello");
    NoLeadingPairNoContain("thanks", "hi");
    NoLeadingPairNoContain("thanks", "hey");
    NoneOfThree("thanks", "hello", "hi", "hey");
  }

  /** Without a greeting token, a thanks-group token wins over farewell, well-being and help. */
  lemma ThanksAfterGreetings(message: string, personalize: bool, userName: Option<string>)
    requires !ContainsAny(Normalized(message), SalamTokens) && !ContainsAny(Normalized(message), HelloTokens)
    requires ContainsAny(Normalized(message), ThanksTokens)
    ensures IntelligentFallback(message, personalize, userName) == ThanksReply
  {
  }

  /** Without a greeting or thanks token, a farewell token wins over well-being and help. */
  lemma FarewellAfterThanks(message: string, personalize: bool, userName: Option<string>)
    requires !ContainsAny(Normalized(message), SalamTokens) && !ContainsAny(Normalized(message), HelloTokens)
    requires !ContainsAny(Normalized(message), ThanksTokens)
    requires ContainsAny(Normalized(message), FarewellTokens)
    ensures IntelligentFallback(message, personalize, userName) == FarewellReply
  {
  }

  /** Without a token of any earlier group, a well-being token wins over help. */
  lemma WellBeingAfterFarewell(message: string, personalize: bool, userName: Option<string>)
    requires !ContainsAny(Normalized(message), SalamTokens) && !ContainsAny(Normalized(message), HelloTokens)
    requires !ContainsAny(Normalized(message), ThanksTokens) && !ContainsAny(Normalized(message), FarewellTokens)
    requires ContainsAny(Normalized(message), WellBeingTokens)
    ensures IntelligentFallback(message, personalize, userName) == WellBeingReply
  {
  }

  /** A help token decides only when no earlier group has a token. */
  lemma HelpAfterWellBeing(message: string, personalize: bool, userName: Option<string>)
    requires !ContainsAny(Normalized(message), SalamTokens) && !ContainsAny(Normalized(message), HelloTokens)
    requires !ContainsAny(Normalized(message), ThanksTokens) && !ContainsAny(Normalized(message), FarewellTokens)
    requires !ContainsAny(Normalized(message), WellBeingTokens)
    requires ContainsAny(Normalized(message), HelpTokens)
    ensures IntelligentFallback(message, personalize, userName) == HelpReply
  {
  }

  /** The generic prompt comes exactly when no category matches. */
  lemma GenericOnlyWhenNothingMatches(message: string, personalize: bool, userName: Option<string>)
    ensures var text := Normalized(message);
            IntelligentFallback(message, personalize, userName) == GenericReply
            <==> (!ContainsAny(text, SalamTokens) && !ContainsAny(text, HelloTokens)
                  && !ContainsAny(text, ThanksTokens) && !ContainsAny(text, FarewellTokens)
                  && !ContainsAny(text, WellBeingTokens) && !ContainsAny(text, HelpTokens))
  {
    if personalize && HasName(userName) {
      GenericIsDistinct(userName.value);
    } else {
      GenericIsDistinct("");
    }
  }

  /** The generic reply differs from every other reply, personalised or not. */
  lemma GenericIsDistinct(name: string)
    ensures GenericReply != SalamReply && GenericReply != HelloReply && GenericReply != ThanksReply
    ensures GenericReply != FarewellReply && GenericReply != WellBeingReply && GenericReply != HelpReply
    ensures GenericReply != PersonalSalamReply(name) && GenericReply != PersonalHelloReply(name)
  {
    assert GenericReply[0] == 'I';
    assert PersonalSalamReply(name)[0] == 'W' && PersonalHelloReply(name)[0] == 'H';
  }

  /**
   * A message that normalises to `"hi"` gets the personalised hello from a
   * first-time user with a name, and the plain hello otherwise.
   */
  lemma FallbackHi(message: string, name: string)
    requires Normalized(message) == "hi" && name != []
    ensures IntelligentFallback(message, true, Some(name)) == PersonalHelloReply(name)
    ensures IntelligentFallback(message, false, Some(name)) == HelloReply
  {
    HiNoSalam();
    ContainsAt("hi", "hi", 0);
    TokenPositions();
    ContainsAnyAt("hi", HelloTokens, 1);
    HelloBeforeLaterCategories(message, true, Some(name));
    HelloBeforeLaterCategories(message, false, Some(name));
  }

  lemma HiNoSalam()
    ensures !ContainsAny("hi", SalamTokens)
  {
    TooShortToContain("hi", "salam");
    TooShortToContain("hi", "aoa");
    TooShortToContain("hi", "assalam");
    NoneOfThree("hi", "salam", "aoa", "assalam");
  }

  lemma LowerHi()
    ensures Normalized("Hi") == "hi"
  {
    assert Lower("Hi") == "hi";
    LowerLowercase("hi");
  }

  /**
   * A message that normalises to `"salam"` (`"Salam"`, `" SALAM "`) gets the
   * plain reply without a name and the personalised one with it.
   */
  lemma FallbackSalam(message: string, name: string)
    requires Normalized(message) == "salam" && name != []
    ensures IntelligentFallback(message, false, None) == SalamReply
    ensures IntelligentFallback(message, true, Some(name)) == PersonalSalamReply(name)
  {
    ContainsAt("salam", "salam", 0);
    TokenPositions();
    ContainsAnyAt("salam", SalamTokens, 0);
    SalamWins(message, false, None);
    SalamWins(message, true, Some(name));
  }

  lemma LowerSalam()
    ensures Normalized("Salam") == "salam"
  {
    assert Lower("Salam") == "salam";
    LowerLowercase("salam");
  }

  /** A message that normalises to `"thanks"` gets the thanks reply whatever the flag and the name. */
  lemma FallbackThanks(message: string, personalize: bool, userName: Option<string>)
    requires Normalized(message) == "thanks"
    ensures IntelligentFallback(message, personalize, userName) == ThanksReply
  {
    ThanksNoSalam();
    ThanksNoHello();
    ContainsAt("thanks", "thanks", 0);
    TokenPositions();
    ContainsAnyAt("thanks", ThanksTokens, 0);
    ThanksAfterGreetings(message, personalize, userName);
  }

  /** `"Thanks"` is such a message. */
  lemma LowerThanks()
    ensures Normalized("Thanks") == "thanks"
  {
    assert Lower("Thanks") == "thanks";
    LowerLowercase("thanks");
  }

  // ---------------------------------------------------------------------
  // The composer's public call
  // ---------------------------------------------------------------------

  /** The `provider` tag of a result. */
  datatype Provider = GeminiProvider | FallbackProvider | ErrorProvider {
    function Tag(): string {
      match this
      case GeminiProvider => "gemini"
      case FallbackProvider => "intelligent_fallback"
      case ErrorProvider => "error"
    }
  }

  /** The dictionary `generate_response` returns. */
  datatype AiResult = AiResult(response: string, provider: Provider, responseTimeMs: int)

  const ErrorReply: string := "I'm here to help! Could you please ask your question again?"

  /**
   * What `generate_response` returns. `composerFault` stands for an
   * exception escaping the steps inside its `try` block.
   */
  function Compose(message: string, history: Option<seq<Conversation>>, userName: Option<string>, now: int,
                   generator: string -> Option<string>, elapsedMs: nat, composerFault: bool): (result: AiResult)
    ensures result.response != []
    ensures result.provider == ErrorProvider <==> composerFault
    ensures result.provider == ErrorProvider ==> result.response == ErrorReply && result.responseTimeMs == 0
    ensures result.provider == GeminiProvider
            <==> !composerFault && GeminiReply(message, history, UsePersonalizedGreeting(message, history, userName, now), userName, generator).Some?
  {
    if composerFault then AiResult(ErrorReply, ErrorProvider, 0)
    else
      var personalize := UsePersonalizedGreeting(message, history, userName, now);
      var reply := GeminiReply(message, history, personalize, userName, generator);
      if reply.Some? then AiResult(reply.value, GeminiProvider, elapsedMs)
      else AiResult(IntelligentFallback(message, personalize, userName), FallbackProvider, elapsedMs)
  }

  /** The model's cleaned text is used as it is; when it is missing the canned reply for the same flag is used. */
  lemma ComposeReplySource(message: string, history: Option<seq<Conversation>>, userName: Option<string>, now: int,
                           generator: string -> Option<string>, elapsedMs: nat)
    ensures var personalize := UsePersonalizedGreeting(message, history, userName, now);
            var reply := GeminiReply(message, history, personalize, userName, generator);
            var result := Compose(message, history, userName, now, generator, elapsedMs, false);
            && result.responseTimeMs == elapsedMs
            && (reply.Some? ==> result.response == reply.value && IsStripped(result.response))
            && (reply.None? ==>
                  result.provider == FallbackProvider
                  && result.response == IntelligentFallback(message, personalize, userName))
  {
  }

  /** A timed-out or failed model call (the generator yields nothing) falls back, with the same flag. */
  lemma SilentGeneratorFallsBack(message: string, history: Option<seq<Conversation>>, userName: Option<string>, now: int,
                                 elapsedMs: nat)
    ensures Compose(message, history, userName, now, _ => None, elapsedMs, false)
         == AiResult(IntelligentFallback(message, UsePersonalizedGreeting(message, history, userName, now), userName),
                     FallbackProvider, elapsedMs)
  {
  }

  /** A message that normalises to `"hi"` is a greeting. */
  lemma HiIsAGreeting(message: string)
    requires Normalized(message) == "hi"
    ensures IsGreetingMessage(message)
  {
    ContainsAt("hi", "hi", 0);
    TokenPositions();
    GreetingByToken(message, 5);
  }

  /**
   * `"Hi"` (or any message that normalises to `"hi"`), no history, name
   * "there", model unavailable: the personalised hello from the fallback.
   */
  lemma HiScenario(message: string, now: int, elapsedMs: nat)
    requires Normalized(message) == "hi"
    ensures Compose(message, None, Some("there"), now, _ => None, elapsedMs, false)
         == AiResult(PersonalHelloReply("there"), FallbackProvider, elapsedMs)
  {
    HiIsAGreeting(message);
    assert UsePersonalizedGreeting(message, None, Some("there"), now);
    SilentGeneratorFallsBack(message, None, Some("there"), now, elapsedMs);
    FallbackHi(message, "there");
  }

  /**
   * `generate_response`: compute the flag, ask for a model reply, and fall
   * back to the rule-based reply when there is none. The method follows the
   * source's early returns and calls the loop-carrying `GenerateGeminiResponse`;
   * it is proved equal to `Compose`, which the lemmas reason about.
   */
  method GenerateResponse(message: string, history: Option<seq<Conversation>>, userName: Option<string>, now: int,
                          generator: string -> Option<string>, elapsedMs: nat, composerFault: bool)
    returns (result: AiResult)
    ensures result == Compose(message, history, userName, now, generator, elapsedMs, composerFault)
  {
    if composerFault {
      return AiResult(ErrorReply, ErrorProvider, 0);
    }
    var isFirst := IsFirstInteraction(history, now);
    var isGreeting := IsGreetingMessage(message);
    var personalize := isFirst && isGreeting && HasName(userName);
    var response := GenerateGeminiResponse(message, history, personalize, userName, generator);
    if response.Some? {
      return AiResult(response.value, GeminiProvider, elapsedMs);
    }
    var fallback := IntelligentFallback(message, personalize, userName);
    result := AiResult(fallback, FallbackProvider, elapsedMs);
  }
}
