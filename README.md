# WhatsApp AI responder: the decision logic, in Dafny

The responder is a webhook relay. An inbound chat message arrives at
`POST /webhook/whatsapp`. The handler asks a response composer for a reply
(the Gemini language model, with a rule-based fallback) and sends the reply
back through Twilio. When the send succeeds, it schedules a background save
of the exchange.

This project models the three places where that relay makes decisions, and
proves what each one promises.

- `options.dfy` (module `Options`): Python's `Optional`, with `dict.get(key, default)`.
- `text.dfy` (module `Text`): the Python `str` operations the decisions are
  built from:
  - `strip`, with the full Unicode white-space list;
  - `lower`, for ASCII letters;
  - the `in` substring test, specified by an explicit occurrence index;
  - `replace(pattern, "")`, scanning left to right and removing non-overlapping occurrences.
- `whatsapp_service.dfy` (module `WhatsAppService`): recipient-address
  normalisation (`validate_phone_number` and the address built by
  `send_message`), and the delivery result.
- `ai_service.dfy` (module `AiService`): the response composer:
  - the first-interaction rule with its strict six-hour cut-off;
  - greeting detection by substring;
  - the personalisation flag;
  - the three prompt modes and their precedence;
  - prompt assembly over the last three history records;
  - output cleaning;
  - the ordered fallback chain;
  - the provider tag.
- `webhook.dfy` (module `Webhook`): one request to `handle_whatsapp_message`
  as one step of a linear state machine. Its only state is the queue of
  scheduled saves (the class `BackgroundTasks`).

Where the source works step by step, the model does too. `BuildPrompt`
appends to the prompt in a loop over `history[-3:]`. `CleanResponse` loops
over the prefix list. `HandleWhatsAppMessage` appends to the task queue.
Each of these methods is proved equal to a specification function
(`PromptText`, `Cleaned`, `Handle`), and the properties are lemmas about
those functions.

The outside world enters as parameters:
- the language model is `generator: string -> Option<string>`. It receives
  the full prompt; `None` stands for a timeout, an API error or an empty answer;
- the Twilio client is `client: MessageRequest -> bool`. It is false when
  `messages.create` raises;
- the history store is `store: string -> Option<seq<Conversation>>`. It is
  `None` when the awaited fetch raises. The repository's own store never
  raises: `get_conversation_history` catches every exception and returns an
  empty list, so a failing database is `Some([])` here (see "## Left out");
- the clock is `now`, in integer seconds;
- the measured generation time is `elapsedMs`;
- `composerFault` stands for an exception escaping the `try` block of
  `generate_response`.

A history record keeps only the fields the composer reads: `user_message`,
`ai_response` and `timestamp`. The timestamp is `Absent` (no key),
`Unusable` (it cannot be parsed or compared with the clock) or `At(seconds)`.

Behaviours of the source that the proofs make explicit:
- `validate_phone_number` uses `replace`, not a prefix cut. On
  `whatswhatsapp:app:`, removing the inner scheme joins the remaining pieces
  into a new `whatsapp:`. The result is `+whatsapp:`, which still contains
  the scheme, and validating it again gives `+`. So the function is neither
  scheme-free nor idempotent.
- `send_message` removes the scheme only when the address starts with it.
  For such addresses the recipient is the scheme plus the validated number.
  For `+1whatsapp:2` the two disagree: the recipient is
  `whatsapp:+1whatsapp:2`, while validation gives `+12`.
- The handler overwrites the fetched history with `None` and always passes
  the name `"there"`. In the live path, therefore:
  - personalisation is exactly greeting detection;
  - the prompt is never in continuing mode;
  - the prompt never has a context block.
- Greeting detection matches substrings, so `"this"` is a greeting because
  it contains `"hi"`.
- The prefixes are removed in one pass, in list order. `"Response: You: hi"`
  is cleaned to `"You: hi"`.

## Model

| member | source | states |
|---|---|---|
| Text.Strip | app/services/ai_service.py:58 | `strip()`: neither end of the result is white space, and it is no longer than the input |
| Text.StripOfTrimmedEnd | app/services/ai_service.py:187 | on a text already ending in a non-space, `strip` removes only leading white space and leaves a trailing part of the text |
| Text.Lower | app/services/ai_service.py:58 | `lower()`: same length; each ASCII capital becomes its small letter and every other character is kept |
| Text.Contains | app/services/ai_service.py:59 | `sub in s` is true exactly when `sub` occurs in `s` at some index |
| Text.ContainsAny | app/services/ai_service.py:59 | `any(t in s for t in tokens)` is true exactly when some token of the list occurs in `s` |
| Text.RemoveAll | app/services/whatsapp_service.py:44 | `replace(pat, "")` never makes a string longer |
| Text.RemoveAllAbsent | app/services/whatsapp_service.py:44 | a string without an occurrence of the pattern is left unchanged by `replace` |
| Text.RemoveAllLeading | app/services/whatsapp_service.py:44 | a leading occurrence is removed and scanning goes on after it |
| Text.RemoveAllKeepsHead | app/services/whatsapp_service.py:44 | characters that cannot start the pattern pass through `replace` untouched |
| WhatsAppService.EnsurePlus | app/services/whatsapp_service.py:46-48 | the result starts with `+`; an input that already does is unchanged, otherwise exactly one `+` is put in front |
| WhatsAppService.ValidatePhoneNumber | app/services/whatsapp_service.py:41-50 | the result always starts with `+` and grows by at most one character |
| WhatsAppService.ValidateUnchanged | app/services/whatsapp_service.py:41-50 | a number that starts with `+` and holds no `whatsapp:` is returned unchanged |
| WhatsAppService.ValidateAddsPlus | app/services/whatsapp_service.py:44-48 | a number with neither the scheme nor a `+` just gains the `+` |
| WhatsAppService.ValidateDropsScheme | app/services/whatsapp_service.py:44 | the scheme in front of a `+`-number without another scheme is removed |
| WhatsAppService.ValidateExamples | app/services/whatsapp_service.py:41-50 | `whatsapp:+123` gives `+123`, `123` gives `+123`, `+123` gives `+123` |
| WhatsAppService.CraftedInputKeepsScheme | app/services/whatsapp_service.py:44 | `replace` on `whatswhatsapp:app:` leaves exactly `whatsapp:` |
| WhatsAppService.ValidateMayKeepScheme | app/services/whatsapp_service.py:41-50 | on `whatswhatsapp:app:` the result is `+whatsapp:`, still holds the scheme, and validating it again changes it to `+` |
| WhatsAppService.RecipientAddress | app/services/whatsapp_service.py:16-25 | the address handed to the client is the scheme followed by a number that starts with `+` |
| WhatsAppService.RecipientMatchesValidate | app/services/whatsapp_service.py:17-18 | for an address starting with the scheme, the recipient is the scheme plus `validate_phone_number` of the address |
| WhatsAppService.RecipientDiffersFromValidate | app/services/whatsapp_service.py:17-22 | without the scheme in front an inner scheme is kept: `+1whatsapp:2` is sent to `whatsapp:+1whatsapp:2` but validates to `+12` |
| WhatsAppService.SendMessage | app/services/whatsapp_service.py:13-39 | the body is passed unchanged, the sender is the configured number, the recipient is the normalised address, and the result is true exactly when the client accepted the request |
| AiService.IsFirstInteraction | app/services/ai_service.py:17-40 | a first interaction needs either no history or a usable timestamp on the newest record |
| AiService.NoHistoryIsFirst | app/services/ai_service.py:21-22 | absent and empty history both count as a first interaction |
| AiService.StaleCutoff | app/services/ai_service.py:27-36 | with a usable timestamp, first interaction holds exactly when more than six hours have passed; exactly six hours is not first |
| AiService.NoUsableTimestampIsNotFirst | app/services/ai_service.py:25-40 | a newest record without a timestamp key, or with one that cannot be used, is not a first interaction |
| AiService.IsGreetingMessage | app/services/ai_service.py:42-59 | true exactly when one of the twelve greeting tokens occurs in the lower-cased, stripped message |
| AiService.GreetingByToken | app/services/ai_service.py:44-59 | a message whose normalised form contains any one greeting token is a greeting |
| AiService.ThisIsAGreeting | app/services/ai_service.py:44-59 | `"this"` is a greeting, through the token `"hi"` |
| AiService.CapitalHelloIsAGreeting | app/services/ai_service.py:58-59 | `"Hello"` is a greeting: case is folded first |
| AiService.OkIsNoGreeting | app/services/ai_service.py:44-59 | `"ok"` contains no greeting token |
| AiService.UsePersonalizedGreeting | app/services/ai_service.py:72-74 | the flag holds exactly when the message is a greeting, the name is non-empty, and the history is empty or its newest record is more than six hours old |
| AiService.SelectMode | app/services/ai_service.py:119-159 | the personalised mode exactly when the flag is set (even with history), else continuing exactly when there is history, else cold start; the personalised mode carries the user's name |
| AiService.EveryModeForbidsTransportTalk | app/services/ai_service.py:129-159 | each of the three instruction texts contains the rule against mentioning WhatsApp unless asked |
| AiService.PersonalizedPromptNamesUser | app/services/ai_service.py:120-124 | the personalised instructions contain the user's name |
| AiService.Turns | app/services/ai_service.py:167-169 | the context lines are empty exactly when there are no records |
| AiService.TurnsAppend | app/services/ai_service.py:167-169 | the context lines of two lists in a row are the lines of the first followed by those of the second |
| AiService.TurnsInListOrder | app/services/ai_service.py:167-169 | the first record's `User:`/`You:` lines come first, then the rest in list order |
| AiService.LastThree | app/services/ai_service.py:167 | `history[-3:]` is the last three records, or all of them when there are fewer |
| AiService.PromptFrame | app/services/ai_service.py:161-174 | the prompt opens with the instructions and a blank line, and ends with the current message and the cue `Your response:` |
| AiService.PromptWithoutHistory | app/services/ai_service.py:162-174 | without history there is no context block between instructions and message |
| AiService.PromptWithHistory | app/services/ai_service.py:162-174 | with history the prompt is instructions, the context header, the turns of exactly the last three records, a blank line, then the message and the cue |
| AiService.BuildPrompt | app/services/ai_service.py:161-174 | the prompt built by appending line by line equals `PromptText` |
| AiService.StripPrefixesKeepsSuffix | app/services/ai_service.py:185-187 | on stripped text, removing the prefixes in order leaves stripped text that is a trailing part of the input |
| AiService.StripAfterPrefix | app/services/ai_service.py:186-187 | cutting a prefix off a stripped text and stripping again leaves a trailing part of it |
| AiService.SkipUnmatched | app/services/ai_service.py:185-187 | prefixes that are not found at the front of the text are passed over without effect, however many there are |
| AiService.NoPrefixNoChange | app/services/ai_service.py:185-187 | a text starting with none of the prefixes passes through unchanged |
| AiService.Cleaned | app/services/ai_service.py:181-189 | a cleaned reply is non-empty, stripped, and a trailing part of the stripped raw text; nothing usable gives `None` |
| AiService.CleanedKeepsPlainText | app/services/ai_service.py:182-189 | a reply that starts with no prefix is only stripped |
| AiService.StripPrefixesAfterTag | app/services/ai_service.py:185-187 | for any prefix list: the `k`-th prefix, a space and a body come out as the body when no earlier prefix matches the text and no later one matches the body |
| AiService.CleanedAfterTag | app/services/ai_service.py:182-189 | a reply made of the `k`-th prefix, a space and a body is cleaned to the body when no earlier prefix matches it and no later one matches the body |
| AiService.CleaningRemovesRoleTag | app/services/ai_service.py:182-189 | `"You: Hello"` is cleaned to `"Hello"` |
| AiService.CleaningIsOnePass | app/services/ai_service.py:185-187 | `"Response: You: hi"` is cleaned to `"You: hi"`: a prefix earlier in the list is not looked for again |
| AiService.CleaningBareTag | app/services/ai_service.py:182-189 | a reply that strips to `"You:"` (such as `" You: "`), or no reply, becomes `None` |
| AiService.CleanResponse | app/services/ai_service.py:181-189 | the strip-then-loop-over-prefixes code computes `Cleaned` |
| AiService.GenerateGeminiResponse | app/services/ai_service.py:109-193 | the reply is the cleaned generator answer to the prompt of the selected mode; when present it is non-empty and stripped |
| AiService.IntelligentFallback | app/services/ai_service.py:216-248 | the reply is never empty, and is one of the seven canned replies or, only with the flag and a non-empty name, one of the two personalised ones |
| AiService.SalamWins | app/services/ai_service.py:226-234 | a salam-group token wins over every later category; the personalised variant is used exactly when the flag and a name are present |
| AiService.HelloBeforeLaterCategories | app/services/ai_service.py:229-236 | without a salam token, a hello-group token wins over thanks, farewell, well-being and help |
| AiService.ThanksAfterGreetings | app/services/ai_service.py:237-240 | without greeting tokens, a thanks token gives the thanks reply whatever the flag |
| AiService.FarewellAfterThanks | app/services/ai_service.py:241-242 | without greeting or thanks tokens, a farewell token gives the farewell reply whatever the flag |
| AiService.WellBeingAfterFarewell | app/services/ai_service.py:243-244 | without greeting, thanks or farewell tokens, a well-being token gives the well-being reply |
| AiService.HelpAfterWellBeing | app/services/ai_service.py:245-246 | a help token gives the help reply only once no greeting, thanks, farewell or well-being token occurs |
| AiService.GenericOnlyWhenNothingMatches | app/services/ai_service.py:226-248 | the generic reply comes exactly when no token of any category occurs |
| AiService.GenericIsDistinct | app/services/ai_service.py:228-248 | the generic reply differs from every other reply, personalised or not |
| AiService.FallbackHi | app/services/ai_service.py:222-236 | a message that normalises to `"hi"` gets `"Hello <name>! How can I assist you today?"` with the flag and a name, and the plain hello without the flag |
| AiService.LowerHi | app/services/ai_service.py:222 | `"Hi"` normalises to `"hi"` |
| AiService.FallbackSalam | app/services/ai_service.py:222-234 | a message that normalises to `"salam"` gets the plain salam reply without a name and the personalised one with a name and the flag |
| AiService.LowerSalam | app/services/ai_service.py:222 | `"Salam"` normalises to `"salam"` |
| AiService.FallbackThanks | app/services/ai_service.py:222-240 | a message that normalises to `"thanks"` gets the thanks reply whatever the flag and name |
| AiService.LowerThanks | app/services/ai_service.py:222 | `"Thanks"` normalises to `"thanks"` |
| AiService.Compose | app/services/ai_service.py:61-107 | the response is never empty; the provider is `error` exactly on the exception path (fixed text, 0 ms) and `gemini` exactly when the cleaned model reply exists |
| AiService.ComposeReplySource | app/services/ai_service.py:76-99 | the model's cleaned text is used as it is; without it, the fallback reply for the same flag is used with the tag `intelligent_fallback`; the time is the measured one |
| AiService.SilentGeneratorFallsBack | app/services/ai_service.py:89-99 | a model that yields nothing (timeout or error) gives the fallback reply for the flag, tagged `intelligent_fallback` |
| AiService.HiIsAGreeting | app/services/ai_service.py:44-59 | a message that normalises to `"hi"` is a greeting |
| AiService.HiScenario | app/services/ai_service.py:61-99 | a message that normalises to `"hi"` (such as `"Hi"`), with no history, name `"there"` and no model reply, gives the personalised hello from the fallback |
| AiService.GenerateResponse | app/services/ai_service.py:61-107 | the flag-then-model-then-fallback code computes `Compose` |
| Webhook.ExtractNameFromPhone | app/routes/webhook.py:136-143 | every number gets the same non-empty name, `"there"` |
| Webhook.UserPhone | app/routes/webhook.py:159 | the derived number is no longer than `From` |
| Webhook.UserPhoneUnchanged | app/routes/webhook.py:159 | a `From` that holds no `whatsapp:` is its own user phone |
| Webhook.UserPhoneDropsScheme | app/routes/webhook.py:159 | for `whatsapp:` plus a number without another scheme, the derived number is that number |
| Webhook.Handle | app/routes/webhook.py:146-204 | HTTP 500 exactly when the history fetch raises (the repository's store never does; a database failure is an empty history), and then nothing is sent or saved; otherwise a success payload and one delivery; at most one save, and one exactly when the send succeeded |
| Webhook.LivePersonalization | app/routes/webhook.py:162-172 | with the history overwritten by `None` and the name `"there"`, personalisation holds exactly when the body is a greeting |
| Webhook.LivePromptMode | app/routes/webhook.py:162-172 | in the live path the mode is personalised for a greeting and cold start otherwise, never continuing |
| Webhook.StoreContentIgnored | app/routes/webhook.py:162-163 | whatever records the store returns, the outcome is the same |
| Webhook.SaveIffSent | app/routes/webhook.py:182-190 | one save with (derived number, body, composer text, composer time) when the send succeeded, none otherwise |
| Webhook.PayloadIgnoresDelivery | app/routes/webhook.py:196-200 | the payload is `success` / `Message processed` with the composer's provider tag, and does not depend on the client's answer |
| Webhook.ReplyGoesToRawSender | app/routes/webhook.py:180 | the reply goes to the raw `From`, as normalised by the notifier, with the composer's text and the configured sender |
| Webhook.FetchFailureIsServerError | app/routes/webhook.py:202-204 | a raising fetch gives status 500 with `Internal server error`, no delivery and no save (a store that swallows its errors, as the repository's does, never reaches this) |
| Webhook.BackgroundTasks.AddTask | app/routes/webhook.py:184-190 | scheduling appends the task at the end of the queue |
| Webhook.HandleWhatsAppMessage | app/routes/webhook.py:146-204 | the handler's reply and delivery are those of `Handle`, and the queue grows by exactly `Handle`'s saves |
| Webhook.HiFromNewSender | app/routes/webhook.py:146-200 | a body that normalises to `"hi"` (such as `"Hi"`) from `whatsapp:+123`, with a silent model and an accepting client, sends the personalised hello to `whatsapp:+123` and schedules one save for `+123` |

## Left out

- The Gemini SDK (configuration, `generate_content`, decoding parameters, `test_gemini_connection`) and the 8-second `asyncio.wait_for` are library, network and timing code. They are folded into the `generator` parameter; a timeout is a `None` answer.
- The clock, ISO-8601 parsing and float milliseconds: `datetime.utcnow()` is the parameter `now` in integer seconds. A timestamp that cannot be parsed or compared is the `Unusable` variant. The float-to-int response time is one `elapsedMs` input for both reply paths.
- Text.Lower: lowers ASCII letters only, because full Unicode case mapping (including characters that lower to two) is outside the model.
- AiService.Compose: `composerFault` is an input. Nothing inside the `try` of `generate_response` is shown to raise, so the exception path is modelled as a choice rather than derived.
- Webhook.Handle: the only exception modelled is a raising history fetch. Exceptions from logging or from scheduling the task are not.
- Webhook.Handle: with the repository's store the HTTP 500 branch (app/routes/webhook.py:202-204) is not reachable. `get_conversation_history` (app/services/database_service.py:61-78) catches every exception and returns `[]`, and `generate_response` and `send_message` catch their own exceptions. A database outage is therefore `store(...) == Some([])` in the model and takes the success path. `None` stands only for a store that raises, which this repository's store does not; `FetchFailureIsServerError` describes that hypothetical case, not a database failure.
- The order and length of the stored history (newest first, at most five) are promises of the MongoDB query in app/services/database_service.py, which is not part of this model. History is a given sequence. `history[-3:]` then takes the three oldest of five records; the handler discards the history anyway.
- app/services/database_service.py, app/models/conversation.py (beyond its field names), app/main.py and app/config/settings.py: database access, the pydantic model, app start-up and configuration.
- The other routes of app/routes/webhook.py (`verify_webhook`, `health_check`, `test_gemini_api`, `get_stats`, `clear_all_conversations`) and its commented-out first version: static payloads, a network probe and direct database calls.
- Running the scheduled saves (`save_conversation_background`) and all logging: only the act of scheduling is modelled.
- The form fields `To` and `MessageSid` of the webhook are read by nothing in the handler and are not parameters of the model.
