# Financial-coach chat endpoint, modelled in Dafny

This project models the core of `backend/api/views.py`. That file holds a
single POST endpoint which forwards a user's question to a chat-completion
service, together with a system prompt built from the user's financial
snapshot. The model covers three pieces:

- **The prompt builder** (`_build_system_prompt`). For an absent or empty
  context it returns a fixed base instruction. Otherwise it builds a list of
  parts and joins them with newlines, in this order:
  - the base instruction and a header;
  - up to five one-number lines: income, spent, budget (only when above zero),
    remaining, and spent as a percentage of income;
  - one line each for the spending-by-category and category-limit mappings;
  - a block with the first five recent expenses;
  - a closing sentence.

  The model is imperative where the source is (`Prompt.BuildSystemPrompt` and
  its loop over the recent expenses). It is proved equal to the pure
  specification `Prompt.SystemPrompt`, and the lemmas state the properties of
  that specification.
- **The chat view** (`ai_chat`). It has three error responses (400 no
  message, 500 not configured, and a generic 500 for anything raised later).
  Otherwise it makes one remote call, with the fixed model and a two-message
  transcript, and replies with the first choice. `Views.ChatOutcome` is the
  specification. `Views.ViewsModule.AiChat` follows the source's steps and is
  proved to produce the same outcome.
- **The lazily created global client** (`get_openai_client`).
  `Views.ViewsModule` holds the module-level `_client` as a field. Once a
  client exists, it is kept and reused whatever the configured key is later.

How the model represents values:

- Money is held in exact integer cents and the percentage in tenths, so
  Python's `:.2f` and `:.1f` become `Formatting.FormatFixed`.
  `Formatting.ParseFixed` reads its output back, and the round-trip lemma
  proves no information is lost.
- A JSON key is `Field` = `Missing | Null | Given(v)`, because the source
  treats an absent key and a key holding `null` differently.
  - `d.get(k, default)` returns the default only for an absent key.
  - A null value prints as `None` where it is interpolated as text.
  - A null value raises `TypeError` where it is formatted as a number. The
    view turns that error into its generic 500.

The settings value `OPENAI_API_KEY` and the remote completion service are
parameters. The service is a function from the calling client's key and the
request to either the contents of the returned choices or a failure.

Source files: `basics.dfy` (options, results, JSON fields), `formatting.dfy`
(fixed-point formatting and `str.join`), `prompt.dfy` (the prompt builder),
`prompt_properties.dfy` and `prompt_examples.dfy` (its properties and worked
cases), `views.dfy` (the view and the client), `views_properties.dfy` (the
view's properties).

## Model

| member | source | states |
|---|---|---|
| Formatting.FormatFixed | backend/api/views.py:38 | the text has a minus sign exactly for negative values, a point, and exactly `places` fraction digits after it |
| Formatting.FormatFixedCanonical | backend/api/views.py:38-50 | the whole part has no leading zeros, and it is the single digit "0" for values below one unit, as Python prints it |
| Formatting.ParseFormatRoundTrip | backend/api/views.py:38-50 | reading back a formatted amount gives the exact value, so the `:.2f`/`:.1f` text loses nothing |
| Formatting.FormatFixedInjective | backend/api/views.py:38-50 | two different amounts never print alike |
| Formatting.FormatFixedUnique | backend/api/views.py:38-50 | any text of that shape that reads back as v (and is not a signed zero) is exactly the formatted text of v, so the shape and the round trip determine the output |
| Formatting.JoinEnds | backend/api/views.py:73 | `sep.join` of two or more parts is the first part, the separator and the join of the rest, and equally the join of all but the last, the separator and the last |
| Formatting.JoinSnoc | backend/api/views.py:70 | joining one more part appends the separator and that part |
| Prompt.EntryTexts | backend/api/views.py:54 | the entry texts exist exactly when no value is null; one text `name: amount` per item, in item order |
| Prompt.ExpenseTexts | backend/api/views.py:65-69 | the lines exist exactly when every shown expense can be formatted; one line per expense, in list order |
| Prompt.FirstRecent | backend/api/views.py:65 | `recent[:5]` is the first min(n, 5) expenses, in order |
| Prompt.BuildExpenseLine | backend/api/views.py:66-68 | the line built with `+=` is the specified expense line, or raises exactly where it does |
| Prompt.BuildScalarParts | backend/api/views.py:36-50 | the parts list grows by exactly the one-number lines whose values are present, in the fixed order |
| Prompt.BuildRecentLines | backend/api/views.py:64-69 | the loop yields the lines of the first five expenses in order, or raises exactly as the specification does |
| Prompt.BuildSystemPrompt | backend/api/views.py:26-73 | the imperative builder returns exactly the specified prompt, including its exceptions |
| PromptProperties.PartsFrame | backend/api/views.py:35-72 | for a non-empty context the parts start with base and header and end with the closing sentence |
| PromptProperties.PartsInOrder | backend/api/views.py:35-72 | the kinds of the parts strictly increase: every line comes in the fixed order and at most once |
| PromptProperties.PartsMatchContext | backend/api/views.py:36-70 | every part is exactly the line its kind calls for, computed from the context |
| PromptProperties.IncomeLineExact | backend/api/views.py:36-38 | an income line with value v is present exactly when the income is v |
| PromptProperties.SpentLineExact | backend/api/views.py:39-41 | a spent line with value v is present exactly when the amount spent is v |
| PromptProperties.BudgetLineExact | backend/api/views.py:42-44 | a budget line with value v is present exactly when the budget is v and v > 0 |
| PromptProperties.RemainingLineExact | backend/api/views.py:45-47 | a remaining line with value v is present exactly when the remaining amount is v |
| PromptProperties.PercentLineExact | backend/api/views.py:48-50 | a percentage line with value v is present exactly when the percentage is v |
| PromptProperties.ByCategoryLineExact | backend/api/views.py:52-55 | the category line is present exactly when the mapping has items, and lists every entry joined by ", " |
| PromptProperties.LimitsLineExact | backend/api/views.py:57-60 | the limits line is present exactly when the mapping has items, and lists every entry joined by ", " |
| PromptProperties.RecentBlockExact | backend/api/views.py:62-70 | the recent block is present exactly when the list is non-empty; it is the heading and the first five expense lines joined by newlines |
| PromptProperties.ExpenseTextRaises | backend/api/views.py:66 | an expense line raises exactly when the amount is null; an absent amount gives the same line as an amount of 0 |
| PromptProperties.ExpenseTextDefaults | backend/api/views.py:66 | an absent category gives the same line as the category "?", an absent date the same line as an empty date |
| PromptProperties.ExpenseTextNullTexts | backend/api/views.py:66 | a null category or date gives the same line as the text "None" |
| PromptProperties.ExpenseTextNote | backend/api/views.py:67-68 | the line is the line without a note plus " — " and the note exactly when the note is a non-empty text, and nothing more otherwise |
| PromptProperties.ExpenseTextsRaise | backend/api/views.py:65-69 | the expense lines raise exactly when some expense has a null amount |
| PromptProperties.MappingRaisesExactly | backend/api/views.py:52-60 | a mapping line raises exactly when the mapping holds a null value |
| PromptProperties.RecentRaisesExactly | backend/api/views.py:62-70 | the recent block raises exactly when one of the first five expenses has a null amount |
| PromptProperties.PromptRaisesExactly | backend/api/views.py:36-70 | building raises exactly when a mapping holds a null value or a shown expense has a null amount; a null one-number key only drops its line |
| PromptProperties.BaseOnlyIffFalsy | backend/api/views.py:28-33 | the prompt is the base text alone exactly when the context is absent, null or an empty object |
| PromptProperties.PromptFrame | backend/api/views.py:35-73 | a prompt for a non-empty context starts with base, newline, header, and ends with newline and the closing sentence |
| PromptProperties.JoinFrame | backend/api/views.py:73 | joining three or more parts puts the first two at the start and the last at the end |
| PromptProperties.BareContext | backend/api/views.py:35-72 | the parts are exactly base, header and closing when no key yields a line |
| PromptProperties.BarePrompt | backend/api/views.py:35-73 | a non-empty context with nothing to show gives base, header and closing joined by newlines |
| PromptExamples.BudgetShown | backend/api/views.py:42-44 | a budget of 150.50 gives the line "- Monthly budget: 150.50" |
| PromptExamples.ZeroBudgetHidden | backend/api/views.py:42-44 | a budget of zero gives no budget line |
| PromptExamples.CategoryLineExample | backend/api/views.py:52-55 | Food 12.50 and Rent 800.00 give "Food: 12.50, Rent: 800.00", in item order |
| PromptExamples.NullCategoryAmountRaises | backend/api/views.py:57-59 | a null limit raises |
| PromptExamples.EmptyExpenseLine | backend/api/views.py:66 | an expense without keys prints "  ?: 0.00 ()" |
| PromptExamples.NullTextsLine | backend/api/views.py:66-67 | null category and date print "None"; an empty note adds nothing |
| PromptExamples.NoteLine | backend/api/views.py:66-68 | a note is appended after " — " |
| PromptExamples.NullAmountRaises | backend/api/views.py:66 | a null amount raises |
| Views.ChatOutcome | backend/api/views.py:77-115 | every response is 200, 400 or 500; 200 exactly for a reply; every error body is one of the three fixed messages; an existing client is kept |
| Views.ViewsModule.constructor | backend/api/views.py:14 | the process starts without a client |
| Views.OpenAIClient.constructor | backend/api/views.py:23 | a client keeps the key it was made with |
| Views.ViewsModule.GetOpenAIClient | backend/api/views.py:16-24 | an existing client is returned and kept; otherwise a falsy key raises and leaves none, and a truthy key makes, keeps and returns a fresh client with that key |
| Views.ViewsModule.AiChat | backend/api/views.py:77-115 | the view's response, the request it sends and the client it leaves are exactly those of ChatOutcome; an existing client is never replaced |
| ViewsProperties.BadRequestIffNoMessage | backend/api/views.py:79-86 | 400 exactly when the message is absent, null or empty; then the fixed error, no remote call and no client change, whatever the context, key or remote |
| ViewsProperties.NotConfiguredWithoutKey | backend/api/views.py:88-93 | with a message but no key: "AI service is not configured", no remote call, client unchanged, even for a context that would raise |
| ViewsProperties.RemoteCalledExactly | backend/api/views.py:95-103 | the remote call happens exactly when message, key and prompt are all there, and sends the built prompt and the raw message |
| ViewsProperties.NoContextSendsBase | backend/api/views.py:32-33 | without a context the system message is the base instruction alone |
| ViewsProperties.PromptFailureIsGeneric | backend/api/views.py:110-115 | a prompt that raises gives the generic 500 and no remote call |
| ViewsProperties.ReplyIsFirstChoice | backend/api/views.py:96-115 | once sent, the call goes through the process-wide client; 200 with the first choice's content exactly when there is one, otherwise the generic 500 |
| ViewsProperties.ClientLifecycle | backend/api/views.py:16-24 | an existing client is kept; without one, a client with the configured key is made exactly when the request reaches the remote call |
| ViewsProperties.ClientReused | backend/api/views.py:19-24 | the client one request leaves is the one the next request uses and keeps |

## Left out

- Floating point: amounts are exact integer cents and the percentage is exact tenths. Python's `:.2f` of a binary float (its rounding and its NaN and infinities) is not modelled, nor are amounts with more decimals than are printed. A JSON amount with at most two decimals prints as the model prints it when its magnitude is below 2^46 (about 7·10^13), and a percentage with at most one decimal when it is below 2^49. Beyond those bounds the nearest float can round to a different last digit; for example, `85032651819248.99` does not print as the model prints it. A negative zero (`-0.0`) is not modelled either: Python prints it as `-0.00` (`-0.0%` for the percentage), while the model holds the integer 0 and prints `0.00`.
- Ill-typed JSON is not modelled. This covers a request body or `user_context` that is not an object, a number given as text, a non-string message, category, date or note, and a recent expense that is not an object. In the source a number given as text raises ValueError in `:.2f` or `:.1f` (TypeError in the budget's `> 0`), a non-object raises AttributeError, and all of these become the generic 500; a falsy `user_context` of another type (`0`, `""`, `[]`) gives the base prompt, and a non-string category, date or note is printed with `str()`.
- Duplicate keys: a mapping is modelled as its items in insertion order, and nothing stops that sequence from repeating a key.
- Logging (lines 89 and 111) changes no response, and the exception text is never shown to the caller. Neither is modelled.
- The web framework is not modelled: routing, `@api_view`, request parsing and response rendering. The unused import of `render` is not modelled either.
- The OpenAI library is not modelled: the remote service is the `remote` parameter. It is given the calling client's key and the request, and answers with the message contents of the choices or a failure.
- Concurrency: the lazy initialisation is modelled for one request at a time. A race between two first requests is not modelled.
- Settings changing during a request: `AiChat` reads the key once per request. The ValueError branch of `get_openai_client` therefore cannot be reached from the view. `GetOpenAIClient` still models that branch on its own.
- Null values are modelled as the code treats them:
  - A null mapping value or a null expense amount makes `_build_system_prompt` raise TypeError in `:.2f`, which the view turns into the generic 500.
  - A category or date given as null appears as "None". Only an absent category or date gets the "?" or empty default.
