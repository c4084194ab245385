# Gemini AI chat assistant: tool dispatch and tools, in Dafny

This project models the core of a React chat assistant. The assistant forwards user
messages to the Gemini model and runs the tools the model asks for. The model has
two parts.

* **The chat hook** (`useGeminiAI`). It is the class `Session.ChatSession`, with the
  session state `messages`, `isLoading` and `error`.
  * `SendMessage` ignores blank input and appends the user message. It hands the
    model the earlier messages as history.
  * When the model asks for functions, `SendMessage` runs the tool loop. It sends
    one function response per result, makes a second model call, and appends one
    model message.
  * A failing model call is caught and shown as `error`.
  * `ClearMessages` empties the conversation.
  * The two model calls and the tools are parameters of the methods. They are
    functions of their inputs: `FirstCall`, `Invoker` and `SecondCall`.
* **The tools** (`tools.ts`).
  * Module `Tools` holds:
    * the sum tool over exact reals;
    * the prime tool, a trial-division loop proved equivalent to primality;
    * the registry of six tools, with its lookup;
    * the schema declarations sent to the model.
  * Module `RemoteTools` holds the crypto, news and currency tools. The HTTP layer
    is a parameter `net: Request -> Reply`.
  * Module `Dcf` holds the DCF valuation over reals: the five-year projection loop,
    the terminal value and the recommendation cascade.
  * Configuration keys read from the environment are `Option<string>` inputs.

Supporting modules:
* `Types`: the records of `types/index.ts` and JavaScript values.
* `Js`: the parts of JavaScript the code relies on. These are truthiness, property
  reads (reading from `undefined`/`null` throws), `trim`, and ASCII case conversion.

## Model

| member | source | states |
|---|---|---|
| Tools.SumTool | project/src/utils/tools.ts:5-7 | the result exceeds each operand by exactly the other operand |
| Tools.SumCommutative | project/src/utils/tools.ts:5-7 | swapping the operands gives the same sum |
| Tools.SumAssociative | project/src/utils/tools.ts:5-7 | summing in either grouping gives the same result |
| Tools.SumExample | project/src/utils/tools.ts:5-7 | sum(25, 37) = 62 and sum(-1.5, 0.25) = -1.25 |
| Tools.PrimeNumberTool | project/src/utils/tools.ts:10-19 | the early returns and the odd-divisor loop up to the square root answer true exactly when the integer is prime |
| Tools.PrimeShortcuts | project/src/utils/tools.ts:11-13 | numbers below 2 are not prime, 2 is prime, and no other even number is prime |
| Tools.NoDivisorBelowRoot | project/src/utils/tools.ts:15-18 | a number with no divisor from 2 up to the first i with i·i > n has no divisor below itself, so stopping at the square root is sound |
| Tools.PrimeSamples | project/src/utils/tools.ts:10-19 | which of -5, 0, 1, 2, 3, 4, 17, 18, 97 and 100 are prime |
| Tools.Lookup | project/src/utils/tools.ts:216-223 | a name finds a tool exactly when it is one of the six keys, and the tool found is the one under that key |
| Tools.RegistryRoundTrip | project/src/utils/tools.ts:216-223 | every tool is found under its own key; the keys are distinct; there are exactly six, each listed once |
| Tools.PropertyLookup | project/src/utils/tools.ts:216-223 | a property read on the registry object finds an own tool for the six keys, an inherited member for the inherited names, and nothing otherwise |
| Tools.DeclarationsMatchRegistry | project/src/utils/tools.ts:226-296 | the i-th declaration is named by the i-th registry key, so the names are distinct keys; each declares exactly the parameters its tool reads, and requires the non-optional ones |
| Tools.RequiredAreDeclared | project/src/utils/tools.ts:226-296 | every required field of a declaration is one of its declared properties |
| Js.Member | project/src/utils/tools.ts:98 | a property read fails exactly on `undefined` and `null`; a missing property reads as `undefined` |
| Js.TrimEmptyIffBlank | project/src/hooks/useGeminiAI.ts:14 | `trim()` yields the empty string exactly when every character is whitespace |
| Js.Upper | project/src/utils/tools.ts:203-204 | same length; every lower-case ASCII letter becomes its capital; all other characters are kept |
| Js.UpperIdempotent | project/src/utils/tools.ts:203-204 | upper-casing twice is upper-casing once |
| RemoteTools.CryptoPriceTool | project/src/utils/tools.ts:22-36 | fails exactly when the request for the lower-cased id fails, with the one crypto message; otherwise `data[0]` of a non-empty array, of a non-empty string, or of an object whose own `length` is a positive number; null for any other reply |
| RemoteTools.CryptoArrayLikeReply | project/src/utils/tools.ts:28-29 | the reply `{"length": 1, "0": "x"}` yields "x" |
| RemoteTools.CryptoIgnoresCase | project/src/utils/tools.ts:25 | coin ids that differ only in ASCII case give the same result |
| RemoteTools.SearchParamAppend | project/src/utils/tools.ts:55-62 | reading a parameter from appended lists finds the earlier list's value first |
| RemoteTools.BuildNewsRequest | project/src/utils/tools.ts:46-63 | a non-empty query selects `everything` with `q`, even when a category is given; else a non-empty category selects `top-headlines` with `category` and `country=us`; else plain `top-headlines` with `country=us`; key, `pageSize=5` and `language=en` always come first |
| RemoteTools.NewsTool | project/src/utils/tools.ts:39-71 | a missing key fails before any request; every failure carries 'Failed to fetch news data'; success exactly when the reply has readable data; the articles, or [] when they are falsy |
| RemoteTools.CurrencyConversionTool | project/src/utils/tools.ts:180-213 | a missing key fails; every failure carries 'Failed to convert currency'; on success, `amount` unchanged, both codes upper-cased, and rate, converted amount and time read from the reply |
| RemoteTools.CurrencyCodesNormalised | project/src/utils/tools.ts:196-204 | passing codes that are already upper-cased changes neither the request nor the result |
| Dcf.ProjectCashFlows | project/src/utils/tools.ts:121-127 | after the loop, the flow is grown by 1.05 to the power of the horizon, and the running total is the sum of the discounted grown flows |
| Dcf.GrownIsPower | project/src/utils/tools.ts:124-125 | growing year by year equals multiplying by the growth factor raised to the number of years |
| Dcf.DiscountedFlowsScale | project/src/utils/tools.ts:124-127 | the present value is the free cash flow times a non-negative factor |
| Dcf.EnterpriseValueSign | project/src/utils/tools.ts:129-135 | the enterprise value is the free cash flow times a positive constant, so it is positive, zero or negative with the free cash flow |
| Dcf.Recommend | project/src/utils/tools.ts:147-154 | the reassigned `recommendation` is the one the criteria yield, taken in priority order |
| Dcf.RecommendationCases | project/src/utils/tools.ts:147-154 | STRONG BUY iff price ≤ 0.7·iv and margin ≥ 30; else BUY iff price ≤ 0.8·iv and peg < 1; else SELL iff price > 1.2·iv; else HOLD |
| Dcf.BuffettPriceMeansMargin | project/src/utils/tools.ts:143-145 | for iv > 0, the Buffett price is at most the Lynch price, and price ≤ Buffett price holds exactly when the margin is at least 30% |
| Dcf.RecommendationMonotone | project/src/utils/tools.ts:143-154 | for iv > 0, a lower price never gets a weaker recommendation |
| Dcf.OverpricedIsSell | project/src/utils/tools.ts:152-153 | a price 25% above a positive intrinsic value is a SELL |
| Dcf.Valuate | project/src/utils/tools.ts:105-172 | the valuation follows the source's arithmetic: shares, projection, terminal value, intrinsic value, PEG, margin, buy prices and label; None where the source divides by zero |
| Dcf.DcfValuationTool | project/src/utils/tools.ts:74-177 | a missing key, a failed request, an unreadable quote or a falsy payload each fail with 'Failed to calculate DCF valuation'; otherwise the valuation of the figures read from the three payloads |
| Session.History | project/src/hooks/useGeminiAI.ts:51-54 | one entry per prior message, in order, carrying only its role and content |
| Session.HistoryAppend | project/src/hooks/useGeminiAI.ts:51-54 | the history of a longer conversation extends the history of its beginning |
| Session.HistoryIgnoresToolData | project/src/hooks/useGeminiAI.ts:51-54 | ids, timestamps, tool calls and tool results never reach the model |
| Session.Dispatch | project/src/hooks/useGeminiAI.ts:72-93 | the result keeps the call's name; there is no error exactly when a known tool returns, and then the tool's value is the result; otherwise the result is null and the error is 'Tool <name> not found', the thrown message, or 'Unknown error' |
| Session.RunTools | project/src/hooks/useGeminiAI.ts:69-94 | exactly one result per call, in the calls' order, each one decided by its own call |
| Session.RunToolsAppend | project/src/hooks/useGeminiAI.ts:71-94 | a failure in earlier calls leaves the results of later calls unchanged |
| Session.RunToolsNames | project/src/hooks/useGeminiAI.ts:69-94 | each result has its call's name, and has an error exactly when the name is unknown or the tool threw |
| Session.ExecuteCalls | project/src/hooks/useGeminiAI.ts:69-94 | the loop pushes exactly the results `RunTools` describes |
| Session.ResponseParts | project/src/hooks/useGeminiAI.ts:97-102 | one part per result, in order, with the result's name; `{error}` exactly when the error is present and non-empty, `{result}` otherwise |
| Session.ErrorPartsMatchErrors | project/src/hooks/useGeminiAI.ts:72-102 | when no tool throws an `Error` with an empty message, a part carries `{error}` exactly when its result has an error |
| Session.TurnErrors | project/src/hooks/useGeminiAI.ts:61-134 | an exchange ends in an error exactly when the first model call fails, or when functions were called and the second call fails; a failed first call shows its own message |
| Session.TurnTextPath | project/src/hooks/useGeminiAI.ts:121-130 | a reply without function calls is answered with its text and no tool data |
| Session.TurnToolPath | project/src/hooks/useGeminiAI.ts:67-120 | a reply with calls, when the second call succeeds, records the calls and one result per call, in order and by name, and shows the second call's text; the second call sees the history, the input, the whole first reply and the function responses |
| Session.TurnWellFormed | project/src/hooks/useGeminiAI.ts:107-130 | every model message an exchange appends pairs its tool calls with one result each |
| Session.DispatchAsWritten | project/src/hooks/useGeminiAI.ts:73-86 | the loop body as written: for all but the inherited names it agrees with `Dispatch`; for an inherited name it reports success exactly when the inherited member returns |
| Session.PrototypeNameSkipsNotFound | project/src/hooks/useGeminiAI.ts:73-86 | a call named "toString" gets no "not found" error as written, while `Dispatch` reports 'Tool toString not found' |
| Session.ChatSession.constructor | project/src/hooks/useGeminiAI.ts:7-9 | no messages, not loading, no error |
| Session.ChatSession.SendMessage | project/src/hooks/useGeminiAI.ts:13-138 | blank input changes nothing; otherwise the user message is appended and the model sees only the earlier messages; then either one model message is appended with no error, or the error is shown and nothing more is appended; loading is off afterwards; every message stays well formed |
| Session.ChatSession.ClearMessages | project/src/hooks/useGeminiAI.ts:140-143 | no messages and no error, whatever the prior state; so clearing is idempotent; loading is untouched |

## Left out

- HTTP traffic and the Gemini SDK are left out. Each is a function parameter returning a reply or a failure: `net`, `FirstCall`, `SecondCall` and `Invoker`. The model does not cover retries, timeouts or response objects beyond the fields read.
- Arguments are not decoded into tools: `Invoker` stands for `toolFunction(call.args)`. How each tool destructures a JSON argument object is not modelled, including JavaScript's coercion of missing or mistyped arguments.
- Numbers are exact reals, not IEEE doubles. Rounding, NaN and the infinities are not modelled.
- Dcf.Valuate, Dcf.DcfValuationTool (through Dcf.IsValuation): where the source divides by zero it reports Infinity or NaN. The model reports no valuation in three cases: a zero price, a zero market capitalisation, or a zero enterprise value.
- Dcf.Valuate, Dcf.DcfValuationTool: a zero enterprise value is the common case of the three. It arises whenever the CASH_FLOW payload has no `annualReports`, because the free cash flow then defaults to 0 (project/src/utils/tools.ts:111-113). The source still returns a report there, with intrinsic value 0 and an infinite margin of safety; for a positive price it says 'SELL'. The model reports no valuation instead.
- `parseFloat` and the `|| 0` defaults of the DCF tool are the parameter `read`. It maps the three payloads to price, P/E, market capitalisation and free cash flow.
- Dcf.ProjectCashFlows: the horizon is a parameter; the tool calls it with five years, as the source's loop does.
- Tools.PrimeNumberTool: the input is an integer. The test `i <= Math.sqrt(number)` is written as `i * i <= number`; the two agree on integers.
- Tools.PrimeNumberTool: non-integer inputs are not modelled, although the tool is declared as taking an integer and nothing enforces it. The source answers true for 2.5, because `2.5 % 2 !== 0` and the loop never runs (`3 > Math.sqrt(2.5)`).
- Js.Upper and Js.Lower convert ASCII letters only. Unicode case mapping is not modelled.
- Js.Member: reading a built-in property of a string, array or function (such as `length`) is not modelled.
- RemoteTools.CryptoPriceTool: the `length` test is modelled for arrays, strings, and objects whose own `length` is a number. An object `length` of another type (a numeric string, `true`) is coerced by `> 0` in the source and treated as no length here.
- URL building is not modelled as text: the percent-encoding of URL query parameters and the format of the provider URLs. Requests are structured values.
- React mechanics are not modelled: `useState`, `useCallback`, render batching, and the closure that captures `messages`. The intermediate rendered states are also not modelled, such as `isLoading` being true while the calls run. `SendMessage` states the final state and the history built from the messages it starts with.
- `Date.now()`, `Date.now()+1` and `new Date()` are the `Stamp` parameters given to `SendMessage`.
- `console.error` logging is not modelled. Concurrent `sendMessage` calls are not modelled either; the source awaits each tool in turn.
- The system instruction text and the model name passed to `getGenerativeModel` are not modelled.
- The presentation components are not part of this model.
- Each tool catches every failure and rethrows one generic message. A missing API key is therefore reported with that message (project/src/utils/tools.ts:41-43, 67-70).
- Nothing makes the model's final text non-empty.

## Findings

| source | as written | input that shows it | evidently intended | confidence | as-written member | corrected member |
|---|---|---|---|---|---|---|
| project/src/hooks/useGeminiAI.ts:73-74 | `availableTools[call.name]` is read on a plain object literal, so names inherited from `Object.prototype` (`toString`, `constructor`, `hasOwnProperty`, ...) find a truthy function and skip the not-found branch | a function call named `toString`: it runs `Object.prototype.toString` and reports the successful result "[object Undefined]" to the model | only the six registered tools are found; any other name gets `Tool <name> not found` | not executed | Session.DispatchAsWritten, Session.PrototypeNameSkipsNotFound | Session.Dispatch (own keys via Tools.Lookup; used by Session.ExecuteCalls and Session.RunTools) |
