# A verified model of the Telegram command bridge

`webhook.js` is a small Express server that turns Telegram chat messages into jobs for
local scripts. It handles expenses, payment lookups, sales reports and product lookups.
This project models its core in Dafny:

- how a command such as `/report@shop_bot` is split into the command and the bot name,
  and how the bot name selects a token from the bot registry (`bot_identity.dfy`);
- the single-quote argument quoting of the process runner, with a reader for the quoted
  command line that proves every argument reads back as exactly one word
  (`shell_quote.dfy`);
- the MarkdownV2 escaping of outbound text (`markdown.dfy`);
- the product card built from a product lookup, with its four status buckets
  (`product_card.dfy`);
- how a job's process settles and which reply a settled job sends (`jobs.dfy`,
  `completion.dfy`);
- the serial job queue, `commandQueue` with the `isProcessingCommand` flag, as a class
  (`command_queue.dfy`);
- the `/telegram` handler's per-chat conversation state machine (`router.dfy`). It is a
  pure `Step` function over the chat states, plus a `Bridge` class whose
  `HandleTelegram` method updates the `chatStates` map and the queue in place and is
  proved to do what `Step` says.

String helpers with JavaScript's meaning (`||` on strings, `toLowerCase`, `trim`, `split`,
`join`, `includes`) are in `text.dfy`. The `Option` type is in `options.dfy`.

`escapeMarkdownV2` is not idempotent, because the backslash is not a reserved character:
`Markdown.EscapeNotIdempotent` shows `_` escaping to `\_` and then to `\\_`.

The payment-lookup failure reply reads `errorOutcome.message`, which no rejection of
`runCommandAsync` carries. The reply is therefore always the generic "Error desconocido"
text, as `Completion.PagoMovilFailureIgnoresCause` states.

## Model

| member | source | states |
|---|---|---|
| Text.Or | webhook.js:605 | `a \|\| b` on strings is `a` when `a` is truthy (present and non-empty), `b` otherwise |
| Text.ToLowerHasNoUpper | webhook.js:38 | after `toLowerCase` no ASCII capital is left |
| Text.ToLowerIdempotent | webhook.js:56-61 | lower-casing an already lower-cased name changes nothing |
| Text.TrimStart | webhook.js:608 | the result is a suffix of the text that does not start with white space |
| Text.TrimEnd | webhook.js:608 | the result is a prefix of the text that does not end with white space |
| Text.TrimStartRemovesSpace | webhook.js:608 | everything `trimStart` removes is white space |
| Text.TrimEndRemovesSpace | webhook.js:608 | everything `trimEnd` removes is white space |
| Text.TrimLayout | webhook.js:608 | `trim`'s result is the slice of the text between a run of leading and a run of trailing white space, and it neither starts nor ends with white space |
| Text.Split | webhook.js:355 | `split` gives at least one piece, and no piece holds the separator |
| Text.JoinSplit | webhook.js:355-358 | joining the pieces of a split gives back the text |
| Text.SplitJoin | webhook.js:355-358 | splitting the join of separator-free pieces gives back the pieces |
| BotIdentity.DefaultToken | webhook.js:55 | `BOT_TOKENS.default` is set exactly when the registry has the `default` key |
| BotIdentity.FirstAt | webhook.js:36 | `indexOf('@')`: `None` iff there is no `@`; otherwise an `@` with none before it |
| BotIdentity.ExtractBotName | webhook.js:34-41 | the bot name is absent iff the command has no `@`; when present it is shorter than the command and holds no ASCII capital |
| BotIdentity.ExtractBaseCommand | webhook.js:44-51 | the base command is a prefix of the text and holds no `@` |
| BotIdentity.CommandWithoutBot | webhook.js:34-51 | without `@` the base command is the whole text and there is no bot name |
| BotIdentity.CommandSplit | webhook.js:34-51 | for an `@`-free base and any suffix, `base@suffix` splits into `base` and the lower-cased suffix |
| BotIdentity.CommandReassembles | webhook.js:34-51 | a command with an `@` is its base command, the `@` and a suffix whose lower-cased form is the bot name |
| BotIdentity.IsValidBotName | webhook.js:60-62 | a name that is not valid can only select the default token |
| BotIdentity.TokenForBot | webhook.js:54-57 | the token is the default token, or the non-empty registry entry of the lower-cased, truthy bot name |
| BotIdentity.TokenSelection | webhook.js:54-62 | a valid bot name with a non-empty token gets that token; every other name gets the default token |
| BotIdentity.TokenForBotIgnoresCase | webhook.js:54-62 | token lookup and validity do not depend on the case of the bot name |
| ShellQuote.EscapeQuotes | webhook.js:302 | escaping the quotes never shortens an argument |
| ShellQuote.QuoteArg | webhook.js:302 | a quoted argument is at least two characters long and starts with `'` |
| ShellQuote.QuoteAll | webhook.js:302 | there is one quoted word per argument |
| ShellQuote.EscapedArgs | webhook.js:302 | the joined words are empty exactly when there are no arguments |
| ShellQuote.QuotedArgReadsBack | webhook.js:302 | a shell reads a quoted argument, followed by a blank or the end, as exactly that argument |
| ShellQuote.EscapedArgsReadBack | webhook.js:302 | the joined quoted words read back as exactly the argument list, in order |
| ShellQuote.CommandLine | webhook.js:127-128 | with a program path of plain characters, `runCommand`'s command line reads back as the path followed by every argument, in order, each as one word |
| ShellQuote.CommandLineAsync | webhook.js:302-303 | with a program path of plain characters, `runCommandAsync`'s command line reads back as the path and the arguments, or the path and one empty word when there are none |
| ShellQuote.CommandLineAsyncAgrees | webhook.js:302-303 | `runCommandAsync` builds the same line for `[]` as for `[""]`, and otherwise the same line as `runCommand` |
| Markdown.EscapeMarkdownV2 | webhook.js:146-149 | the escaped text never starts with a reserved character |
| Markdown.EscapeLength | webhook.js:146-149 | exactly one character is added per reserved character |
| Markdown.UnescapeEscape | webhook.js:146-149 | deleting the inserted backslashes gives back the text, including its own backslashes |
| Markdown.ReservedArePreceded | webhook.js:146-149 | every reserved character of the output has a backslash right before it |
| Markdown.EscapeConcat | webhook.js:146-149 | escaping goes character by character, so it distributes over concatenation |
| Markdown.EscapePlain | webhook.js:146-149 | text without reserved characters is sent unchanged |
| Markdown.EscapeNotIdempotent | webhook.js:146-149 | escaping twice differs from escaping once (`_`, then `\_`, then `\\_`) |
| Jobs.Settle | webhook.js:305-323 | the process resolves iff there is no execution error and no standard error, and then with its stdout; otherwise it rejects with the error and the stderr |
| Jobs.WireText | webhook.js:249-276 | the text sent to the Bot API is the MarkdownV2 escaping of the composed text, and unescaping it gives that text back |
| ProductCard.TopLines | webhook.js:165-173 | the card opens with seven fixed lines |
| ProductCard.StatusMarker | webhook.js:181 | every status gets a one-character marker, and it is 🔄 exactly for the statuses outside the three named buckets |
| ProductCard.InBucket | webhook.js:190-204 | a bucket holds only siblings whose status selects that bucket |
| ProductCard.InBucketConcat | webhook.js:198-204 | sorting into a bucket distributes over concatenation, so each bucket keeps the siblings in input order |
| ProductCard.Section | webhook.js:207-234 | an empty bucket prints nothing; otherwise one title and one line per sibling |
| ProductCard.ParseProductLookup | webhook.js:152-247 | a parse error gives the error-prefixed message with no image; an image is returned only when the product has a non-empty `Image`, and then it is that image |
| ProductCard.SaleLineIsNotPurchaseLine | webhook.js:176-180 | the sale-price line is never the purchase-price line |
| ProductCard.HeaderWithoutPurchasePrice | webhook.js:165-181 | a group chat gets the private chat's product lines without line 7, the purchase price |
| ProductCard.PurchasePriceOnlyInPrivate | webhook.js:165-236 | the whole group card is the private card without its purchase-price line |
| ProductCard.SiblingSectionPresence | webhook.js:159-187 | the card starts with the product's lines and ends them with the status line; the sibling listing follows iff `group` is truthy and `groupProducts` is a non-empty array |
| ProductCard.OneBucket | webhook.js:198-204 | each product falls into exactly one of the four buckets |
| ProductCard.AllBucketsHoldEverything | webhook.js:190-204 | the four buckets together hold the siblings as a multiset |
| ProductCard.BucketsPartition | webhook.js:190-204 | the four buckets, concatenated, are a permutation of the siblings |
| ProductCard.GroupLinesCount | webhook.js:185-236 | the listing has two opening lines, one line per sibling and one title per non-empty bucket |
| ProductCard.BucketMarkerAgrees | webhook.js:181-229 | every sibling listed under a bucket's section title is listed under the marker its own status line would carry: the title starts with that marker |
| Completion.KeepNonSaldo | webhook.js:355-357 | the kept lines are lines of the input, and none contains the balance marker |
| Completion.WithoutSaldo | webhook.js:355-358 | an output with no balance line is sent exactly as it is |
| Completion.KeepNonSaldoConcat | webhook.js:355-357 | filtering goes line by line, so order is kept |
| Completion.KeepNonSaldoKeepsClean | webhook.js:355-357 | every line without the marker is kept, and a clean input is kept whole |
| Completion.SaldoLinesRemoved | webhook.js:353-359 | the filtered output's lines are exactly the kept lines (one empty line when none is kept) |
| Completion.CompletionReply | webhook.js:346-428 | a job of none of the four types gets no reply; every reply goes to the job's chat with `botToken \|\| TELEGRAM_TOKEN`; only a successful lookup can be sent as a photo |
| Completion.PagoMovilFailureIgnoresCause | webhook.js:393-395 | a failed payment lookup gets the same generic reply whatever the failure |
| Completion.PagoMovilListing | webhook.js:346-363 | a successful payment lookup lists the output after the header: unchanged in a private chat, only the lines without the balance marker in a group |
| Completion.ExpenseConfirmation | webhook.js:366-371 | a successful expense job confirms with the text naming the original message in quotes, to the job's chat with its reply token |
| Completion.ReportListing | webhook.js:373-378 | a successful report job sends the report header followed by the program's whole output, to the job's chat with its reply token |
| Completion.ReplyToken | webhook.js:341 | a reply uses the job's token when it is truthy and `TELEGRAM_TOKEN` otherwise |
| Completion.FailureTextNamesCause | webhook.js:397-406 | a failure text ends with the error's message if there is one, else with the stderr if there is some, else it is the "unknown" text |
| Completion.FailureNamesCause | webhook.js:396-427 | a failed expense, report or lookup job's reply ends with the cause it names, or is that job type's "unknown error" text |
| Completion.ProductLookupReply | webhook.js:267-296 | a successful lookup is sent as a photo with the card as caption exactly when the card has an image, and as the card's text otherwise |
| CommandQueue.SendsAllPresent | webhook.js:327-435 | when every job has a reply, the sent messages are those replies, one per job, in order |
| CommandQueue.RepliesOfKnownJobs | webhook.js:327-435 | jobs of the four known types each send their own reply, in job order |
| CommandQueue.JobQueue.constructor | webhook.js:64-65 | the queue starts empty and not busy |
| CommandQueue.JobQueue.Enqueue | webhook.js:528 | `commandQueue.push` appends at the tail and leaves the flag alone |
| CommandQueue.JobQueue.TryStart | webhook.js:327-340 | nothing happens when busy or empty; otherwise the flag is set and exactly the head is removed, the rest in order |
| CommandQueue.JobQueue.Finish | webhook.js:429-431 | the flag is cleared and the queue is left alone |
| CommandQueue.JobQueue.ProcessNext | webhook.js:327-435 | one call starts the head job, sends its reply and clears the flag; nothing happens when busy or empty |
| CommandQueue.JobQueue.Drain | webhook.js:327-435 | processing until empty runs every pending job once, in push order, leaves the flag clear, and sends the replies of the jobs in that order |
| Router.Recognise | webhook.js:503-599 | a base command is recognised iff it equals one command text exactly |
| Router.MessageToken | webhook.js:484 | `botName ? getTokenForBot(botName) : TELEGRAM_TOKEN` always equals `getTokenForBot(botName)` |
| Router.Ignored | webhook.js:496 | only a text naming a bot after an `@` can be ignored, and that name would select the default token |
| Router.Phone | webhook.js:679 | the phone put into the expense is never empty, and it is the sender's phone number when that is truthy |
| Router.OnPeriod | webhook.js:603-633 | a report answer queues a report job with the stored token and ends the flow, or queues nothing and keeps the states; a reply with the stored token is always sent |
| Router.OnCode | webhook.js:636-665 | a code answer queues a lookup job with the stored token and ends the flow, or queues nothing and keeps the states; a reply is always sent |
| Router.OnAmount | webhook.js:668-702 | an expense answer always queues an expense job with the stored token, ends the flow and replies |
| Router.Answer | webhook.js:603-702 | an answer either queues a job of a known type, with arguments, and removes the chat's state, or queues nothing and keeps all states; the job carries the stored token ahead of the message's |
| Router.Command | webhook.js:503-599 | every job a command queues has arguments |
| Router.Step | webhook.js:440-740 | an update without a text message changes nothing; only the update's own chat's state can change; a queued job is for that chat, is of a known type, has arguments and leaves the chat with no pending flow |
| Router.StepAnswers | webhook.js:603-702 | a handled non-command text from a chat with a pending flow is that flow's answer |
| Router.StartCommandsReplaceState | webhook.js:503-599 | `/gasto`, `/report` and `/consulta_codigo` overwrite the chat's state with their flow and bot identity, queue nothing and prompt |
| Router.PagoMovilCommandsQueueOneJob | webhook.js:515-564 | each payment command queues exactly one payment job with the raw text and the message's token, and deletes the chat's state |
| Router.ReportAnswer | webhook.js:603-633 | a trimmed period in "0".."6" queues a report job for it and ends the flow; any other answer queues nothing and keeps the flow; the reply carries the stored token |
| Router.ProductCodeAnswer | webhook.js:636-665 | a non-blank trimmed code queues a lookup job for it and ends the flow; a blank answer keeps the flow |
| Router.AmountAnswer | webhook.js:668-702 | any answer queues an expense job with `--spending=<text> source:<phone>` and ends the flow |
| Router.SilentUpdates | webhook.js:445-500 | no text message, a group command for an unknown bot, or a non-command text with no pending flow: nothing changes, nothing is sent |
| Router.AnswerConsumedOnce | webhook.js:603-739 | sending an answer again after it queued a job changes nothing and queues no second job |
| Router.ReportConversation | webhook.js:567-633 | `/report` followed by a period from the same chat queues one report job, with the token of the bot `/report` was sent to taking precedence, and ends the flow |
| Router.QueuedCommandLine | webhook.js:298-303 | every queued job's command line reads back as exactly its arguments, whatever the user typed |
| Router.Bridge.constructor | webhook.js:438 | no chat has a pending flow and the queue is empty and idle |
| Router.Bridge.HandleTelegram | webhook.js:440-740 | the handler updates `chatStates`, pushes the job and sends the reply exactly as `Step` says, and leaves the busy flag alone |
| Router.Bridge.RunCommand | webhook.js:503-599 | the command branches do what `Command` says |
| Router.Bridge.RunAnswer | webhook.js:603-702 | the answer branches do what `Answer` says |
| Router.Bridge.RunPeriod | webhook.js:603-633 | the report-period branch does what `OnPeriod` says |
| Router.Bridge.RunCode | webhook.js:636-665 | the product-code branch does what `OnCode` says |
| Router.Bridge.RunAmount | webhook.js:668-702 | the expense branch does what `OnAmount` says |

## Left out

- The Express wiring and HTTP replies (`app.post`, `app.get`, `res.status`, `app.listen`) are framework plumbing. So are the `/chat` and `/webhook` routes, `sendFBMessage` (used by the `/webhook` route only) and the legacy fire-and-forget `runCommand`; only `runCommand`'s quoting is modelled.
- Network sends are not modelled. `sendTelegramMessage` and `sendProductDetails` become `Outbound` values holding the text as composed. `Jobs.WireText` applies the MarkdownV2 escaping those sends perform.
- The text-only fallback of `sendProductDetails` after a failed photo send is not modelled, because it depends on the network's answer.
- `exec` is not modelled. A job's process outcome is an input (`ProcessResult`), and `Jobs.Settle` states how the `exec` callback turns error, stdout and stderr into that outcome.
- `JSON.parse` is an input as well: `parse` is a function parameter returning a lookup or the error's message. A JSON `null` input, which makes the formatter throw, is folded into the parse-error case.
- JavaScript's prototype-key quirk is not modelled. A registry key or an `Operacion` value such as `constructor` would hit an `Object` member; the model treats such names as ordinary keys.
- The registry is built from `process.env` by scanning the environment, which is not modelled; `Registry` is a map parameter whose `default` key is present iff `TELEGRAM_TOKEN` is set.
- Text.ToLower: only the ASCII letters are lower-cased, because Unicode case folding is not modelled.
- Text.IsSpace: the space separators are those of Unicode 15; a later Unicode version that adds one is not modelled.
- Emoji markers and message wording are opaque string constants.
- ShellQuote.ReadWords reads only the fragment of POSIX shell token recognition those command lines use: blanks, single quotes, backslash escapes and plain characters.
- Asynchronous interleaving, the `processCommandQueue()` kick after each push, and `process.nextTick` are not modelled. Each update is one atomic step, and `JobQueue.Drain` runs the queue sequentially with one outcome per pending job, so the duplicate-job race is not captured. That race comes from the report and code branches awaiting the acknowledgement before deleting the state.
- Router.Bridge: its branches append to `jobs.queue` directly rather than calling `JobQueue.Enqueue`. The effect is the same `commandQueue.push`, with the same contract.
- `isGroupChat` is absent on report and expense jobs in the source; the model stores `false`, which is what the completion code reads it as.
- Logging and the hard-coded script paths are not modelled as behaviour; the paths are constants.
