# Bergknecht group orders, modelled in Dafny

Bergknecht is a Matrix chat bot. Its "Bestellung" handler lets a room order
food together. The handler works as follows:

- Someone opens an order for a delivery service from the catalog (`new`).
- Everyone adds positions: an article, a version, extras, a comment and a
  quantity (`add`).
- Positions can be removed (`remove`) and orders closed (`close`).
- The bot reads out a merged call text and suggests tips.
- It splits what was paid among the first orderers of the positions
  (`print-payment`).
- It can settle that split on a shared ledger, the "Strichliste", for
  users who linked their Matrix account to a ledger user (`add-strichliste`,
  `remove-strichliste`, `process-strichliste`).

All handlers share a text-command router. A separate command-line tool
(`datendownload`) converts a delivery platform's menu answer into catalog
entries.

The project has these modules:

- `Wrappers`: the `Option` and `Result` types.
- `Text`: string helpers standing in for Go's `strings` and `strconv`,
  and the field split of `encoding/csv`.
- `Payment`: the `User` and payment-row types, and the specification of
  the debt split: rows per first payee, their amounts, and the sum.
- `Router`: `pkg/berghandler/berghandler.go`. It covers:
  - the prefix test and strip;
  - the reading of the first CSV record into words;
  - sub-command dispatch with `help`;
  - `RemoveWord` on an array;
  - `SplitAnswer`, both as written and corrected.

  The router's own `SubHandlerSet` holds only the handler function and
  its help text. The model's `SubHandlerSet` also carries the usage text
  and the numbers of required and optional arguments. These come from
  the `SubHandlerSet` of the order handler (`pkg/handlers/bestellungHandler/bestellungHandler-commands.go`),
  which registers its commands with them. The handler function is
  represented by the key it is registered under.
- `BestellungDefinition`: the order domain model of the current revision.
  It covers position removal, the total, tip suggestions, the debt split,
  and the merge and rendering of the call text.
- `BestellungCommands`: the command handlers of the current revision.
  - Catalog lookups, extras parsing, the ledger user search and the
    ledger settlement chain.
  - The class `BestellungHandler`, whose state is:
    - the order store, a map keyed by order name plus `.toml`;
    - the link map from Matrix IDs to ledger user IDs;
    - the catalog.
- `BestellungV1`: the earlier revision `bestellungHandler.go`, with its own
  types and handler class. Its computations are stated against the
  current revision through an embedding of its positions.
- `MenuImport`: `cmd/datendownload/main.go`. It covers:
  - the product-name/size split (a bracket scan in place of the regular
    expression);
  - the "mit " removal;
  - the JSON list-or-object dispatch;
  - the conversion loop of `queryMenu`;
  - the in-place name sort of restaurants;
  - the assembly of the request parameters and the auth string.

Every handler is a method that reads the store, runs its checks, and
writes back. The checks of each handler are also a function returning
`Go(value)` or `Stop(reply)`. Each method's contract states three things:

- on `Stop`, the reply is the check's reply and the state is unchanged;
- a failing write also leaves the state unchanged;
- on success, the new state is given exactly, and the store invariant
  (every stored order's total is the sum of its line totals) is kept.

The environment's answers are parameters: the random slug words, the
clock, `strconv.Atoi`/`ParseFloat`, the outcome of loading `strichliste.toml`
(`loadErr`), the outcome of writing a file, the
ledger's HTTP answers, map iteration orders and `md5`.

Money is `real`. A Go run-time panic (indexing an empty list) is the
reply `Panic`. An order whose total is zero divides by zero, giving IEEE
infinities or NaNs in Go. Where such a value is shown or posted, the model
replies `NonFinite`. That happens in the `getPayment` view, and in
`processStrichliste` for an order that has positions. An order without
positions has an empty split, so `processStrichliste` settles it with an
empty table whatever its total.

## Model

| member | source | states |
|---|---|---|
| Text.ToLower | pkg/berghandler/berghandler.go:93 | lower-casing keeps the length and maps each character through ASCII lower-casing |
| Text.ToLowerIdempotent | pkg/berghandler/berghandler.go:58 | lower-casing twice equals lower-casing once, so a lower-cased command word is its own lower case |
| Text.ToLowerAppend | pkg/berghandler/berghandler.go:93 | lower-casing distributes over concatenation |
| Text.TrimPrefix | pkg/berghandler/berghandler.go:99 | with the prefix present, prefix + result is the input; otherwise the input is returned unchanged |
| Text.Split | pkg/berghandler/berghandler.go:102-107 | the fields of an unquoted CSV line: at least one field, no field holds the separator, and every character of a field comes from the input |
| Text.JoinSplit | pkg/berghandler/berghandler.go:102-107 | joining the fields with the separator gives the input back (splitting loses nothing) |
| Text.NatToString | cmd/datendownload/main.go:268 | `strconv.Itoa` of a natural: decimal digits only, one digit exactly below 10, and it ends with the last decimal digit |
| Text.NatToStringInjective | cmd/datendownload/main.go:268 | distinct numbers have distinct decimal texts |
| Text.IntToString | pkg/handlers/bestellungHandler/bestellungHandler-definition.go:124 | `%v` of an int: a leading '-' exactly for negatives, otherwise digits |
| Text.Occurrences | pkg/handlers/bestellungHandler/bestellungHandler-definition.go:119-128 | the count of a character is at most the length, and zero exactly when the character is absent |
| Text.OccurrencesAppend | pkg/handlers/bestellungHandler/bestellungHandler-definition.go:119-128 | counting a character distributes over concatenation |
| Text.FirstWhere | pkg/handlers/bestellungHandler/bestellungHandler-commands.go:65-71 | a search loop with `break`: nothing before the index matches, and the index is a match unless it is the length |
| Payment.FindPayee | pkg/handlers/bestellungHandler/bestellungHandler-definition.go:173-179 | the inner search of `calcPayment`: the first row of the payee, or none with no row of that payee before |
| Payment.Scale | pkg/handlers/bestellungHandler/bestellungHandler-definition.go:171 | every line keeps its payee and has its total mapped (the `getTotal() * off` step) |
| Payment.TimesAdditive | pkg/handlers/bestellungHandler/bestellungHandler-definition.go:171 | multiplying by the discount factor preserves zero and sums |
| Payment.Payees | pkg/handlers/bestellungHandler/bestellungHandler-definition.go:162-165 | the payee of each row, in row order |
| Payment.FirstAppearancesMembers | pkg/handlers/bestellungHandler/bestellungHandler-definition.go:180-182 | the first-appearance list holds exactly the users that occur |
| Payment.FirstAppearancesDistinct | pkg/handlers/bestellungHandler/bestellungHandler-definition.go:180-182 | the first-appearance list names no user twice |
| Payment.CreditPayees | pkg/handlers/bestellungHandler/bestellungHandler-definition.go:173-182 | crediting keeps the payees when the user has a row, and otherwise appends the user |
| Payment.AllocatePayees | pkg/handlers/bestellungHandler/bestellungHandler-definition.go:170-183 | the split's payees are the distinct first orderers in order of first appearance |
| Payment.AllocateDistinct | pkg/handlers/bestellungHandler/bestellungHandler-definition.go:170-183 | no two rows of the split have the same payee |
| Payment.UserTotalAbsent | pkg/handlers/bestellungHandler/bestellungHandler-definition.go:170-183 | a user who ordered no line owes nothing |
| Payment.AllocateAmounts | pkg/handlers/bestellungHandler/bestellungHandler-definition.go:170-183 | each row's amount is the sum of that payee's line totals |
| Payment.CreditSum | pkg/handlers/bestellungHandler/bestellungHandler-definition.go:175-181 | one credit raises the sum of the amounts by exactly the credited amount |
| Payment.AllocateSum | pkg/handlers/bestellungHandler/bestellungHandler-definition.go:170-183 | the amounts add up to the sum of all line totals |
| Payment.LinesOf | pkg/handlers/bestellungHandler/bestellungHandler-definition.go:174 | the lines a user ordered first, in order |
| Payment.UserTotalLinesOf | pkg/handlers/bestellungHandler/bestellungHandler-definition.go:170-183 | a payee's total is the sum over that payee's lines |
| Payment.LinesOfScale | pkg/handlers/bestellungHandler/bestellungHandler-definition.go:171 | selecting a payee's lines commutes with scaling |
| Payment.ScaleSum | pkg/handlers/bestellungHandler/bestellungHandler-definition.go:171 | scaling every line by an additive map maps the grand total through it |
| Payment.ScaleUserTotal | pkg/handlers/bestellungHandler/bestellungHandler-definition.go:171 | scaling every line by an additive map maps each payee's total through it |
| Payment.ScalePayees | pkg/handlers/bestellungHandler/bestellungHandler-definition.go:171 | scaling keeps every line's payee |
| Router.StripPrefix | pkg/berghandler/berghandler.go:98-100 | removes one leading `CommandPrefix+prefix+" "` case-sensitively when present, else returns the message unchanged |
| Router.GetContent | pkg/berghandler/berghandler.go:102-107 | `csv.Reader.Read` with a space separator. It is the EOF error exactly when every line is blank (empty, or a lone carriage return). Otherwise the record is the first non-blank line, without its carriage return: at least one word, no word holds a space or a line break, and the words joined by spaces are that line |
| Router.GetContentOneLine | pkg/berghandler/berghandler.go:102-107 | a message on one line, without a carriage return, is the EOF error when empty and otherwise its pieces between spaces |
| Router.GetContentFirstLine | pkg/berghandler/berghandler.go:102-107 | whatever follows the first line break after a non-blank line never reaches the words |
| Router.SplitLine | pkg/berghandler/berghandler.go:102-107 | splitting at the first separator gives the part before it, then the pieces of the rest |
| Router.Removed | pkg/berghandler/berghandler.go:149-151 | the sequence without element i: one shorter, elements before i kept, elements after i shifted down by one |
| Router.RemoveWord | pkg/berghandler/berghandler.go:149-151 | in place on the shared array: the returned slice is the input without element s, and the array's last cell keeps its old value |
| Router.Route | pkg/berghandler/berghandler.go:51-83 | not handled exactly when the prefix test fails. A dispatch comes from a decoded message and goes to the registered handler of its lower-cased first word. That handler gets the remaining words, and the case is not a `help` that `Route` answers itself |
| Router.RouteDispatches | pkg/berghandler/berghandler.go:58-80 | the converse: a decoded, prefixed message whose lower-cased first word is registered, and which is not a bare `help` or a `help` with a registered argument, calls that word's handler with the remaining words |
| Router.GetAvailableCommands | pkg/berghandler/berghandler.go:42-49 | the output is each registered key once, each followed by one space, in some iteration order of the map, and nothing else |
| Router.Handle | pkg/berghandler/berghandler.go:51-83 | a bare `help` replies with the header and the whole key listing; every other outcome is the routing decision |
| Router.RouteIgnoresOtherMessages | pkg/berghandler/berghandler.go:51-83 | a body whose lower case lacks the prefix, and every non-message event, is not handled |
| Router.HelpForUnknownCommand | pkg/berghandler/berghandler.go:63-79 | `help x` for an unregistered x yields the unknown-command reply, because `help` itself is not registered |
| Router.HelpForRegisteredCommand | pkg/berghandler/berghandler.go:63-73 | `help x` for a registered x replies with x's help text |
| Router.HelpWords | pkg/berghandler/berghandler.go:89-107 | `!<command> help <x>` passes the prefix test and yields the words `help` and x |
| Router.CaseMismatchIsUnknown | pkg/berghandler/berghandler.go:89-107 | a first word matching the command only after lower-casing passes the test but is not stripped, and so yields the unknown-command reply |
| Router.CaseMismatchWords | pkg/berghandler/berghandler.go:89-107 | such a message passes the prefix test and keeps its first word as the first of two words |
| Router.NotStripped | pkg/berghandler/berghandler.go:98-100 | a first word other than `!<command>` keeps the message from starting with `!<command> ` |
| Router.ToLowerPrefix | pkg/berghandler/berghandler.go:93 | a message starting with a lower-case prefix still starts with it after lower-casing |
| Router.SplitWordThenWord | pkg/berghandler/berghandler.go:102-107 | two separator-free words joined by the separator split into exactly those two |
| Router.SplitWord | pkg/berghandler/berghandler.go:102-107 | a separator-free word splits into itself |
| Router.BindAsWritten | pkg/berghandler/berghandler.go:131-147 | refused exactly when a count check fails; otherwise more words than variables is an index past the last variable |
| Router.Bind | pkg/berghandler/berghandler.go:131-147 | refused exactly when a count check fails; otherwise binds min(words, vars) words and never indexes out of range |
| Router.Assigned | pkg/berghandler/berghandler.go:143-145 | the first `count` variables hold the lower-cased words and the rest keep their values |
| Router.Bindings | pkg/berghandler/berghandler.go:131-147 | the first failing check's message in the code's order, or n variables holding the lower-cased words, empty past the last word |
| Router.SplitAnswer | pkg/berghandler/berghandler.go:131-147 | error exactly as the checks say, in order, with the variables untouched; otherwise the variables become the corrected binding |
| Router.SplitAnswerAsWritten | pkg/berghandler/berghandler.go:131-147 | the code as written: same errors, a crash exactly when there are more words than variables, and every variable assigned before the crash |
| Router.BindAgreesBelowOverflow | pkg/berghandler/berghandler.go:139-145 | wherever the code as written does not crash, it agrees with the corrected binding |
| Router.NewOrderWithTwoWordsOverflows | pkg/berghandler/berghandler.go:139-145 | two words for `new` (one variable) overflow as written; the corrected binding takes the first word |
| BestellungDefinition.OwnershipUsesMatrixIdOnly | pkg/handlers/bestellungHandler/bestellungHandler-definition.go:200-231 | `isCreator` and `isBesteller` depend only on the creator's and the first orderer's Matrix IDs, not on display names, other positions or later orderers |
| BestellungDefinition.RemovePosition | pkg/handlers/bestellungHandler/bestellungHandler-definition.go:86-90 | an in-range index removes exactly that position and keeps the rest in order; any other index leaves the order unchanged; no other field changes |
| BestellungDefinition.RemovePositionMultiset | pkg/handlers/bestellungHandler/bestellungHandler-definition.go:86-90 | removal keeps every other position exactly once |
| BestellungDefinition.MultipleIsProduct | pkg/handlers/bestellungHandler/bestellungHandler-definition.go:225-227 | the line total is quantity times unit price |
| BestellungDefinition.PositionsTotalAppend | pkg/handlers/bestellungHandler/bestellungHandler-definition.go:132-138 | appending a position adds its line total to the sum |
| BestellungDefinition.PositionsTotalConcat | pkg/handlers/bestellungHandler/bestellungHandler-definition.go:132-138 | the sum of line totals distributes over concatenation |
| BestellungDefinition.RemovePositionTotal | pkg/handlers/bestellungHandler/bestellungHandler-definition.go:86-90 | removing position i lowers the sum by exactly that position's line total |
| BestellungDefinition.CalcTotal | pkg/handlers/bestellungHandler/bestellungHandler-definition.go:132-138 | sets Total to the sum of quantity × unit price over all positions, recomputed from scratch; no other field changes |
| BestellungDefinition.Ceil | pkg/handlers/bestellungHandler/bestellungHandler-definition.go:142 | the least integer not below x |
| BestellungDefinition.RoundHalfUp | pkg/handlers/bestellungHandler/bestellungHandler-definition.go:143-145 | floor(x + 0.5): the nearest integer, with halves rounded up |
| BestellungDefinition.CalcTips | pkg/handlers/bestellungHandler/bestellungHandler-definition.go:140-147 | Total ≤ up < Total+1; five, ten and twenty are Total × 1.05, 1.10 and 1.20 rounded half up |
| BestellungDefinition.TipsFor1930 | pkg/handlers/bestellungHandler/bestellungHandler-definition.go:140-147 | a total of 19.30 gives 20, 20, 21 and 23 |
| BestellungDefinition.TipsOrdered | pkg/handlers/bestellungHandler/bestellungHandler-definition.go:143-145 | for a non-negative total the 5%, 10% and 20% suggestions are ordered |
| BestellungDefinition.TotalRows | pkg/handlers/bestellungHandler/bestellungHandler-definition.go:149-160 | five rows, each label with its value: the total, "Aufgerundet" with the ceiling (at least the total and below total + 1), "5% Trinkgeld" and "10% Trinkgeld" with the total times 1.05 and 1.10 rounded half up, and "15% Trinkgeld" with the 1.20 value |
| BestellungDefinition.Lines | pkg/handlers/bestellungHandler/bestellungHandler-definition.go:170-171 | per position: its first orderer and its line total |
| BestellungDefinition.FirstOrderers | pkg/handlers/bestellungHandler/bestellungHandler-definition.go:174 | `Besteller[0]` of each position, in order |
| BestellungDefinition.SplitStep | pkg/handlers/bestellungHandler/bestellungHandler-definition.go:170-183 | one loop step credits the next position's scaled line total to its first orderer |
| BestellungDefinition.DiscountFactor | pkg/handlers/bestellungHandler/bestellungHandler-definition.go:169 | (100 / Total × Payed) / 100 is Payed / Total |
| BestellungDefinition.CreditRow | pkg/handlers/bestellungHandler/bestellungHandler-definition.go:172-182 | the inner loop adds the payment to the first row of the payee, or appends a new row |
| BestellungDefinition.CalcPayment | pkg/handlers/bestellungHandler/bestellungHandler-definition.go:167-185 | off = Payed / Total, and the rows are the specified split of the positions' line totals times off |
| BestellungDefinition.SplitPayees | pkg/handlers/bestellungHandler/bestellungHandler-definition.go:167-185 | one row per distinct first orderer, in order of first appearance, none twice |
| BestellungDefinition.SplitAmounts | pkg/handlers/bestellungHandler/bestellungHandler-definition.go:167-185 | each row holds the scaled sum of the line totals of its payee's positions |
| BestellungDefinition.SplitSum | pkg/handlers/bestellungHandler/bestellungHandler-definition.go:167-185 | the rows add up to the scaled sum of all line totals |
| BestellungDefinition.PaymentSplitRows | pkg/handlers/bestellungHandler/bestellungHandler-definition.go:167-185 | one row per distinct first orderer in first-appearance order, each owing off × that user's line totals |
| BestellungDefinition.PayedBack | pkg/handlers/bestellungHandler/bestellungHandler-definition.go:169 | Total × (Payed / Total) is Payed |
| BestellungDefinition.PaymentSplitCoversPayed | pkg/handlers/bestellungHandler/bestellungHandler-definition.go:167-185 | when Total is the sum of the line totals, the amounts add up to exactly Payed |
| BestellungDefinition.LinesTotal | pkg/handlers/bestellungHandler/bestellungHandler-definition.go:132-138 | the line totals of the split add up to the order's sum |
| BestellungDefinition.DebtRows | pkg/handlers/bestellungHandler/bestellungHandler-definition.go:194-196 | one row per payment row: the display name and the amount |
| BestellungDefinition.IsSameAsIsKeyEquality | pkg/handlers/bestellungHandler/bestellungHandler-definition.go:215-223 | `isSameAs` is equality of (name, number, version, extras, comment), hence an equivalence; it ignores price, quantity and orderers |
| BestellungDefinition.Keys | pkg/handlers/bestellungHandler/bestellungHandler-definition.go:215-223 | the compared fields of each position, in order |
| BestellungDefinition.FindSame | pkg/handlers/bestellungHandler/bestellungHandler-definition.go:107-113 | the inner merge search: the first equivalent merged position, with none equivalent before it |
| BestellungDefinition.MergeRow | pkg/handlers/bestellungHandler/bestellungHandler-definition.go:106-117 | the inner loop folds the position into the first equivalent one (quantities add, orderers appended) or appends it |
| BestellungDefinition.MergePositions | pkg/handlers/bestellungHandler/bestellungHandler-definition.go:104-118 | the merge loop folds every position, in order |
| BestellungDefinition.MergeIntoKeys | pkg/handlers/bestellungHandler/bestellungHandler-definition.go:106-117 | a step leaves the keys unchanged for a known key and appends a new key, and the search succeeds exactly for a known key |
| BestellungDefinition.MergeKeys | pkg/handlers/bestellungHandler/bestellungHandler-definition.go:104-118 | the merged keys are pairwise different and are exactly the input's keys |
| BestellungDefinition.MergeNoDuplicates | pkg/handlers/bestellungHandler/bestellungHandler-definition.go:104-118 | no two merged positions are `isSameAs`-equal |
| BestellungDefinition.MergeCombined | pkg/handlers/bestellungHandler/bestellungHandler-definition.go:104-118 | each merged position is the first position of its key, with the quantities of all positions of that key added and their orderers concatenated in order |
| BestellungDefinition.MergeStepCombined | pkg/handlers/bestellungHandler/bestellungHandler-definition.go:106-117 | one merge step keeps every merged position equal to the reference combination |
| BestellungDefinition.MergeIntoAnzahl | pkg/handlers/bestellungHandler/bestellungHandler-definition.go:106-117 | one step adds the folded position's quantity to the total quantity |
| BestellungDefinition.MergeAnzahl | pkg/handlers/bestellungHandler/bestellungHandler-definition.go:104-118 | merging preserves the total quantity |
| BestellungDefinition.GetCallText | pkg/handlers/bestellungHandler/bestellungHandler-definition.go:103-130 | the text is the header followed by one rendered line per merged position, in merge order |
| BestellungDefinition.RenderLineNumbered | pkg/handlers/bestellungHandler/bestellungHandler-definition.go:123-124 | a numbered article's line starts with the count, "mal", "die Nummer" and the number |
| BestellungDefinition.RenderLineUnnumbered | pkg/handlers/bestellungHandler/bestellungHandler-definition.go:125-126 | an unnumbered article's line has the name right after the count and "mal", without "die Nummer" |
| BestellungDefinition.RenderLineNewlines | pkg/handlers/bestellungHandler/bestellungHandler-definition.go:124-126 | a rendered line holds exactly one line break when its fields hold none |
| BestellungDefinition.RenderLinesNewlines | pkg/handlers/bestellungHandler/bestellungHandler-definition.go:122-128 | the rendered lines hold one line break per merged position |
| BestellungDefinition.OneLine | pkg/handlers/bestellungHandler/bestellungHandler-definition.go:119-121 | a break-free text followed by a line break holds exactly one |
| BestellungDefinition.HeaderNewlines | pkg/handlers/bestellungHandler/bestellungHandler-definition.go:119-121 | the header holds four line breaks: service, phone number, an empty line and the greeting |
| BestellungDefinition.CallTextLines | pkg/handlers/bestellungHandler/bestellungHandler-definition.go:103-130 | with break-free fields the call text has 4 + (number of merged positions) line breaks |
| BestellungCommands.BindArgs | pkg/handlers/bestellungHandler/bestellungHandler-commands.go:141 | binding into fresh empty variables gives exactly the corrected `SplitAnswer` result |
| BestellungCommands.Find | pkg/handlers/bestellungHandler/bestellungHandler-commands.go:163-169 | the found/break search loop: `found` iff some element matches, and the index is the first match |
| BestellungCommands.ChosenVersion | pkg/handlers/bestellungHandler/bestellungHandler-commands.go:173-183 | `Versionen[0]` by default; with several versions, the first lower-case name match; an unmatched token or a single version keeps `Versionen[0]` |
| BestellungCommands.ChooseVersion | pkg/handlers/bestellungHandler/bestellungHandler-commands.go:173-183 | the version loop picks the specified version |
| BestellungCommands.MatchExtrasOk | pkg/handlers/bestellungHandler/bestellungHandler-commands.go:115-127 | a successful match has one extra per field, in field order, each the first extra named by its lower-cased field |
| BestellungCommands.MatchExtrasErr | pkg/handlers/bestellungHandler/bestellungHandler-commands.go:115-127 | the match fails exactly when some field names no extra, and the error names the first such field |
| BestellungCommands.ParseExtras | pkg/handlers/bestellungHandler/bestellungHandler-commands.go:104-129 | the empty string gives no extras; otherwise the comma fields are matched in order, and any unmatched field fails the whole call |
| BestellungCommands.GetExtrasTotal | pkg/handlers/bestellungHandler/bestellungHandler-commands.go:131-137 | the sum of the extras' prices |
| BestellungCommands.ExtrasTotalNonNegative | pkg/handlers/bestellungHandler/bestellungHandler-commands.go:131-137 | extras with non-negative prices never lower the unit price |
| BestellungCommands.StrichlistenID | pkg/handlers/bestellungHandler/bestellungHandler-commands.go:375-409 | a request error or Count 0 is an error; Count 1 takes users[0] (a panic on an empty list); otherwise the first case-insensitive name match or an error; a disabled user is an error; a found ID belongs to an enabled listed user |
| BestellungCommands.GetStrichlistenID | pkg/handlers/bestellungHandler/bestellungHandler-commands.go:375-409 | the method returns the specified selection for the search answer at the search URL |
| BestellungCommands.DoPayment | pkg/handlers/bestellungHandler/bestellungHandler-commands.go:461-502 | the chain: unlinked payee, then payee is the payer, then user request error, then disabled (no transaction in these); otherwise a transaction of ceil(Amount × 100) with the payer as recipient is posted to the payee's URL |
| BestellungCommands.DoPayments | pkg/handlers/bestellungHandler/bestellungHandler-commands.go:533-542 | the fan-out, run in order, fills the result map and the list of posted transactions as specified |
| BestellungCommands.ResultsPerPayee | pkg/handlers/bestellungHandler/bestellungHandler-commands.go:533-542 | with distinct payees, the result map has exactly one entry per row, that row's outcome, so completion order does not matter |
| BestellungCommands.SettlementPostings | pkg/handlers/bestellungHandler/bestellungHandler-commands.go:504-551 | nothing is posted without a settlement (`NonFinite` for positions with a zero total is listed under "## Left out"). With one, at most one transaction per first orderer is posted. Each credits the payer's ledger user with the order's comment, and is debited, in cents rounded up, from the payee of a split row who is linked to another ledger user |
| BestellungCommands.RequestsCreditPayer | pkg/handlers/bestellungHandler/bestellungHandler-commands.go:487-495 | every posted transaction credits the payer with the order's comment and is debited from a linked payee other than the payer |
| BestellungCommands.NewBestellung | pkg/handlers/bestellungHandler/bestellungHandler-commands.go:91-95 | a new order has no positions and total 0, so it is consistent |
| BestellungCommands.WithPositionConsistent | pkg/handlers/bestellungHandler/bestellungHandler-commands.go:199-200 | appending a position keeps the order consistent, raises the total by the line total, and keeps the earlier positions and other fields |
| BestellungCommands.WithoutPositionConsistent | pkg/handlers/bestellungHandler/bestellungHandler-commands.go:316-317 | removing a position keeps the order consistent and lowers the total by its line total |
| BestellungCommands.NewOrderChecks | pkg/handlers/bestellungHandler/bestellungHandler-commands.go:76-84 | on success, the service is in the catalog and its lower-cased name is the token |
| BestellungCommands.AddChecks | pkg/handlers/bestellungHandler/bestellungHandler-commands.go:139-187 | on success, the key is a stored order and the new position's only orderer is the sender |
| BestellungCommands.PositionFor | pkg/handlers/bestellungHandler/bestellungHandler-commands.go:157-187 | on success, the position has the sender as orderer, the quantity and the comment |
| BestellungCommands.ArticlePosition | pkg/handlers/bestellungHandler/bestellungHandler-commands.go:173-198 | on success, the position has the sender as orderer, the quantity and the comment |
| BestellungCommands.DeleteChecks | pkg/handlers/bestellungHandler/bestellungHandler-commands.go:294-315 | on success, the key is a stored order and the index is in range |
| BestellungCommands.CloseChecks | pkg/handlers/bestellungHandler/bestellungHandler-commands.go:325-337 | on success, the key is a stored order created by the sender |
| BestellungCommands.PrintPaymentChecks | pkg/handlers/bestellungHandler/bestellungHandler-commands.go:263-280 | on success, the key is a stored order |
| BestellungCommands.DeleteAuthorization | pkg/handlers/bestellungHandler/bestellungHandler-commands.go:310-315 | an index out of range gives "Position nicht vorhanden"; in range, removal goes ahead iff the sender is the creator OR the first orderer, and is refused as unauthorized otherwise |
| BestellungCommands.CloseAuthorization | pkg/handlers/bestellungHandler/bestellungHandler-commands.go:335-337 | closing a stored order goes ahead iff the sender is its creator; otherwise the reply is unauthorized |
| BestellungCommands.AddedPosition | pkg/handlers/bestellungHandler/bestellungHandler-commands.go:145-199 | on success: the first matching article of the order's service, the chosen version, the typed extras, unit price = version price + extras' prices, quantity 1 if absent else the Atoi result, and the sender as only orderer |
| BestellungCommands.AddUnknownArticle | pkg/handlers/bestellungHandler/bestellungHandler-commands.go:163-172 | an article the service does not offer is refused with "Artikel nicht gefunden" |
| BestellungCommands.SettlementPerPayee | pkg/handlers/bestellungHandler/bestellungHandler-commands.go:504-551 | a settlement needs a creator, a paid order, a loaded link file and a linked payer (the creator by default), and a non-zero total unless the order has no positions; it then holds exactly one entry per first orderer, the `doPayment` outcome with the payer's ledger ID |
| BestellungCommands.SplitPostings | pkg/handlers/bestellungHandler/bestellungHandler-commands.go:533-542 | the transactions posted for a settled order's split: at most one per first orderer, each crediting the payer with the order's comment and charging a row's amount in cents, rounded up, to a payee linked to another ledger user |
| BestellungCommands.EmptyOrderSettlesNothing | pkg/handlers/bestellungHandler/bestellungHandler-commands.go:504-551 | a paid order without positions, with a linked payer, settles with an empty table and posts nothing, whatever its total |
| BestellungCommands.BestellungHandler.constructor | pkg/handlers/bestellungHandler/bestellungHandler-commands.go:30-48 | the catalog and ledger address as loaded, an empty store and the given links, all consistent |
| BestellungCommands.BestellungHandler.SearchLieferdienst | pkg/handlers/bestellungHandler/bestellungHandler-commands.go:62-73 | found iff some service's lower-cased name is the token; the result is the first such service, else the empty service |
| BestellungCommands.BestellungHandler.NewOrder | pkg/handlers/bestellungHandler/bestellungHandler-commands.go:75-102 | a failed check or write changes nothing; otherwise stores the fresh order under the lower-cased slug; links unchanged, invariant kept |
| BestellungCommands.BestellungHandler.BuildPosition | pkg/handlers/bestellungHandler/bestellungHandler-commands.go:157-198 | the service, article, version and extras lookups give the specified position or refusal |
| BestellungCommands.BestellungHandler.MakePosition | pkg/handlers/bestellungHandler/bestellungHandler-commands.go:173-198 | the version and extras steps give the specified position or refusal |
| BestellungCommands.BestellungHandler.CheckAdd | pkg/handlers/bestellungHandler/bestellungHandler-commands.go:139-198 | the checks of `addtoOrder` against the current store |
| BestellungCommands.BestellungHandler.AddToOrder | pkg/handlers/bestellungHandler/bestellungHandler-commands.go:139-206 | a refusal or failed write changes nothing; otherwise exactly one position is appended to the named order and its total recomputed; links unchanged; invariant kept |
| BestellungCommands.BestellungHandler.CheckDelete | pkg/handlers/bestellungHandler/bestellungHandler-commands.go:294-315 | the checks of `deletePosition` against the current store |
| BestellungCommands.BestellungHandler.DeletePosition | pkg/handlers/bestellungHandler/bestellungHandler-commands.go:294-323 | a refusal or failed write changes nothing; otherwise the indexed position is removed and the total recomputed; invariant kept |
| BestellungCommands.BestellungHandler.RemoveOrder | pkg/handlers/bestellungHandler/bestellungHandler-commands.go:325-347 | only the creator's close deletes the order's entry; every refusal or failed deletion changes nothing |
| BestellungCommands.BestellungHandler.CheckPrint | pkg/handlers/bestellungHandler/bestellungHandler-commands.go:263-280 | the checks of `printPayment` against the current store, with the parsed amount or 0 |
| BestellungCommands.BestellungHandler.PrintPayment | pkg/handlers/bestellungHandler/bestellungHandler-commands.go:263-292 | stores Payed as the parsed amount, or as the total when that is zero or absent, and replies with the debt split of the stored order |
| BestellungCommands.BestellungHandler.CheckLink | pkg/handlers/bestellungHandler/bestellungHandler-commands.go:411-428 | the argument error, then "Fehler beim Laden der Strichlisten Info" when the link file does not load, then the ledger user found for the bound user name or the refusal |
| BestellungCommands.BestellungHandler.AddStrichliste | pkg/handlers/bestellungHandler/bestellungHandler-commands.go:411-435 | sets only `Link[sender]` to the resolved ledger ID; every refusal, a failed load of the link file and a failed write change nothing; orders untouched |
| BestellungCommands.BestellungHandler.RemoveStrichliste | pkg/handlers/bestellungHandler/bestellungHandler-commands.go:437-452 | a failed load of the link file gives "Fehler beim Laden der Strichlisten Info" and a failed write its error, both changing nothing; otherwise deletes only `Link[sender]`; orders untouched |
| BestellungCommands.BestellungHandler.ProcessStrichliste | pkg/handlers/bestellungHandler/bestellungHandler-commands.go:504-551 | replies with the specified settlement outcome, including the load error of the link file after the paid check, and posts exactly the specified transactions (those of `SettlementPostings`); it changes neither orders nor links |
| BestellungCommands.GetPayment | pkg/handlers/bestellungHandler/bestellungHandler-definition.go:187-198 | the discount factor and one debt row per row of the split |
| BestellungV1.Current | pkg/handlers/bestellungHandler/bestellungHandler.go:179-187 | a position of this revision as a current position: the same fields and empty extras |
| BestellungV1.Currents | pkg/handlers/bestellungHandler/bestellungHandler.go:54 | each position embedded, in order |
| BestellungV1.CurrentsHaveOrderers | pkg/handlers/bestellungHandler/bestellungHandler.go:147 | embedding keeps every position's orderers |
| BestellungV1.RemovePosition | pkg/handlers/bestellungHandler/bestellungHandler.go:59-63 | an in-range index removes exactly that position and keeps the rest in order; any other index changes nothing |
| BestellungV1.RemovePositionTotal | pkg/handlers/bestellungHandler/bestellungHandler.go:59-63 | removal lowers the sum of the line totals by the removed line total |
| BestellungV1.CalcTotal | pkg/handlers/bestellungHandler/bestellungHandler.go:105-111 | Total becomes the sum of the line totals; nothing else changes |
| BestellungV1.CalcPayment | pkg/handlers/bestellungHandler/bestellungHandler.go:140-158 | the same factor and the same rows as the current revision computes for the embedded positions |
| BestellungV1.PaymentSplitRows | pkg/handlers/bestellungHandler/bestellungHandler.go:140-158 | one row per user who ordered a position first, none twice, each owing off × that user's line totals |
| BestellungV1.WithoutPayee | pkg/handlers/bestellungHandler/bestellungHandler.go:167-171 | the rows other than those of the given user |
| BestellungV1.WithoutPayeeOne | pkg/handlers/bestellungHandler/bestellungHandler.go:167-171 | with distinct payees, leaving out a present payee removes exactly one row |
| BestellungV1.WithoutPayeeAll | pkg/handlers/bestellungHandler/bestellungHandler.go:167-171 | leaving out an absent payee keeps every row |
| BestellungV1.PaymentViewRows | pkg/handlers/bestellungHandler/bestellungHandler.go:160-173 | the view omits the creator's row: one row fewer than the split when the creator ordered first, all rows otherwise |
| BestellungV1.GetPayment | pkg/handlers/bestellungHandler/bestellungHandler.go:160-173 | the discount factor and a debt row for every split row except the creator's |
| BestellungV1.ShownRows | pkg/handlers/bestellungHandler/bestellungHandler.go:167-171 | the loop emits a debt row for every row whose payee is not the creator, in order |
| BestellungV1.IsSameAsCurrent | pkg/handlers/bestellungHandler/bestellungHandler.go:189-196 | compares name, number, version and comment only; it is the current `isSameAs` on embedded positions, an equivalence, and ignores price, quantity and orderers |
| BestellungV1.ExtrasSplitMerge | pkg/handlers/bestellungHandler/bestellungHandler.go:189-196 | positions differing only in extras are merged by this revision and kept apart by the current one |
| BestellungV1.ChosenVersion | pkg/handlers/bestellungHandler/bestellungHandler.go:318-328 | `Versionen[0]` by default; with several versions, the first lower-case name match |
| BestellungV1.ChooseVersion | pkg/handlers/bestellungHandler/bestellungHandler.go:318-328 | the version loop picks the specified version |
| BestellungV1.WithPositionConsistent | pkg/handlers/bestellungHandler/bestellungHandler.go:337-339 | appending keeps the order consistent and raises the total by the line total |
| BestellungV1.WithoutPositionConsistent | pkg/handlers/bestellungHandler/bestellungHandler.go:451-452 | removing keeps the order consistent and lowers the total by the line total |
| BestellungV1.ArticlePosition | pkg/handlers/bestellungHandler/bestellungHandler.go:318-338 | on success, the sender is the only orderer, with the quantity and the comment |
| BestellungV1.PositionFor | pkg/handlers/bestellungHandler/bestellungHandler.go:302-338 | on success, the sender is the only orderer, with the quantity |
| BestellungV1.AddChecks | pkg/handlers/bestellungHandler/bestellungHandler.go:284-338 | on success, the key is a stored order and the sender is the only orderer |
| BestellungV1.AddedPosition | pkg/handlers/bestellungHandler/bestellungHandler.go:284-338 | on success: the first matching article, the chosen version, unit price = the version price alone, quantity 1 if absent else the Atoi result |
| BestellungV1.AddBindsFive | pkg/handlers/bestellungHandler/bestellungHandler.go:286 | with the corrected binding, at most 2+3 arguments are bound: the first five lower-cased words, the rest ignored (the code as written panics on a sixth word) |
| BestellungV1.DeleteChecks | pkg/handlers/bestellungHandler/bestellungHandler.go:429-450 | on success, the key is a stored order, the index is in range and the sender is the creator |
| BestellungV1.DeleteAuthorization | pkg/handlers/bestellungHandler/bestellungHandler.go:444-450 | out of range gives "Position nicht vorhanden"; in range, removal goes ahead iff the sender is BOTH creator and first orderer |
| BestellungV1.CloseChecks | pkg/handlers/bestellungHandler/bestellungHandler.go:460-472 | on success, the key is a stored order created by the sender |
| BestellungV1.PrintPaymentChecks | pkg/handlers/bestellungHandler/bestellungHandler.go:402-419 | on success, the key is a stored order |
| BestellungV1.BestellungHandler.constructor | pkg/handlers/bestellungHandler/bestellungHandler.go:206-209 | the catalog, an empty store and the given links, all consistent |
| BestellungV1.BestellungHandler.Store | pkg/handlers/bestellungHandler/bestellungHandler.go:340-344 | writing one order changes that entry only and keeps the invariant for a consistent order |
| BestellungV1.BestellungHandler.SearchLieferdienst | pkg/handlers/bestellungHandler/bestellungHandler.go:243-254 | found iff some service's lower-cased name is the token; the result is the first such service |
| BestellungV1.BestellungHandler.BuildPosition | pkg/handlers/bestellungHandler/bestellungHandler.go:298-338 | the lookups give the specified position or refusal |
| BestellungV1.BestellungHandler.CheckAdd | pkg/handlers/bestellungHandler/bestellungHandler.go:284-338 | the checks of this revision's `addtoOrder` against the current store |
| BestellungV1.BestellungHandler.AddToOrder | pkg/handlers/bestellungHandler/bestellungHandler.go:284-345 | a refusal or failed write changes nothing; otherwise one position is appended and the total recomputed; invariant kept |
| BestellungV1.BestellungHandler.CheckDelete | pkg/handlers/bestellungHandler/bestellungHandler.go:429-450 | the checks of this revision's `deletePosition` |
| BestellungV1.BestellungHandler.DeletePosition | pkg/handlers/bestellungHandler/bestellungHandler.go:429-458 | a refusal or failed write changes nothing; otherwise the position is removed and the total recomputed; invariant kept |
| BestellungV1.BestellungHandler.RemoveOrder | pkg/handlers/bestellungHandler/bestellungHandler.go:460-482 | only the creator's close deletes the entry; refusals change nothing |
| BestellungV1.BestellungHandler.PrintPayment | pkg/handlers/bestellungHandler/bestellungHandler.go:402-427 | shows the view for Payed = the parsed amount, or the total when it is zero or absent, and writes nothing back |
| BestellungV1.BestellungHandler.AddStrichliste | pkg/handlers/bestellungHandler/bestellungHandler.go:484-504 | the argument error, then the load error of the link file, then the write error, each changing nothing; otherwise stores the bound user name under the sender's Matrix ID without any lookup, and only that key changes |
| BestellungV1.BestellungHandler.RemoveStrichliste | pkg/handlers/bestellungHandler/bestellungHandler.go:506-521 | a failed load or write of the link file changes nothing; otherwise deletes only the sender's key |
| MenuImport.CloseFrom | cmd/datendownload/main.go:316 | the first `]` at or after i with no `]` or line break before it; none when every later `]` comes after a line break |
| MenuImport.MatchFrom | cmd/datendownload/main.go:316-319 | a match is a `[` followed by the nearest closing `]` on the same line |
| MenuImport.MatchFromLeftmost | cmd/datendownload/main.go:316-319 | the match is the leftmost: no earlier `[` has a closing `]` on its line |
| MenuImport.ReplaceFrom | cmd/datendownload/main.go:322 | removing the groups never lengthens the text |
| MenuImport.SeparateProductNameAndSize | cmd/datendownload/main.go:318-328 | no group gives (name, "default"); otherwise the size is the first group's body and the name is the text before it followed by the rest with every group removed |
| MenuImport.NoBracketNoSize | cmd/datendownload/main.go:324-326 | a name without `[` gives (name, "default") |
| MenuImport.SizeIsFirstGroup | cmd/datendownload/main.go:316-323 | the size is the shortest bracketed body: no `]` or line break in it |
| MenuImport.NameKeepsPrefix | cmd/datendownload/main.go:322-323 | the name keeps everything before the first group |
| MenuImport.ReplaceNothing | cmd/datendownload/main.go:322 | with no group left, nothing is cut |
| MenuImport.SeparateBracketedSize | cmd/datendownload/main.go:318-328 | a name without `[` followed by one bracketed size without `]` or line break, such as "Cola [XL]", gives that name and that size |
| MenuImport.RemoveAll | cmd/datendownload/main.go:363 | removing every occurrence never lengthens the text |
| MenuImport.RemoveAllAbsent | cmd/datendownload/main.go:363 | a text without the pattern is kept as it is |
| MenuImport.RemoveAllLeading | cmd/datendownload/main.go:363 | a leading occurrence is dropped and the rest is processed the same way |
| MenuImport.ValuesIn | cmd/datendownload/main.go:161-164 | the map's values in the order the keys are visited |
| MenuImport.ProductList.constructor | cmd/datendownload/main.go:150 | the list holds the given products |
| MenuImport.ProductList.UnmarshalJSON | cmd/datendownload/main.go:152-168 | a leading '[' takes the list, a leading '{' takes the map's values in iteration order, any other byte leaves the list unchanged; it never errs |
| MenuImport.ValuesInAll | cmd/datendownload/main.go:161-165 | an object yields each of its values: as many products as keys, every value present |
| MenuImport.VersionsOf | cmd/datendownload/main.go:348-356 | 1 + (number of sizes) versions: the size in the product's name, then one per size variant, all at the product's own price |
| MenuImport.SizeVersions | cmd/datendownload/main.go:349-356 | one version per size variant, named by the size in its name, at the product's price |
| MenuImport.OptionExtras | cmd/datendownload/main.go:358-365 | one extra per option, named without "mit ", at the product's price |
| MenuImport.Articles | cmd/datendownload/main.go:340-368 | the article of every product at its parsed price |
| MenuImport.ConvertedUnique | cmd/datendownload/main.go:340-368 | the conversion of a product list is unique |
| MenuImport.Menu | cmd/datendownload/main.go:338-370 | success iff every product price parses, else the price error; the name and phone come from the answer, and the articles are the converted products |
| MenuImport.MenuArticles | cmd/datendownload/main.go:340-368 | one article per product in order, named by the stripped product name, with 1 + (number of sizes) versions, and every version and extra priced with the product's own `Price` |
| MenuImport.ExtrasPrice | cmd/datendownload/main.go:357-366 | every extra carries the product's price |
| MenuImport.ExtrasOrder | cmd/datendownload/main.go:357-366 | the extras are the options, menu by menu, each named without "mit " |
| MenuImport.ProductOrder | cmd/datendownload/main.go:340-341 | products come category by category, then in product order |
| MenuImport.QueryMenu | cmd/datendownload/main.go:330-371 | the conversion loop returns the specified menu, or the price error |
| MenuImport.ConvertCategory | cmd/datendownload/main.go:341-368 | stops at a product whose price does not parse; otherwise appends the categories' articles |
| MenuImport.PriceFails | cmd/datendownload/main.go:343-346 | one unparsable price fails the whole menu |
| MenuImport.ConvertProduct | cmd/datendownload/main.go:342-367 | one product becomes its specified article |
| MenuImport.AppendSizes | cmd/datendownload/main.go:349-356 | appends the size versions in order |
| MenuImport.AppendExtras | cmd/datendownload/main.go:357-366 | builds the extras menu by menu |
| MenuImport.AppendOptions | cmd/datendownload/main.go:358-365 | appends one menu's options in order |
| MenuImport.NameLessIrreflexive | cmd/datendownload/main.go:241-243 | no name is smaller than itself |
| MenuImport.NameLessTotal | cmd/datendownload/main.go:241-243 | of two different names exactly one is smaller |
| MenuImport.NameLessTransitive | cmd/datendownload/main.go:241-243 | the name order is transitive |
| MenuImport.NotLessTransitive | cmd/datendownload/main.go:241-243 | "not smaller" is transitive |
| MenuImport.SortByName | cmd/datendownload/main.go:209-244 | the array ends sorted ascending by name and is a permutation of its old contents |
| MenuImport.InsertingStep | cmd/datendownload/main.go:228-234 | swapping a smaller element down keeps the insertion invariant |
| MenuImport.InsertingDone | cmd/datendownload/main.go:232-234 | once the element is not smaller than its predecessor, the prefix is sorted |
| MenuImport.Swap | cmd/datendownload/main.go:228-230 | exchanges the two cells and nothing else; a permutation |
| MenuImport.Insert | cmd/datendownload/main.go:228-234 | moves one element into the sorted prefix; a permutation |
| MenuImport.VarNameInjective | cmd/datendownload/main.go:268 | distinct parameter indices give distinct names |
| MenuImport.VarNameNotBase | cmd/datendownload/main.go:265-268 | no `varN` name clashes with a fixed parameter |
| MenuImport.VarNamesHold | cmd/datendownload/main.go:267-268 | `var m` is among the first n names iff 1 ≤ m ≤ n |
| MenuImport.AddVar | cmd/datendownload/main.go:268-269 | adding the next parameter under the next name keeps the fixed ones and var1..varN as the parameters so far |
| MenuImport.AddHash | cmd/datendownload/main.go:275 | the hash goes under `var0`, a name no other parameter has |
| MenuImport.RequestParams | cmd/datendownload/main.go:264-275 | auth is the parameters' concatenation followed by "4ndro1d"; the form holds the fixed parameters, var1..varN = the parameters in order, and var0 = the hash of auth |

## Left out

- File storage (`pkg/storage/storage.go`) is an ideal map from file name to
  order.
  - A decode error of a stored order is not modelled; a missing file gives
    the load error.
  - The second existence check in `removeOrder`, which both revisions
    make after loading the order, cannot fail and is not modelled
    separately.
- Matrix transport (`SendMessage`, `SendFormattedMessage`) is not modelled:
  the reply is a value and its sending is not modelled.
- HTML and table rendering is not modelled.
  - This covers `prettyFormat`, and the `getTotal`, `getPayment` and
    settlement tables.
  - Only the rows are modelled: `TotalRows`, `DebtRows` and the
    settlement map.
  - The order `printRestaurants` prints the sorted rows in is not modelled.
- The read-only views `printOrder`, `showMenu`, `showArticle` and
  `showRestaurants` only render; they are not modelled.
  - The handlers `getCallText` and `getTotal` only load an order and
    render it; they are covered by `GetCallText` and `TotalRows`.
- The earlier revision's `newOrder` and `getCallText` are not modelled
  apart from the current ones.
  - Its merge key is covered by `BestellungV1.IsSameAsCurrent` and
    `BestellungV1.ExtrasSplitMerge`.
- HTTP, `md5` and the clock are parameters: the ledger's answers, the
  hash function, and the RFC 3339 time text.
- The slug words are given as parameters. `rand.Intn` and the word lists
  are not modelled.
- Concurrency in `processStrichliste` is not modelled.
  - The goroutines, `WaitGroup` and mutex become a sequential loop.
  - `ResultsPerPayee` shows that the resulting map does not depend on
    the order.
- Floating point is modelled as `real`.
  - `math.Ceil`/`Floor` are exact; IEEE rounding of `Total * 1.05` and
    the like is not modelled.
  - A zero total gives `NonFinite` instead of Go's infinities or NaNs in
    the `getPayment` view.
  - `strconv.ParseFloat` and `Atoi` are oracle results.
- BestellungCommands.SettlementPostings, BestellungCommands.BestellungHandler.ProcessStrichliste:
  for an order
  that has positions but a zero total, with a paid amount (as
  `print-payment $Bestellung $Gezahlt` leaves an order whose positions cost
  nothing), the model replies `NonFinite` and posts nothing. Go goes on:
  it calls `doPayment` for every row of the split and, for every linked
  payee other than the payer, posts a transaction of
  `int(math.Ceil(NaN))` or `int(math.Ceil(±Inf))` cents, whose value Go
  leaves to the platform. The results table follows. `ProcessOutcome` and
  `ProcessPostings` share this gap.
- Router.GetContent: quoted fields of `encoding/csv` are not modelled, and
  neither is its bare-quote error for a field containing `"`. Neither are
  the CSV reader's other errors.
- BestellungCommands.ParseExtras: the extras field is split at commas. The
  "Fehler beim lesen der Extras" branch is the same reader error and is not
  modelled. A carriage return at the very end of the extras word, which
  the CSV reader would drop, is kept.
- BestellungCommands.BindArgs, BestellungV1.AddBindsFive: every handler binds
  its arguments with the corrected `SplitAnswer` (`Router.Bind`). The code
  as written panics when a command gets more words than its variables:
  `!bestellung new pizza hawaii`, or a sixth word to the earlier
  revision's `add`. In those cases the handler models reply as the
  corrected binder allows, where the program itself crashes (see
  "## Findings").
- `strings.ToLower` is modelled on ASCII letters only.
- Text.ToLower: weaker than Go's `strings.ToLower`; non-ASCII letters are
  left unchanged.
- Map iteration order is an explicit parameter:
  - the key order of `getAvailableCommands`;
  - the `keys` of `UnmarshalJSON`.
- `json.Unmarshal` decoding is done by the caller: the decoded list or map
  is a parameter, and its ignored error stays ignored.
- MenuImport.SortByName: Go's `sort.Sort` algorithm (pattern-defeating
  quicksort, not stable) is replaced by an insertion sort over the same
  `Swap`/`Less`. The contract states only what `sort.Sort` promises:
  sorted, and a permutation.
- MenuImport.Menu: each of the repeated `ParseFloat(prd.Price)` calls inside
  the size and extra loops is the same parse, so it is modelled once. Their
  error branches cannot be reached after the first parse succeeds.
- MenuImport.Menu: `log.Fatal` ends the process; it is modelled as the
  result `Err("Couldn't convert price on Size")`.
- MenuImport.QueryMenu: the phone number is the text of
  `fmt.Sprint(PhoneNumbers["no1"])`, given as a field. The request that
  fetches the menu is not modelled.
- MenuImport.SeparateProductNameAndSize: the `fmt.Println` of the size is
  not modelled.
- The `main` function's TOML and CSV output is not modelled.
- Generated articles leave `Nummer` and `ID` empty, as the source does.
- BestellungV1.BestellungHandler.AddStrichliste: the stored name is the
  lower-cased word, because `SplitAnswer` lower-cases every argument.
- `SetCommandPrefix`: the prefix is a parameter of the router functions;
  the handlers use the default `!`.

## Findings

| source | as written | input that shows it | evidently intended | confidence | as-written member | corrected member |
|---|---|---|---|---|---|---|
| pkg/berghandler/berghandler.go:139-145 | `end` is set to `len(words)` in both branches, so the loop writes `*vars[i]` for every word | `!bestellung new pizza hawaii`: two words for the single variable of `new` (required 1, optional 0) | `end = len(vars)` when there are more words than variables, binding only the first `len(vars)` words | not executed | Router.BindAsWritten, Router.SplitAnswerAsWritten, Router.NewOrderWithTwoWordsOverflows | Router.Bind, Router.SplitAnswer, Router.BindAgreesBelowOverflow |
