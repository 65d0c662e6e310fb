# Expense tracker bot: a Dafny model

The bot in `bot.py` records expenses sent to it as Telegram messages. It works in
two steps:

1. A text such as "₹250 Coffee" is parsed by `parse_expense` into an amount ("250")
   and a note ("Coffee"). The pair is parked in `pending_entries` under the sender's
   user id, and the bot replies with one button per category.
2. Pressing a button pops the sender's parked entry and appends one row
   `[timestamp, amount, category, note]` to a Google sheet. The bot then confirms.

This project models both steps in Dafny 4.11.

- `parser.dfy`, module `ExpenseParser`, holds `parse_expense`.
  - It is written as a scanner over the text, not as a regular expression engine.
  - `SkipWhile` and `SkipBackWhile` are the scans. `Strip` and `Capitalize` are
    Python's `str.strip()` and `str.capitalize()`.
  - `FinishNote` adds the "Misc" fallback, and `ParseExpense` is the whole function.
  - A separate ghost description of what `re.search(r"₹?(\d+)\s*(.*)", text)`
    matches is given by `MatchStartsAt`, `LeftmostMatch` and `GreedyGroups`. The
    parser is proved to agree with it, and it is used nowhere else.
  - Character classes are ASCII: digits '0'..'9'; whitespace is space, \t..\r and
    \x1c..\x1f; case mapping covers 'a'..'z' and 'A'..'Z' only.
- `bot.dfy`, module `ExpenseBot`, holds the conversation.
  - `OnMessage` and `OnCategory` are the two handlers, written as functions on a
    `State`. The state is the pending-entry map plus the rows of the sheet.
  - Each handler returns the new state together with the reply it sends.
  - `Run` applies a sequence of updates in order. The lemmas about runs state what
    holds over a whole conversation.
  - `Bot` is the imperative form: a class whose `pending` map and `sheet` rows the
    methods `HandleMessage` and `HandleCategory` update in place. Each method is
    proved to make exactly the step of its function and to keep the class
    invariant `Valid`.

Two behaviours of the code differ from what a reader of the bot's purpose might
expect. The model follows the code in both.

- `capitalize()` lower-cases everything after the first character, so "KFC run" is
  stored as "Kfc run". It does not merely upper-case the first letter. See
  `ExampleLowersTheRest`.
- The category written to the sheet is the raw callback data. `handle_category` never
  checks it against `CATEGORIES`, so "every row has one of the six categories" holds
  only while every press comes from the prompt's buttons. That is what
  `RowsUseOfferedCategories` proves; it is not proved for every callback.

## Model

| member | source | states |
|---|---|---|
| `ExpenseParser.ParseExpense` | bot.py:29-35 | Returns "no expense" exactly when the text has no digit. Otherwise the amount is a non-empty digit string and the note is non-empty and contains no line break. |
| `ExpenseParser.NoMatchIffNotAnExpense` | bot.py:30-35 | `(None, None)` is returned exactly when the pattern matches at no position of the text. |
| `ExpenseParser.MatchExistsWhenDigit` | bot.py:30-31 | For every text with a digit the search succeeds, with a leftmost match and greedy group boundaries. `ParseIsLeftmostGreedyMatch` therefore applies to every such text. |
| `ExpenseParser.LeftmostMatchStartsAtFirstDigit` | bot.py:30 | Wherever the leftmost match starts, an optional `₹` included, its first group starts at the first digit of the text. |
| `ExpenseParser.ParseIsLeftmostGreedyMatch` | bot.py:30-34 | The result is group 1 of the leftmost greedy match as the amount, and group 2 stripped, capitalized and defaulted as the note. |
| `ExpenseParser.AmountIsFirstDigitRun` | bot.py:30-32 | The amount is the maximal digit run that starts at the first digit, whatever precedes or follows it. |
| `ExpenseParser.ParseFromBoundaries` | bot.py:30-34 | The fields read off the text: the digit run; then the whitespace after it, line breaks included; then the rest of that line as the raw note. A blank raw note gives "Misc". |
| `ExpenseParser.ParseOfParts` | bot.py:30-34 | A message built as prefix without digits, digits, whitespace, a trimmed one-line note and the rest of the text parses to the digits and the capitalized note. |
| `ExpenseParser.SkipWhile` | bot.py:30 | A greedy forward scan: every character it passes is in the class, and it stops at the end or at the first character outside it. |
| `ExpenseParser.SkipWhileUnique` | bot.py:30 | Greediness pins the scan down: any index with those properties is the one `SkipWhile` returns. |
| `ExpenseParser.SkipBackWhile` | bot.py:33 | A greedy backward scan that stops at the last character outside the class. |
| `ExpenseParser.SkipBackWhileUnique` | bot.py:33 | Any index with the backward scan's properties is the one `SkipBackWhile` returns. |
| `ExpenseParser.Strip` | bot.py:33 | `strip()` never lengthens the text, and gives the empty string exactly when the text is all whitespace. |
| `ExpenseParser.StripIsStrippedFrom` | bot.py:33 | The stripped note is a slice with only whitespace outside it and no whitespace at either of its ends. |
| `ExpenseParser.StrippedFromIsStrip` | bot.py:33 | That property determines the result: any string with it is `Strip`'s result. |
| `ExpenseParser.StripBetween` | bot.py:33 | Stripping keeps exactly the slice whose ends are non-blank and outside which everything is blank. |
| `ExpenseParser.ToUpper` | bot.py:33 | ASCII upper-casing: a lower-case letter becomes the capital 32 code points below it; any other character is kept. |
| `ExpenseParser.ToLower` | bot.py:33 | ASCII lower-casing: a capital letter becomes the letter 32 code points above it; any other character is kept. |
| `ExpenseParser.Capitalize` | bot.py:33 | `capitalize()` keeps the length. |
| `ExpenseParser.CapitalizeShape` | bot.py:33 | After `capitalize()` the first character is not lower-case and every later one is not upper-case. Each character equals the original up to case. |
| `ExpenseParser.StripCapitalizeKeepsOneLine` | bot.py:33 | Stripping and capitalizing a one-line note keeps it on one line. |
| `ExpenseParser.FinishNote` | bot.py:33-34 | The note is never empty. A blank remainder gives exactly "Misc"; otherwise the note is the stripped, capitalized remainder, and on one line when the remainder was. |
| `ExpenseParser.FinishNoteOfTrimmed` | bot.py:33-34 | A remainder with non-blank ends is only capitalized. |
| `ExpenseParser.ExampleRupeeCoffee` | bot.py:30-34 | "₹250 Coffee" gives ("250", "Coffee"). |
| `ExpenseParser.ExampleBareAmount` | bot.py:34 | "250" gives ("250", "Misc"). |
| `ExpenseParser.ExampleNoDigits` | bot.py:35 | A text without digits is not an expense. |
| `ExpenseParser.ExampleAmountInside` | bot.py:30-33 | "Room 250 deposit" gives ("250", "Deposit"). |
| `ExpenseParser.ExampleLowersTheRest` | bot.py:33 | "99 KFC run" gives ("99", "Kfc run"). |
| `ExpenseParser.ExampleDecimalPoint` | bot.py:30-33 | "12.50 snacks" gives ("12", ".50 snacks"): only the integer digits are the amount. |
| `ExpenseParser.ExampleNextLine` | bot.py:30-33 | "30\n taxi\nx" gives ("30", "Taxi"): `\s*` crosses the line break and `.*` stops at the next one. |
| `ExpenseBot.PromptText` | bot.py:50 | The caption is exactly "Choose a category for ₹", the amount, " - ", the note and ":". It is never the usage hint. |
| `ExpenseBot.SavedText` | bot.py:65 | The confirmation is exactly "Saved: ₹", the amount, " - ", the category, " - " and the note. It is never "No expense found to categorize.". |
| `ExpenseBot.CategoryKeyboard` | bot.py:48-49 | One keyboard row per category, in the order of `CATEGORIES`. Each row holds a single button whose callback data equals its text. |
| `ExpenseBot.PressableIffCategory` | bot.py:23-49 | The prompt's buttons can send back a value exactly when it is one of the six categories. |
| `ExpenseBot.OnMessage` | bot.py:38-52 | The sheet is untouched, and other users' entries are untouched. Without a digit the reply is the usage hint and nothing changes, and only then. Otherwise the sender's entry becomes the parsed pair and the reply is the prompt with the category keyboard. |
| `ExpenseBot.OnCategory` | bot.py:55-67 | The sender's entry is always gone afterwards, and other users' entries are untouched. With an entry, exactly one row `[timestamp, amount, data, note]` is appended and the reply is the confirmation. Without one, nothing changes and the reply is "No expense found to categorize.". |
| `ExpenseBot.OnMessageKeepsConsistent` | bot.py:41-45 | Parked entries always hold a digit amount and a non-empty one-line note. |
| `ExpenseBot.OnCategoryKeepsConsistent` | bot.py:60-64 | Rows written always hold a digit amount and a non-empty one-line note. |
| `ExpenseBot.SecondMessageWins` | bot.py:45-64 | A second expense message before the press replaces the first, and the row written is the second one's. |
| `ExpenseBot.ReplayedChoiceWritesNothing` | bot.py:60-67 | A second press after a successful one finds no entry: no second row, "No expense found to categorize.". |
| `ExpenseBot.ChoiceMovesEntryToSheet` | bot.py:60-64 | A successful press leaves one entry fewer in the table and one row more in the sheet. |
| `ExpenseBot.Run` | bot.py:60-64 | Over any sequence of updates the sheet only grows and keeps its earlier rows. |
| `ExpenseBot.RunKeepsConsistent` | bot.py:41-64 | Every conversation keeps all entries and rows well formed. |
| `ExpenseBot.RowsNeedMessagesAndChoices` | bot.py:43-64 | Starting with no pending entries, rows written plus entries still pending never exceed the messages that held an amount. Rows written never exceed the button presses. |
| `ExpenseBot.HandleKeepsTraced` | bot.py:41-64 | One more update keeps every entry and new row traceable to a message received. |
| `ExpenseBot.RowsComeFromMessages` | bot.py:41-64 | Every pending entry and every new row holds exactly the amount and note parsed from some message received. |
| `ExpenseBot.RowsUseOfferedCategories` | bot.py:48-64 | When every press comes from the prompt's buttons, every new row's category is one of `CATEGORIES`. |
| `ExpenseBot.CoffeeScenario` | bot.py:38-67 | "₹250 Coffee" then "Food" leaves no entry and one row `[timestamp, "250", "Food", "Coffee"]`. It replies with the prompt and then "Saved: ₹250 - Food - Coffee". |
| `ExpenseBot.Bot.constructor` | bot.py:26 | The bot starts with no pending entries and no rows. |
| `ExpenseBot.Bot.HandleMessage` | bot.py:38-52 | Updates `pending` in place: the new state and the reply are exactly `OnMessage`'s. The invariant `Valid` is kept. |
| `ExpenseBot.Bot.HandleCategory` | bot.py:55-67 | Pops the entry, then appends the row: the new state and the reply are exactly `OnCategory`'s. The invariant `Valid` is kept. |

## Left out

- Loading Google credentials, authorizing, and opening the "Expenses" sheet (bot.py:16-20) are external I/O. The sheet is the sequence of rows `append_row` has written.
- Telegram plumbing is not modelled: building the application, registering handlers and polling (bot.py:69-78). Replies are returned as `Reply` values, not sent.
- `query.answer()` (bot.py:57) only acknowledges the button press to Telegram and changes no state.
- `async`/`await` is not modelled. Each handler is one atomic step. Interleavings of concurrent handlers on the shared dictionary are not modelled.
- `datetime.now().strftime(...)` (bot.py:63) reads the wall clock. The timestamp string is a parameter.
- A failure of `sheet.append_row` (bot.py:64) is not modelled. The entry has already been popped at bot.py:61, so in the code such a failure loses the entry.
- Unicode breadth of `\d`, `\s`, `strip()` and `capitalize()` is not modelled. Only ASCII digits, ASCII whitespace and ASCII letter case are. Non-ASCII digits, spaces and letters are ordinary characters here. Special case mappings such as titlecase digraphs are left out too.
- `ExpenseParser.Capitalize`'s own contract states only the length. The full case behaviour is stated in `CapitalizeShape`.
- Logging and the start-up `print` (bot.py:14,77) are not modelled.
- The `filters.TEXT & ~filters.COMMAND` filter (bot.py:74) is not modelled. `OnMessage` is defined on every text.
