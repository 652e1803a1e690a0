# Boa banking demo: a Dafny model of its state machines

Boa is a client-side mobile-banking demo written in React. Most of it is
presentation over mock data, but a handful of its components hold small
sequential state machines and list transformations. This project models
those in Dafny and proves what they promise:

- **Numerals** (`numerals.dfy`): decimal rendering (`Number.prototype.toString`
  on whole numbers, `toFixed(2)` on amounts in cents) and reading digits back.
- **Types** (`types.dfy`): the records of `types.ts` and the fixtures of
  `constants.ts` (initial balance, mock transactions, bills, notifications),
  with every amount in integer cents.
- **Otp** (`otp.dfy`): the one-time-code dialog: six entry slots in an array,
  a cursor, key press, backspace, slot tap, completeness and verification
  against the code drawn when the dialog opens. The pure `Entry` functions
  specify the `OtpModal` class, whose methods update the slot array and the
  cursor in place.
- **Bank** (`bank.dfy`): the app-level state: balance, active tab, the
  code dialog's visibility, the notification list and the single pending
  transfer or bill payment; staging, confirming and cancelling an action,
  marking notifications read, the unread count and the insight dedup guard.
- **TransferScreen** (`transfer.dfy`): the keypad amount editor (at most one
  point, at most two fraction digits), `parseFloat` of that text in cents,
  the submit guard and the send button's enable predicate.
- **Statements** (`statements.dfy`): spending per category (negative
  transactions only, absolute amounts summed), sorted largest first, the
  total, the drill-down list of the selected category, the default selection
  and the figure in the chart's centre.
- **Header** (`header.dfy`): the unread badge over the bell.
- **Chat** (`chat.dfy`): the assistant chat: blank-input rejection through
  `trim`, appending the user's message, the delivered and read status updates
  by id, the reply, and the initial greeting.

Money is integer cents throughout. On the amounts the keypad can produce
(at most two fraction digits) this makes `parseFloat` exact and
`parseFloat(value.toFixed(2))` the identity, which `FormattedAmountParsesBack`
states. Timer callbacks (`setTimeout`) are ordinary steps that the caller
invokes in order. Clock readings (`Date.now()` ids, `toLocaleTimeString`
timestamps), the random draw of the one-time code and the assistant's answer
are parameters.

## Model

| member | source | states |
|---|---|---|
| Numerals.NatToString | components/OTPModal.tsx:17 | `toString()` of a whole number writes decimal digits only, with a leading zero exactly for zero |
| Numerals.DigitsValueOfNatToString | components/OTPModal.tsx:17 | reading back the digits `toString()` wrote gives the number again |
| Numerals.NatToStringLength | components/OTPModal.tsx:17 | a number between 10^k and 10^(k+1) is written with exactly k+1 characters |
| Numerals.FormatCents | App.tsx:94 | `toFixed(2)` writes the whole units in decimal, a point and exactly two digits; the whole part denotes cents / 100, the two digits cents % 100, and a leading zero appears only as the whole text "0.xx" |
| Otp.Cleared | components/OTPModal.tsx:12-14 | a fresh entry has six empty slots and the cursor on slot 0 |
| Otp.KeyPress | components/OTPModal.tsx:27-33 | a key press writes the key into the cursor slot only, leaves the other five unchanged, advances the cursor below slot 5 and keeps it at 5; the cursor stays in 0..5 |
| Otp.Delete | components/OTPModal.tsx:35-42 | backspace on a filled slot clears it and keeps the cursor; on an empty slot it clears the slot before and moves there; on slot 0 empty it changes nothing |
| Otp.Tap | components/OTPModal.tsx:78 | tapping a slot moves the cursor there and changes no slot |
| Otp.VerifyEntry | components/OTPModal.tsx:46-54 | verification confirms exactly when the joined slots equal the code; a mismatch resets to six empty slots and cursor 0 |
| Otp.GeneratedCode | components/OTPModal.tsx:17 | every drawn code in [100000, 999999] is six decimal digits with a non-zero first digit and denotes the number drawn |
| Otp.IsComplete | components/OTPModal.tsx:44 | an entry is complete when no slot is empty; with `JoinLength`, exactly when its slots join to six characters |
| Otp.Join | components/OTPModal.tsx:47 | `code.join('')`: the slots' characters in slot order; `JoinOfSingletons` and `JoinLength` state what it spells and how long it is |
| Otp.JoinLength | components/OTPModal.tsx:44-47 | slots of at most one character join to at most one character per slot, and to exactly one per slot exactly when the entry is complete |
| Otp.IncompleteNeverConfirms | components/OTPModal.tsx:44-52 | an entry with an empty slot never confirms against a six-digit code and is reset |
| Otp.PressAll | components/OTPModal.tsx:27-33 | any sequence of key presses keeps six slots of at most one character each and a cursor in 0..5, so the guard `activeIdx > 5` never fires |
| Otp.PressFromClearedUpToSix | components/OTPModal.tsx:27-33 | up to six presses into a fresh entry fill the first slots in order, leave the rest empty and stop the cursor at slot 5 |
| Otp.PressAllAppend | components/OTPModal.tsx:27-33 | pressing a then b is pressing a followed by pressing b |
| Otp.SeventhPressOverwritesLastSlot | components/OTPModal.tsx:28-32 | a seventh press overwrites slot 5 and keeps the first five keys and the cursor at 5 |
| Otp.JoinOfSingletons | components/OTPModal.tsx:47 | joining one-character slots spells their characters in order |
| Otp.TypingTheCodeConfirms | components/OTPModal.tsx:27-48 | typing the drawn code digit by digit into a fresh dialog confirms |
| Otp.OtpModal.constructor | components/OTPModal.tsx:12-18 | the dialog opens with six empty slots, cursor 0 and the code drawn from the parameter |
| Otp.OtpModal.HandleKeyPress | components/OTPModal.tsx:27-33 | the slot array and cursor afterwards are `KeyPress` of those before |
| Otp.OtpModal.HandleDelete | components/OTPModal.tsx:35-42 | the slot array and cursor afterwards are `Delete` of those before |
| Otp.OtpModal.TapSlot | components/OTPModal.tsx:78 | the cursor moves to the tapped slot; the slots are untouched |
| Otp.OtpModal.Verify | components/OTPModal.tsx:46-54 | returns whether `onConfirm` is called; on a mismatch the slots and cursor are reset and the expected code is unchanged |
| Bank.KindLabel | App.tsx:75-80 | the `type` strings of a staged action: "Transfer" for a transfer, "Bill Payment" for a bill payment |
| Bank.ActionName | App.tsx:94 | `pendingAction.description \|\| pendingAction.type`: the description unless it is empty, then the type string |
| Bank.CompletionMessage | App.tsx:94 | the notice text: "Your", the action's description (or its type when the description is empty), "of $", the `toFixed(2)` amount, "was sent successfully." |
| Bank.TransferDescription | App.tsx:75 | a transfer is described as "Transfer to" the recipient, or as the Zelle transfer when no recipient was given |
| Bank.CompletionNotice | App.tsx:91-98 | the notice of a committed action is titled "Transaction Complete", unread, of type transaction, dated "Just now", and its message contains the action's description (or type) and its amount to two decimals |
| Bank.MarkRead | App.tsx:104-106 | marking an id read sets `isRead` on exactly the entries with that id and keeps length, order and every other field |
| Bank.MarkAllRead | App.tsx:108-109 | marking all read sets every entry read and keeps every other field |
| Bank.UnreadCount | App.tsx:123 | the unread count is at most the list length and is zero exactly when every entry is read |
| Bank.MarkAllReadIdempotent | App.tsx:108-123 | marking all read twice equals marking once, and leaves an unread count of zero |
| Bank.MarkReadLowersUnread | App.tsx:104-106 | marking an id read never raises the unread count, and lowers it when an unread entry has that id |
| Bank.HasRecentInsight | App.tsx:53 | some listed notification is an insight dated "Just now" |
| Bank.InsightNotice | App.tsx:57-64 | the insight notification: the given id (standing for `'insight-' + Date.now()`), title "Erica® Financial Insight", the assistant's text as message, dated "Just now", unread, of type insight |
| Bank.WithInsight | App.tsx:53-65 | an insight is prepended exactly when no fresh insight is listed; afterwards one is |
| Bank.InsightAddedAtMostOnce | App.tsx:53-54 | running the insight fetch again adds nothing, so at most one insight is ever added |
| Bank.App.constructor | App.tsx:23-34 | with nothing saved the app starts at the initial balance, on the home tab, with the mock notifications, no dialog and nothing pending |
| Bank.App.HandleTransfer | App.tsx:74-77 | stages the transfer in the single pending slot, replacing what was there, and shows the dialog; balance, tab and notifications are unchanged |
| Bank.App.HandleBillPay | App.tsx:79-82 | stages a bill payment described as "Payment to" the biller, replacing what was there, and shows the dialog |
| Bank.App.ConfirmAction | App.tsx:84-102 | with an action pending: the balance drops by exactly its amount (not re-checked), the slot clears, the dialog hides, the tab is home and exactly one notice is prepended; with none pending nothing changes |
| Bank.App.SubmitCode | App.tsx:157-161 | the dialog's verify calls `confirmAction`: a matching code commits the staged action (balance down by its amount, slot cleared, dialog hidden, one notice prepended); a mismatch clears the dialog's slots and leaves balance, notifications, the staged action and the open dialog as they were |
| Bank.App.CancelOtp | App.tsx:160 | cancel only hides the dialog; the pending action, balance and notifications stay |
| Bank.App.MarkNotificationRead | App.tsx:104-106 | the list becomes `MarkRead` of the old list |
| Bank.App.MarkAllNotificationsRead | App.tsx:108-111 | the list becomes `MarkAllRead` of the old list and nothing is unread |
| Bank.App.AddInsight | App.tsx:52-65 | the list becomes `WithInsight` of the old list |
| TransferScreen.Accepts | components/Transfer.tsx:24-25 | a key is accepted unless it is a second point or a third digit after the point |
| TransferScreen.Pressed | components/Transfer.tsx:23-27 | a key press appends the key or is rejected; a second point and a third fraction digit are rejected; the text keeps at most one point and two fraction digits |
| TransferScreen.Deleted | components/Transfer.tsx:29-31 | delete drops the last character and leaves the empty text empty |
| TransferScreen.PressedAppends | components/Transfer.tsx:26 | an accepted press appends exactly the pressed key |
| TransferScreen.DeleteUndoesPress | components/Transfer.tsx:26-30 | an accepted press followed by delete restores the text |
| TransferScreen.TypeKeys | components/Transfer.tsx:23-27 | any sequence of key presses keeps the amount text well formed |
| TransferScreen.EveryWellFormedAmountCanBeTyped | components/Transfer.tsx:23-27 | every well-formed amount text is reached by typing its own characters from the empty text |
| TransferScreen.KeypadAlphabet | components/Keypad.tsx:12 | the keys the editor accepts are exactly the keypad's eleven: the ten digits and the point |
| TransferScreen.Fraction | components/Transfer.tsx:25 | `amount.split('.')[1]`: the text after the first point |
| TransferScreen.ParseCents | components/Transfer.tsx:17 | `parseFloat` of the amount text is NaN exactly for the empty text and a lone point |
| TransferScreen.FormattedAmountParsesBack | components/Transfer.tsx:17 | an amount written with `toFixed(2)` is a text the editor can hold and parses back to the same cents |
| TransferScreen.SubmitAmount | components/Transfer.tsx:15-20 | `onTransfer` is called exactly when the amount parses to a number above zero and not above the balance, and with that number |
| TransferScreen.SendEnabled | components/Transfer.tsx:80 | the send button is enabled when the amount and recipient are non-empty and the amount does not parse to more than the balance; `SentOnlyWhenEnabled` and `EnabledWithoutSending` relate it to the submit guard |
| TransferScreen.SentOnlyWhenEnabled | components/Transfer.tsx:80 | whenever the guard sends with a recipient filled in, the send button was enabled |
| TransferScreen.EnabledWithoutSending | components/Transfer.tsx:80 | the button is enabled for "." and for "0", and the guard sends nothing for either |
| TransferScreen.TransferForm.constructor | components/Transfer.tsx:11-12 | the form starts with empty amount and recipient |
| TransferScreen.TransferForm.HandleKeyPress | components/Transfer.tsx:23-27 | the amount afterwards is `Pressed` of the amount before |
| TransferScreen.TransferForm.HandleDelete | components/Transfer.tsx:29-31 | the amount afterwards is `Deleted` of the amount before and stays well formed |
| TransferScreen.TransferForm.SetRecipient | components/Transfer.tsx:61 | the recipient becomes the typed text |
| TransferScreen.TransferForm.HandleSubmit | components/Transfer.tsx:15-20 | returns the `onTransfer` arguments exactly when the guard passes, with the parsed cents and the recipient |
| Statements.SpendingIn | components/Statements.tsx:24-29 | a category's sum: the absolute amounts of its negative transactions; `Aggregate` is proved to compute it |
| Statements.SpendingCategories | components/Statements.tsx:22-32 | the dictionary keys: each category with spending exactly once, and no other |
| Statements.SpendingPositiveIff | components/Statements.tsx:26-28 | a category's sum is above zero exactly when it has a spending transaction |
| Statements.Aggregate | components/Statements.tsx:22-30 | the loop fills the dictionary with exactly the categories with spending, each mapped to the sum of the absolute amounts of its negative transactions, keys in first-write order |
| Statements.Insert | components/Statements.tsx:35 | inserting into a descending list keeps it descending and adds one element |
| Statements.SortByValueDesc | components/Statements.tsx:35 | the sorted list is in non-increasing value order |
| Statements.InsertPermutes | components/Statements.tsx:35 | inserting adds exactly the one element (as multisets) |
| Statements.SortPermutes | components/Statements.tsx:35 | the sort is a permutation of its input |
| Statements.Entries | components/Statements.tsx:32-34 | `Object.entries(aggregates).map(...)`: one slice per key, in key order, holding that category's sum; in cents `parseFloat(value.toFixed(2))` is the sum itself |
| Statements.Breakdown | components/Statements.tsx:21-35 | `categoryData`: the per-category slices sorted largest first; `BreakdownSlices` and `InBreakdownIff` state its contents |
| Statements.InBreakdownIff | components/Statements.tsx:21-35 | a slice is in the breakdown exactly when its category has spending and its value is that category's sum |
| Statements.BreakdownSlices | components/Statements.tsx:21-43 | the breakdown is sorted, names exactly the categories with spending, each once, each with its positive sum; Income with no negative amount never appears |
| Statements.BreakdownDistinct | components/Statements.tsx:32-35 | no category appears twice in the breakdown |
| Statements.TotalSpending | components/Statements.tsx:45-47 | `totalSpending`: the slices' values added up; `TotalIsAllSpending` relates it to the statement |
| Statements.TotalOfSorted | components/Statements.tsx:35-47 | sorting does not change the total |
| Statements.TotalIsAllSpending | components/Statements.tsx:45-47 | `totalSpending` equals the absolute sum of every negative transaction |
| Statements.SpendingTransactions | components/Statements.tsx:51 | the filter, kept in statement order: the category's negative transactions |
| Statements.SpendingTransactionsMembers | components/Statements.tsx:51 | a transaction is in the drill-down exactly when it is in the statement, negative and of the category |
| Statements.FilteredTransactions | components/Statements.tsx:49-52 | nothing is listed without a selection; otherwise exactly the selected category's negative transactions |
| Statements.FilterKeepsOrder | components/Statements.tsx:51 | filtering keeps statement order |
| Statements.DrillDownAddsUp | components/Statements.tsx:51 | the drill-down's absolute amounts add up to the category's slice |
| Statements.SelectionAfter | components/Statements.tsx:38-40 | the default selection: the first slice's category when nothing is selected and there is a slice, otherwise the selection unchanged |
| Statements.DefaultIsLargest | components/Statements.tsx:38-40 | with nothing selected a default is chosen exactly when some transaction is spending, and it is a category with the largest sum |
| Statements.MockSums | constants.ts:10-17 | on the mock statement: Shopping 129.00, Food 151.65, Bills 85.00, Transfer 200.00, Income nothing |
| Statements.MockEntries | components/Statements.tsx:32-34 | on the mock statement the unsorted slices come in first-spending order Shopping, Food, Bills, Transfer |
| Statements.MockBreakdown | components/Statements.tsx:21-47 | on the mock statement the chart lists Transfer 200.00, Food 151.65, Shopping 129.00, Bills 85.00 with total 565.65 and no Income |
| Statements.CentreFigure | components/Statements.tsx:102-110 | the centre shows the total without a selection, and otherwise the selected slice's value exactly when such a slice exists |
| Statements.CentreOfBreakdown | components/Statements.tsx:104-109 | on a breakdown the centre shows all spending, or the selected category's sum, or nothing for a category without spending |
| Statements.StatementsView.constructor | components/Statements.tsx:18 | the screen opens with no category selected |
| Statements.StatementsView.ComputeCategoryData | components/Statements.tsx:21-43 | returns the breakdown of the statement and selects its first slice when nothing was selected |
| Statements.StatementsView.Filtered | components/Statements.tsx:49-52 | empty without a selection; otherwise its absolute amounts add up to the selected category's sum |
| Statements.StatementsView.SelectSlice | components/Statements.tsx:54-56 | a click or hover on a slice of `categoryData` selects that slice's category, which is a category with spending |
| Statements.StatementsView.SelectCategory | components/Statements.tsx:118 | a legend button selects its category |
| Header.BadgeLabel | components/Header.tsx:23-27 | no badge for zero unread; for 1 to 9 the single digit that denotes the count; "9+" above 9; never more than two characters |
| Header.BadgeSeparatesSmallCounts | components/Header.tsx:25 | two counts get the same badge exactly when equal or both above 9 |
| Chat.TrimStart | components/EricaChat.tsx:24 | drops exactly the leading whitespace |
| Chat.TrimEnd | components/EricaChat.tsx:24 | drops exactly the trailing whitespace |
| Chat.Trim | components/EricaChat.tsx:24 | `trim()`: the leading whitespace and then the trailing whitespace dropped |
| Chat.TrimmedEmptyIffBlank | components/EricaChat.tsx:24 | the trimmed input is empty exactly when the input is whitespace only |
| Chat.InitialHistory | components/EricaChat.tsx:9-11 | with no saved history the chat holds one greeting from Erica, without status |
| Chat.UserMessage | components/EricaChat.tsx:27-33 | the user's message: the typed text, sender user, the given id and time, status sending |
| Chat.ReplyMessage | components/EricaChat.tsx:51-56 | Erica's reply: the answer text, sender Erica, the given id and time, no status |
| Chat.WithStatus | components/EricaChat.tsx:40 | a status update sets the status of exactly the messages with that id; length, order and every other message are unchanged |
| Chat.StepsKeepHistory | components/EricaChat.tsx:35-59 | appending and status updates never remove or alter a message's id, text, sender or time |
| Chat.WithStatusOfAbsentId | components/EricaChat.tsx:46 | a status update for an id no message has changes nothing |
| Chat.OneExchange | components/EricaChat.tsx:35-59 | send, delivered, read and reply on a fresh id leave the earlier history intact, then the user's message marked read, then the reply |
| Chat.EricaChat.constructor | components/EricaChat.tsx:7-14 | the chat opens with the greeting, an empty input and no typing indicator |
| Chat.EricaChat.SetInput | components/EricaChat.tsx:110 | typing sets the input text |
| Chat.EricaChat.HandleSend | components/EricaChat.tsx:22-36 | blank input changes nothing; otherwise exactly one user message with that text and status sending is appended and the input clears |
| Chat.EricaChat.MarkDelivered | components/EricaChat.tsx:39-41 | the history becomes `WithStatus` delivered for the sent id |
| Chat.EricaChat.StartReply | components/EricaChat.tsx:44-47 | the history becomes `WithStatus` read for the sent id and the typing indicator shows |
| Chat.EricaChat.FinishReply | components/EricaChat.tsx:49-59 | the typing indicator goes and the reply is appended at the end, from Erica, without status |

## Left out

- Browser storage: reading saved state and writing it back (`localStorage`, JSON) in App.tsx and the chat. Every class starts from the no-saved-data state; `App.constructor` does not model a saved balance or saved notifications.
- Logout (`localStorage.clear()`, page reload) and the login screen.
- Timers and their timing: each `setTimeout` callback is a separate method the caller runs in order. Races between callbacks are not modelled.
- `Math.random`: the drawn number is a constructor parameter with its range as a precondition.
- `alert` calls, toasts, the notification tray's open flag, the keypad's visibility and all rendering (charts, colours, `toLocaleString`).
- The assistant service (services/geminiService.ts is not part of this model): its answer is an arbitrary string parameter.
- Floating point: all money is integer cents. The source's `number` arithmetic on balances is not modelled.
- Bank.App.AddInsight: the dedup check and the prepend are one step here; in the source they are separated by an `await`, so two overlapping fetches can both pass the check.
- Bank.App.ConfirmAction: `Date.now()` as the notice id is a parameter; ids are not shown to be unique.
- Otp.OtpModal: the guards `activeIdx > 5` and `activeIdx < 0` are not written as branches; `Valid()` keeps the cursor in 0..5, so they never fire.
- Otp.OtpModal.Verify: it may be called on any entry; the authorise button's disabled state is not modelled (`IncompleteNeverConfirms` shows an incomplete entry could not confirm anyway).
- TransferScreen.Fraction: `amount.split('.')[1]` is the text after the first point, which is all of the rest because the editor never admits a second point.
- TransferScreen.ParseCents: only texts the editor can produce are parsed; `parseFloat` on arbitrary strings is not modelled.
- Statements.SortByValueDesc: the sort is stable by construction (an element goes before later equal ones, as in `Array.prototype.sort`), but stability is not stated as a lemma.
- Statements.StatementsView: the statement is a constructor parameter rather than the fixed mock list; `MockBreakdown` states the result on the mock list.
- Chat.EricaChat: message ids and timestamps are parameters; the model does not show that `Date.now()` ids differ from earlier ones.
- The dashboard, menu, bottom navigation, bill list and toast components: rendering only.
