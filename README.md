# Settling a Splitwise balance from Telegram, modelled in Dafny

This project models the core of a Telegram bot that fronts the Splitwise
expense ledger. It has two parts.

- **Balance summary and grid.** Each friend has a signed first balance: positive means the friend
  owes the user, negative means the user owes the friend. The `/list_expense`
  text splits the friends that have a balance entry into an "OWES YOU" block
  and a "YOU OWE" block, each line showing the absolute amount. The friends
  the user owes are laid out two per row as buttons.
- **The settle conversations.** `bot.py` has a ConversationHandler whose handlers keep the selection
  in `chat_data`. `bot/settle_expense.py` has one that keeps it in
  `user_data`, refuses to start without an access token, and sets
  `STATE_COMPLETE`. In both, `/settle_expense` offers the friends the user
  owes. Pressing a friend button records `(name, amount, friend_id)` and asks
  for confirmation. "yes" makes one create-expense request to the ledger and
  "no" cancels.

Amounts are whole integers, read as whole rupees: the model shows the
integer's decimal digits after the ₹ sign, so a balance of 150 is shown as
"₹150". Fractional balances (paise) cannot be represented. The ledger is an oracle: friend lists
come in as parameters, and create-expense requests are recorded as a log
(`ledgerCalls`). The chat is a log of replies too (`replies`, `outputs`).
Each conversation is a class whose fields are the context store, the
conversation state, the ledger log and the reply log. Its handler methods
state the whole new state. Its `Handle` method applies the transition table
(`SelectHandler`) together with the framework's rule for the state a handler
returns (`Telegram.UpdateState`). The framework is python-telegram-bot,
versions 12 and 13, the context-based API the code uses (`use_context=True`,
`Filters`); the rules below are those of its ConversationHandler. That rule is: None or an exception keeps
the state, END leaves the conversation. Each conversation also holds its
pending timeout job (`Telegram.NextTimeoutJob`). The framework removes that
job before it runs a handler. It schedules a new one only when the handler
returns normally with something other than END. When a job fires, the
TIMEOUT state's handlers run on the update that scheduled it, and the
conversation ends.

Files: `wrappers.dfy` (Option, Result), `seqs.dfy` (filter, join, count),
`format.dfy` (decimal amounts), `splitwise.dfy` (ledger values),
`telegram.dfy` (framework values), `bot.dfy` (bot.py),
`settle_expense.dfy` (bot/settle_expense.py).

Behaviours of the code that a reader might not expect (the model keeps them,
except where a line says otherwise):

- yes/no do not end the conversation. `create_settlement`, `cancel_settlement` and
  `cancel_settle_expense` return None, so the conversation stays in CONFIRM.
  A second "yes" press creates a second expense, because no handler
  reads `STATE_COMPLETE` (`BotSettleExpense.RepeatedConfirmation`).
- A stale friend id is not answered. An id missing from the freshly fetched
  mapping raises KeyError, and the state is unchanged. There is no "no longer
  valid" message.
- bot.py reports a rejected settlement as settled. The Splitwise client's
  `createExpense` returns the created expense together with the errors the
  ledger gave; it does not raise for a rejected request. bot.py:201 ignores
  that result, and bot.py:204-208 then edits in "Expense settled!". In the
  model, `ledgerOk` says whether the call returned, so a rejected expense
  takes the `ledgerOk` branch and is reported as settled. Only a call that
  raises (`ledgerOk` false) is logged with nothing set or shown.
- A conversation whose handler raised never times out. Examples are a stale
  friend id and a ledger call that raises on "yes". `/cancel` in bot.py
  raises too (see "## Findings"), so as written it also leaves no timeout
  pending. The model does not keep that case: the class uses the corrected
  reply, so there `/cancel` sends the notice and schedules a fresh timeout
  job. The pending timeout job was removed before the handler ran and is not
  scheduled again. So the conversation stays in its state until a handler
  returns normally (`Bot.StalePressNeverTimesOut`,
  `BotSettleExpense.FailedConfirmationNeverTimesOut`). An update that no
  handler takes does not restart the timer either.
- In bot/settle_expense.py, /settle_expense without a token returns None
  outside any conversation. The framework still schedules a timeout job for
  it, and 30 seconds later the `timeout` helper runs on that command
  (`BotSettleExpense.NotConnectedTimesOut`).
- The two timeouts differ. `bot.py` sets 180 seconds and
  `bot/settle_expense.py` sets 30. `bot.py` has no token guard.
- `bot.py` maps ids over all friends with expenses, not only the friends the
  user owes. Any such id pressed is accepted.

## Model

| member | source | states |
|---|---|---|
| Telegram.UpdateState | bot.py:244-257 | the framework's rule for the next state: a handler returning None or raising keeps the state, END leaves the conversation, a returned state is entered; the state changes only on a returned END or state |
| Telegram.NextTimeoutJob | bot.py:244-257 | the framework's rule for the timeout: an update no handler takes leaves the pending job alone; after a handler a job is pending exactly when the handler returned normally with something other than END, and it is then a fresh job for that update |
| Format.ParseNatText | bot.py:87 | the decimal text of an amount reads back as that amount |
| Format.NatTextInjective | bot.py:87 | different amounts are shown differently |
| Bot.AmountFromFriend | bot.py:80-81 | the amount shown is the absolute value of the first balance: never negative, equal to the balance or to its negation |
| Bot.FriendsWithExpenses | bot.py:102-105 | keeps exactly the friends whose balance list is non-empty, each as many times as the ledger lists it |
| Bot.FriendsWithExpensesInOrder | bot.py:103 | the filter distributes over concatenation, so the ledger order is kept |
| Bot.Lenders | bot.py:88 | exactly the listed friends with a positive first balance, each as often as listed |
| Bot.Borrowers | bot.py:97 | exactly the listed friends with a negative first balance, each as often as listed |
| Bot.PartitionSizes | bot.py:84-99 | owes-you, you-owe and even friends add up to all friends with expenses |
| Bot.PartitionByDirection | bot.py:84-99 | the lend block's friends are exactly those with a positive first balance, the borrow block's exactly those with a negative one; no friend is in both; zero-balance friends are in neither |
| Bot.Line | bot.py:87 | a summary line is the full name, then ": ₹", and ends with a newline |
| Bot.LineShowsAmount | bot.py:87 | between the ₹ and the newline a line holds only digits, which read back as the absolute amount |
| Bot.LineHasOneNewline | bot.py:87 | a summary line ends its single line when the names hold no newline |
| Bot.LinesNewlines | bot.py:86-88 | the joined lines hold one line per listed friend |
| Bot.LendExpenses | bot.py:84-90 | the block starts with "OWES YOU:\n" and has one more line than there are friends with a positive first balance |
| Bot.BorrowedExpenses | bot.py:93-99 | the block starts with "YOU OWE:\n" and has one more line than there are friends with a negative first balance |
| Bot.AllExpenses | bot.py:108-111 | the summary starts with the lend header; its line count is 4 plus the lend and borrow entries |
| Bot.ScenarioLines | bot.py:87 | A owing 150 is shown as "A A: ₹150", B owed 75 as "B B: ₹75" |
| Bot.HeadersNewlines | bot.py:85-94 | each header, "OWES YOU:" and "YOU OWE:", is a single line |
| Bot.ScenarioPartition | bot.py:84-105 | for A(+150), B(-75): both have expenses, A alone is a lender, B alone a borrower |
| Bot.ScenarioBlocks | bot.py:84-105 | for A(+150), B(-75): A alone in the lend block, B alone in the borrow block |
| Bot.SummaryScenario | bot.py:108-111 | the whole summary text for A(+150), B(-75) |
| Bot.FriendButton | bot.py:128-129 | a friend's button carries the friend's id; its caption is the first name, two spaces, and the last name |
| Bot.LayOutButtons | bot.py:125-134 | the rows concatenate to the buttons in order; every row but the last has 2 buttons, the last has n mod 2 (empty when n is even); there are n/2+1 rows |
| Bot.KeyboardLayout | bot.py:121-134 | the grid holds one button per friend with a negative first balance, in ledger order, each labelled with the name and carrying the friend id |
| Bot.LookupFriend | bot.py:152-153 | the id mapping finds a friend with that id, the last one in the list, or reports that none has it |
| Bot.ChooseFriend | bot.py:148-156 | a press yields `(name, abs amount, id)` of a friend with expenses that has the pressed id; non-numeric data raises ValueError, an unknown id KeyError |
| Bot.ConfirmText | bot.py:172 | the confirmation text starts with "Settle balance with " and the name, continues with " of ₹", and ends with "?"; bot/settle_expense.py:86 shows the same text |
| Bot.ConfirmTextShowsAmount | bot.py:172 | between " of ₹" and "?" the confirmation text holds only digits, which read back as the amount |
| Bot.FirstRupee | bot.py:172 | in the confirmation text the first ₹ follows the name and " of " |
| Bot.ConfirmTextInjective | bot.py:172 | "Settle balance with {name} of ₹{amount}?" determines name and amount (names without ₹) |
| Bot.SettlementExpense | bot.py:185-200 | the expense costs the amount and is described "Settling the amount"; it has two users, the user paying the amount and the friend owing it, and nobody else pays or owes |
| Bot.SettlementBalanced | bot.py:185-200 | the settling expense is balanced (total paid = cost = total owed); it credits the user with the amount and debits the friend by it |
| Bot.SettlementClearsDebt | bot.py:183-201 | settling for the displayed amount with a friend the user owes brings that balance to zero |
| Bot.CancelSettlementAsWritten | bot.py:211-217 | as written, cancelling succeeds exactly for button presses |
| Bot.CancelReply | bot.py:211-217 | the "No settlement done" notice is given for a button press (as an edit) and for /cancel (as a message) |
| Bot.CancelReplyAgrees | bot.py:211-217 | for button presses the corrected reply is the one the code gives |
| Bot.YesIsNotNo | bot.py:249-250 | no callback data matches both `^yes$` and `^no$` |
| Bot.SelectHandler | bot.py:244-257 | /settle_expense enters from every state; in SETTLE_WITH any press goes to `settle_with_friend`; in CONFIRM `^yes$` creates, `^no$` cancels; /cancel is the fallback; outside a conversation only the entry point is handled |
| Bot.CancelCommandRaises | bot.py:253 | /cancel reaches `cancel_settlement` in every state, where the code as written raises |
| Bot.SettleConversation.constructor | bot.py:244-257 | a conversation starts outside any state with empty logs |
| Bot.SettleConversation.SettleExpense | bot.py:137-144 | always returns SETTLE_WITH and sends "Settle with" with the grid of friends the user owes |
| Bot.SettleConversation.SettleWithFriend | bot.py:147-174 | stores the chosen `(name, amount, friend_id)` under `settle_with_friend`, edits in the confirmation text with Yes/No, returns CONFIRM; a failed choice changes nothing |
| Bot.SettleConversation.CreateSettlement | bot.py:177-208 | logs exactly one create-expense request for the stored selection; whenever the call returns, whatever the ledger answered, edits in "Expense settled!" and keeps the state |
| Bot.SettleConversation.CancelSettlement | bot.py:211-217 | replies "No settlement done", makes no ledger call, keeps the state; for /cancel this is the corrected reply of the "## Findings" row, where the code as written raises |
| Bot.SettleConversation.Handle | bot.py:244-257 | routes by the table and updates the state by the returned code. /settle_expense sends the grid and enters SETTLE_WITH. A valid press stores the selection, shows the confirmation text and enters CONFIRM, and a failed one changes nothing. "yes" makes exactly one ledger call for the stored selection and stays in CONFIRM, editing in "Expense settled!" whenever the call returns. "no" and /cancel give the notice and stay (for /cancel the corrected reply of the "## Findings" row, so a fresh timeout job is scheduled where the code as written raises and leaves none). Only the selection key changes, and CONFIRM always has a selection on record. The pending timeout job follows the framework's rule |
| Bot.SettleConversation.RunSettleExpense | bot.py:137-144 | the entry point's step: the grid is sent and the conversation enters SETTLE_WITH |
| Bot.SettleConversation.RunSettleWithFriend | bot.py:147-174 | the SETTLE_WITH step: a valid press stores the selection, asks to confirm and enters CONFIRM; a failed one changes nothing |
| Bot.SettleConversation.RunCreateSettlement | bot.py:177-208 | the "yes" step: one ledger call for the stored selection; the state stays CONFIRM |
| Bot.SettleConversation.RunCancelSettlement | bot.py:211-217 | the "no" and /cancel step: the notice, no ledger call, the state stays; for /cancel this is the corrected reply of the "## Findings" row |
| Bot.SettleConversation.Idle | bot.py:255 | a pending timeout job ages by the idle time and, once 180 seconds old, ends the conversation; without a pending job the conversation stays as it is |
| Bot.ScenarioChoice | bot.py:147-156 | with A(+150) and B(-75), pressing B selects ("B B", 75, 2) |
| Bot.ConversationStart | bot.py:137-144 | /settle_expense on a new conversation sends "Settle with", waits in SETTLE_WITH, and has a fresh timeout job |
| Bot.StaleChoice | bot.py:148-156 | with A and B on the ledger, a press with id 99 raises KeyError |
| Bot.StalePressNeverTimesOut | bot.py:147-156 | after that stale press the conversation has no pending timeout job and is still in SETTLE_WITH 180 seconds later, with nothing stored or sent |
| Bot.ConversationPick | bot.py:147-174 | pressing B stores ("B B", 75, 2), asks "Settle balance with B B of ₹75?" with Yes/No, and enters CONFIRM |
| Bot.ConversationDecline | bot.py:211-217 | "no" edits in "No settlement done", makes no ledger call, and stays in CONFIRM |
| Bot.ConversationScenario | bot.py:177-208 | "yes" after "no" still makes one ledger call, the expense of 75 from the user to B, and edits in "Expense settled!" |
| BotSettleExpense.SettleCandidates | bot/settle_expense.py:50-69 | without an access token (or when the ledger query or the filter fails) nothing is offered; otherwise exactly the fetched friends with a negative first balance, with multiplicity |
| BotSettleExpense.CandidatesInOrder | bot/settle_expense.py:58-59 | the candidates keep the ledger order |
| BotSettleExpense.SelectHandler | bot/settle_expense.py:31-46 | /settle_expense enters from every state; TAKE_FRIEND_INPUT on any press goes to `take_friend_input`; CONFIRM on `^yes$` to create, on `^no$` to cancel; other text or commands in a conversation go to `done` |
| BotSettleExpense.StrayPressInConfirm | bot/settle_expense.py:37-40 | in CONFIRM a press that is neither yes nor no is not handled |
| BotSettleExpense.SettleDialogue.constructor | bot/settle_expense.py:31-46 | a conversation starts outside any state with the given `user_data` |
| BotSettleExpense.SettleDialogue.SettleExpense | bot/settle_expense.py:50-69 | with the token, offers the candidates and returns TAKE_FRIEND_INPUT; without it, sends the not-connected notice and returns None |
| BotSettleExpense.SettleDialogue.TakeFriendInput | bot/settle_expense.py:72-88 | stores `[name, amount, friend_id]` under SETTLE_EXPENSE, shows "Settle balance with {name} of ₹{amount}?", returns CONFIRM; a failed choice changes nothing |
| BotSettleExpense.SettleDialogue.CreateSettlement | bot/settle_expense.py:91-107 | exactly one `create_expense_object(self_id, friend_id, amount, 'Settling the expense')` with the amount stored at selection time, then STATE_COMPLETE = True and "Expense settled!" |
| BotSettleExpense.SettleDialogue.CancelSettleExpense | bot/settle_expense.py:19-28 | STATE_COMPLETE = True, "No expense settled", no ledger call |
| BotSettleExpense.SettleDialogue.Handle | bot/settle_expense.py:31-47 | routes by the table and updates the state. The token guard holds. A valid press stores the selection, shows the confirmation text and enters CONFIRM, and a failed one changes nothing. "yes" makes exactly one ledger call and sets STATE_COMPLETE and shows "Expense settled!" when the call returns. "no" sets STATE_COMPLETE and shows "No expense settled". Both stay in CONFIRM. This file's handlers write no `user_data` key but SETTLE_EXPENSE and STATE_COMPLETE. The `done` fallback ends the conversation or not according to its given effect. The pending timeout job follows the framework's rule |
| BotSettleExpense.SettleDialogue.RunSettleExpense | bot/settle_expense.py:50-69 | the entry point's step: with a token and a working query the candidates are offered and the dialogue enters TAKE_FRIEND_INPUT; otherwise the notice, and the state stays |
| BotSettleExpense.SettleDialogue.RunTakeFriendInput | bot/settle_expense.py:72-88 | the TAKE_FRIEND_INPUT step: a valid press stores the selection, shows the confirmation text and enters CONFIRM |
| BotSettleExpense.SettleDialogue.RunCreateSettlement | bot/settle_expense.py:91-107 | the "yes" step: one ledger call, STATE_COMPLETE when the call returns, the state stays CONFIRM |
| BotSettleExpense.SettleDialogue.RunCancelSettleExpense | bot/settle_expense.py:19-28 | the "no" step: STATE_COMPLETE, "No expense settled", the state stays CONFIRM |
| BotSettleExpense.SettleDialogue.RunDone | bot/settle_expense.py:43 | the fallback step: the conversation ends or stays as the given effect of `done` says |
| BotSettleExpense.SettleDialogue.Idle | bot/settle_expense.py:41-45 | a pending timeout job ages by the idle time; once 30 seconds old it ends the conversation, and the TIMEOUT handler's `timeout` helper shows its output when the update that scheduled the job was text or a command; without a pending job nothing changes |
| BotSettleExpense.ScenarioChoices | bot/settle_expense.py:58-84 | for A(+150), B(-75): B alone is offered; pressing B selects ("B B", 75, 2) |
| BotSettleExpense.ScenarioStart | bot/settle_expense.py:50-67 | with a token, /settle_expense offers [B] and waits in TAKE_FRIEND_INPUT |
| BotSettleExpense.ScenarioPick | bot/settle_expense.py:72-88 | pressing B records B's selection, shows "Settle balance with B B of ₹75?" and moves to CONFIRM |
| BotSettleExpense.SettlementScenario | bot/settle_expense.py:91-107 | "yes" then makes exactly one call, `create_expense_object(7, 2, 75, 'Settling the expense')`, sets STATE_COMPLETE, shows "Expense settled!" and stays in CONFIRM |
| BotSettleExpense.RepeatedConfirmation | bot/settle_expense.py:91-107 | a second "yes" in the same dialogue makes a second, identical ledger call |
| BotSettleExpense.FailedConfirmationNeverTimesOut | bot/settle_expense.py:91-107 | after a "yes" whose ledger call raises, the dialogue is still in CONFIRM 30 seconds later, and a later "yes" settles with a second identical call |
| BotSettleExpense.NotConnectedTimesOut | bot/settle_expense.py:50-69 | without a token, /settle_expense shows the not-connected notice outside any conversation, and 30 seconds later the `timeout` helper's output follows |

## Findings

| source | as written | input that shows it | evidently intended | confidence | as-written member | corrected member |
|---|---|---|---|---|---|---|
| bot.py:211-217 | the `/cancel` fallback (bot.py:253) runs `cancel_settlement`, which edits `update.callback_query.message`; a command update has no callback query, so it raises AttributeError and no notice is given | the command `/cancel` sent while the conversation is in SETTLE_WITH or CONFIRM | `/cancel` answers "No settlement done" like the "no" button | high; not executed | Bot.CancelSettlementAsWritten (with Bot.CancelCommandRaises) | Bot.CancelReply, used by Bot.SettleConversation.CancelSettlement |

## Left out

- main.py is not modelled (process start, configuration, handler discovery by import, webhook or polling). utils/logger.py is not modelled either (logging setup).
- `connect`, `start`, `help`, `unknown`, `error` and `get_notifications` in bot.py are left out. They cover authorisation, help text, logging and a stub.
- `initialize_bot`, the global OAUTH_TOKEN mutation in `start`, and `splitwise.setAccessToken` are left out. They are process-wide client configuration, not dialogue logic.
- The Telegram transport is not modelled: typing actions, markup objects, chat and message ids. Replies are recorded as values instead.
- `Bot.AmountFromFriend`: amounts are integers. The `float(...)` parsing and Python's float text (`150.0`) are not modelled; amounts are shown as decimal digits.
- `int(query.data)` is abstracted. Callback data is either an id or a word that `int` rejects.
- The command names come from a `commands` module and the `user_data` keys from `utils/constants`. Neither module is part of this model. The commands are taken to be `settle_expense` and `cancel`, and the keys are modelled as distinct constructors.
- utils/helper.py is not part of this model. Its `get_keyboard_layout` is recorded as the candidate list. `confirm` and `send_account_not_connected` are recorded as outputs.
- `BotSettleExpense.SettleDialogue.Handle`: the helpers `done` (the fallback) and `timeout` (the TIMEOUT state) are in utils/helper.py, which is not part of this model. What `done` returns (END or None) and what it shows are inputs. Returning a state of this conversation is not modelled. Leaving `user_data` unchanged is an assumption of the model.
- `BotSettleExpense.SettleDialogue.Idle`: what `timeout` shows is an input. That it leaves `user_data` unchanged is an assumption of the model. Its return value is ignored by the framework, which ends the conversation after it.
- The `splitwise_telegram` wrapper is not part of this model. In `bot/settle_expense.py`, its `get_id_name_mapping` and `get_id_amount_mapping` are taken to be bot.py's mappings (bot.py:150-153). Its `get_friends_with_expenses` result is an input, and `create_expense_object` is a logged request.
- `Bot.SettleConversation.SettleExpense` and `Bot.SettleConversation.SettleWithFriend`: a failing Splitwise friend query in bot.py is not modelled; the friend list is an input. `getCurrentUser` is the `selfId` input.
- `Bot.SettleConversation.Idle` and `BotSettleExpense.SettleDialogue.Idle`: the job queue's wall clock is modelled as an idle period passed in. The race between a firing job and an update arriving at the same moment is not modelled.
- `BotSettleExpense.SettleDialogue.CreateSettlement`: the `create_expense_object` wrapper is not part of this model. Whether it checks the errors `createExpense` returns is unknown. The model takes `ledgerOk` to mean that the call returned and `ledgerOk` false to mean that it raised.
- Shared stores are not modelled. Each conversation object has its own context store and its own ledger client, and that does not hold in the code:
  - Both ConversationHandlers (bot.py:244, bot/settle_expense.py:33) keep one conversation per (chat, user) pair, the framework default.
  - `chat_data` (bot.py:156, bot.py:181) is shared by every user in a chat. In a group, a friend press by one user can overwrite the selection that another user's "yes" then settles.
  - `user_data` (bot/settle_expense.py:84, bot/settle_expense.py:96) is shared by one user's conversations in all chats.
  - The Splitwise client is a single process-wide object (bot.py:17, bot.py:40-43, main.py:13). bot/settle_expense.py:54 sets the access token only in `settle_expense`, so one user's `create_expense_object` can run under the token another user set last.
  - Interleavings of several users' updates are not modelled either.
- `Bot.LendExpenses`, `Bot.BorrowedExpenses`, `Bot.AllExpenses`: their contracts state the header, the line counts and, through `Bot.PartitionByDirection` and the scenario lemmas, which friends are listed. They do not restate the exact text, which is their definition.
