/**
 * The part of the Telegram bot framework (python-telegram-bot, versions 12
 * and 13, with `use_context=True`) the dialogues rely on: incoming updates,
 * inline buttons, the messages a handler sends or edits, the values kept in
 * `context.chat_data` / `context.user_data`, and the rules by which a
 * ConversationHandler moves to the state a handler returns and keeps its
 * pending timeout job.
 */
module Telegram {
  import opened Wrappers

  /**
   * The callback data of a button. `IdData` is data that `int(...)` reads as
   * the number `id` (a friend button); `Word` is data it rejects, such as the
   * `yes` and `no` of the confirmation buttons.
   */
  datatype Payload = IdData(id: int) | Word(text: string)

  /** An incoming update: a `/name` command, a plain text message, or a button press. */
  datatype Event = Command(name: string) | Text(text: string) | Callback(data: Payload)

  datatype InlineButton = InlineButton(caption: string, data: Payload)

  type Keyboard = seq<seq<InlineButton>>

  /** A message sent to the chat (`reply_text`) or an edit of the message whose button was pressed. */
  datatype Reply = Send(text: string, keyboard: Keyboard) | Edit(text: string, keyboard: Keyboard)

  /**
   * A value stored in the conversation context: the selection tuple
   * `(name, amount, friend_id)`, a flag, or any other value (an access token,
   * an OAuth secret), kept opaque.
   */
  datatype Value = Selection(name: string, amount: nat, friendId: int) | Flag(b: bool) | Opaque(text: string)

  /** What a handler returns: nothing (Python's None), a next state, or ConversationHandler.END. */
  datatype Ret<S> = Stay | Next(state: S) | End

  /** The exceptions a handler can end with (LedgerError: one raised by the ledger client). */
  datatype Fault = ValueError | KeyError | AttributeError | LedgerError

  datatype Outcome<S> = Returned(ret: Ret<S>) | Raised(fault: Fault)

  /**
   * The conversation state after a handler ran in state `current` (None: no
   * conversation). A handler that returns None or raises leaves the state as
   * it was; END ends the conversation.
   */
  function UpdateState<S>(current: Option<S>, outcome: Outcome<S>): (next: Option<S>)
    ensures outcome.Raised? || outcome == Returned(Stay) ==> next == current
    ensures outcome == Returned(End) ==> next == None
    ensures outcome.Returned? && outcome.ret.Next? ==> next == Some(outcome.ret.state)
    ensures next != current ==> outcome.Returned? && !outcome.ret.Stay?
  {
    match outcome
    case Raised(_) => current
    case Returned(Stay) => current
    case Returned(End) => None
    case Returned(Next(s)) => Some(s)
  }

  /**
   * A conversation's pending timeout job: how many seconds ago it was
   * scheduled, and the update whose handling scheduled it.
   */
  datatype TimeoutJob = TimeoutJob(age: nat, update: Event)

  /**
   * The pending timeout job after update `ev` (`outcome` None: no handler of
   * the conversation took it, and nothing is touched). Before it runs a
   * handler the framework removes the pending job; it schedules a fresh one
   * only when the handler returns normally with something other than END.
   * So after a handler raises, no timeout is pending.
   */
  function NextTimeoutJob<S>(job: Option<TimeoutJob>, ev: Event, outcome: Option<Outcome<S>>): (next: Option<TimeoutJob>)
    ensures outcome.None? ==> next == job
    ensures outcome.Some? ==> (next.Some? <==> outcome.value.Returned? && !outcome.value.ret.End?)
    ensures outcome.Some? && next.Some? ==> next.value == TimeoutJob(0, ev)
  {
    match outcome
    case None => job
    case Some(Raised(_)) => None
    case Some(Returned(End)) => None
    case Some(Returned(_)) => Some(TimeoutJob(0, ev))
  }
}
