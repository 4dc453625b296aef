/**
 * bot/settle_expense.py: the /settle_expense conversation of the handler
 * package. It refuses to start without an access token in `user_data`,
 * offers the friends the user owes, records the chosen one under
 * SETTLE_EXPENSE, and on "yes" asks the ledger for one settling expense;
 * "yes" and "no" both set STATE_COMPLETE.
 */
module BotSettleExpense {
  import opened Wrappers
  import opened Seqs
  import opened Splitwise
  import opened Telegram
  import Bot

  /** The keys of `context.user_data` (distinct constants of utils/constants.py). */
  datatype Key = AccessTokenKey | SettleExpenseKey | StateCompleteKey | OtherKey(name: string)

  datatype State = TakeFriendInputState | ConfirmState

  const SettleCommand: string := "settle_expense"

  /** Seconds of inactivity after which the conversation times out. */
  const ConversationTimeout: nat := 30

  const SettlementDescription: string := "Settling the expense"

  /** What the handlers show the chat, directly or through the helpers of utils/helper.py. */
  datatype Output =
    | SettleWithPrompt(candidates: seq<Friend>)  // "Settle with" and a grid of the candidates' buttons
    | NotConnectedNotice                        // send_account_not_connected
    | ConfirmPrompt(text: string)               // confirm(update, context, text, False)
    | EditText(text: string)                    // edit_message_text of the pressed message
    | HelperOutput(text: string)                // whatever the `done` helper shows

  /**
   * What the `done` fallback of utils/helper.py does, taken as an input:
   * whether it returns ConversationHandler.END (rather than None), and what
   * it shows the chat.
   */
  datatype DoneEffect = DoneEffect(ends: bool, shown: seq<Output>)

  /**
   * The friends /settle_expense offers, or None when it gives up and sends
   * the not-connected notice instead: without an access token, when the
   * ledger query fails, or when a fetched friend has no balance entry (the
   * `[0]` of the filter raises inside the same `try`).
   */
  function SettleCandidates(userData: map<Key, Value>, fetched: Option<seq<Friend>>): (r: Option<seq<Friend>>)
    ensures r.Some? <==> AccessTokenKey in userData && fetched.Some? && Bot.AllHaveExpenses(fetched.value)
    ensures AccessTokenKey !in userData ==> r == None
    ensures r.Some? ==> forall f :: f in r.value <==> f in fetched.value && f.balances[0] < 0
    ensures r.Some? ==> forall f :: multiset(r.value)[f] == if Bot.YouOwe(f) then multiset(fetched.value)[f] else 0
  {
    if AccessTokenKey !in userData then None
    else if fetched.None? || !Bot.AllHaveExpenses(fetched.value) then None
    else Some(Filter(fetched.value, Bot.YouOwe))
  }

  /** The candidates keep the ledger order: the filter distributes over concatenation. */
  lemma CandidatesInOrder(userData: map<Key, Value>, a: seq<Friend>, b: seq<Friend>)
    requires AccessTokenKey in userData && Bot.AllHaveExpenses(a) && Bot.AllHaveExpenses(b)
    ensures SettleCandidates(userData, Some(a + b)).Some?
    ensures SettleCandidates(userData, Some(a + b)).value
         == SettleCandidates(userData, Some(a)).value + SettleCandidates(userData, Some(b)).value
  {
    FilterAppend(a, b, Bot.YouOwe);
  }

  datatype Handler =
    | SettleExpenseHandler
    | TakeFriendInputHandler
    | CreateSettlementHandler
    | CancelSettleExpenseHandler
    | DoneHandler
    | NoHandler

  /**
   * The ConversationHandler of `init`: the /settle_expense entry point is
   * tried first in every state (re-entry is allowed); in TAKE_FRIEND_INPUT
   * any button press goes to `take_friend_input`; in CONFIRM `^yes$` goes to
   * `create_settlement` and `^no$` to `cancel_settle_expense`; any other
   * text or command in a conversation goes to the `done` fallback.
   */
  function SelectHandler(state: Option<State>, ev: Event): (h: Handler)
    ensures h == SettleExpenseHandler <==> ev == Command(SettleCommand)
    ensures h == TakeFriendInputHandler <==> state == Some(TakeFriendInputState) && ev.Callback?
    ensures h == CreateSettlementHandler <==> state == Some(ConfirmState) && ev.Callback? && Bot.MatchesWord(ev.data, "yes")
    ensures h == CancelSettleExpenseHandler <==> state == Some(ConfirmState) && ev.Callback? && Bot.MatchesWord(ev.data, "no")
    ensures h == DoneHandler <==> state.Some? && !ev.Callback? && ev != Command(SettleCommand)
  {
    if ev == Command(SettleCommand) then SettleExpenseHandler
    else if state == None then NoHandler
    else if state == Some(TakeFriendInputState) && ev.Callback? then TakeFriendInputHandler
    else if state == Some(ConfirmState) && ev.Callback? && Bot.MatchesWord(ev.data, "yes") then
      Bot.YesIsNotNo(ev.data); CreateSettlementHandler
    else if state == Some(ConfirmState) && ev.Callback? && Bot.MatchesWord(ev.data, "no") then CancelSettleExpenseHandler
    else if ev.Text? || ev.Command? then DoneHandler
    else NoHandler
  }

  /** A button press that is neither `yes` nor `no` during CONFIRM is not handled at all. */
  lemma StrayPressInConfirm(data: Payload)
    requires !Bot.MatchesWord(data, "yes") && !Bot.MatchesWord(data, "no")
    ensures SelectHandler(Some(ConfirmState), Callback(data)) == NoHandler
  {
  }

  /**
   * One settle conversation: the user's `user_data`, the conversation state,
   * its pending timeout job, the ledger calls made and what was shown to the
   * chat. The user's other
   * conversations, which share that `user_data`, are not modelled.
   */
  class SettleDialogue {
    var userData: map<Key, Value>
    var state: Option<State>
    var timeoutJob: Option<TimeoutJob>
    var ledgerCalls: seq<LedgerCall>
    var outputs: seq<Output>

    /** In CONFIRM a selection is on record. */
    ghost predicate Valid()
      reads this
    {
      state == Some(ConfirmState) ==> SettleExpenseKey in userData && userData[SettleExpenseKey].Selection?
    }

    constructor (initialUserData: map<Key, Value>)
      ensures Valid()
      ensures userData == initialUserData && state == None && timeoutJob == None && ledgerCalls == [] && outputs == []
    {
      userData := initialUserData;
      state := None;
      timeoutJob := None;
      ledgerCalls := [];
      outputs := [];
    }

    /** /settle_expense: offer the candidates, or the not-connected notice. */
    method SettleExpense(fetched: Option<seq<Friend>>) returns (outcome: Outcome<State>)
      modifies this`outputs
      ensures var c := SettleCandidates(old(userData), fetched);
              if c.Some? then
                outcome == Returned(Next(TakeFriendInputState)) && outputs == old(outputs) + [SettleWithPrompt(c.value)]
              else
                outcome == Returned(Stay) && outputs == old(outputs) + [NotConnectedNotice]
    {
      var candidates := SettleCandidates(userData, fetched);
      if candidates.None? {
        outputs := outputs + [NotConnectedNotice];
        return Returned(Stay);
      }
      outputs := outputs + [SettleWithPrompt(candidates.value)];
      outcome := Returned(Next(TakeFriendInputState));
    }

    /** A friend button: record `[name, amount, friend_id]` and ask for confirmation. */
    method TakeFriendInput(data: Payload, ledgerFriends: seq<Friend>) returns (outcome: Outcome<State>)
      modifies this`userData, this`outputs
      ensures var c := Bot.ChooseFriend(data, ledgerFriends);
              if c.Err? then
                outcome == Raised(c.error) && userData == old(userData) && outputs == old(outputs)
              else
                && outcome == Returned(Next(ConfirmState))
                && userData == old(userData)[SettleExpenseKey := c.value]
                && outputs == old(outputs) + [ConfirmPrompt(Bot.ConfirmText(c.value.name, c.value.amount))]
    {
      var choice := Bot.ChooseFriend(data, ledgerFriends);
      if choice.Err? {
        return Raised(choice.error);
      }
      var selection := choice.value;
      userData := userData[SettleExpenseKey := selection];
      outputs := outputs + [ConfirmPrompt(Bot.ConfirmText(selection.name, selection.amount))];
      outcome := Returned(Next(ConfirmState));
    }

    /**
     * "yes": one ledger call for the recorded selection, then STATE_COMPLETE.
     * `ledgerOk` says whether the call returned.
     */
    method CreateSettlement(selfId: int, ledgerOk: bool) returns (outcome: Outcome<State>)
      modifies this`userData, this`ledgerCalls, this`outputs
      ensures SettleExpenseKey !in old(userData) ==>
                && outcome == Raised(KeyError)
                && userData == old(userData) && ledgerCalls == old(ledgerCalls) && outputs == old(outputs)
      ensures SettleExpenseKey in old(userData) && !old(userData)[SettleExpenseKey].Selection? ==>
                && outcome == Raised(ValueError)
                && userData == old(userData) && ledgerCalls == old(ledgerCalls) && outputs == old(outputs)
      ensures SettleExpenseKey in old(userData) && old(userData)[SettleExpenseKey].Selection? ==>
                var s := old(userData)[SettleExpenseKey];
                && ledgerCalls == old(ledgerCalls) + [CreateExpenseObject(selfId, s.friendId, s.amount, SettlementDescription)]
                && if ledgerOk then
                     && outcome == Returned(Stay)
                     && userData == old(userData)[StateCompleteKey := Flag(true)]
                     && outputs == old(outputs) + [EditText("Expense settled!")]
                   else
                     outcome == Raised(LedgerError) && userData == old(userData) && outputs == old(outputs)
    {
      if SettleExpenseKey !in userData {
        return Raised(KeyError);
      }
      var selection := userData[SettleExpenseKey];
      if !selection.Selection? {
        return Raised(ValueError);
      }
      ledgerCalls := ledgerCalls + [CreateExpenseObject(selfId, selection.friendId, selection.amount, SettlementDescription)];
      if !ledgerOk {
        return Raised(LedgerError);
      }
      userData := userData[StateCompleteKey := Flag(true)];
      outputs := outputs + [EditText("Expense settled!")];
      outcome := Returned(Stay);
    }

    /** "no": STATE_COMPLETE, and no ledger call. */
    method CancelSettleExpense() returns (outcome: Outcome<State>)
      modifies this`userData, this`outputs
      ensures outcome == Returned(Stay)
      ensures userData == old(userData)[StateCompleteKey := Flag(true)]
      ensures outputs == old(outputs) + [EditText("No expense settled")]
    {
      userData := userData[StateCompleteKey := Flag(true)];
      outputs := outputs + [EditText("No expense settled")];
      outcome := Returned(Stay);
    }

    /**
     * What handler `h` does to the dialogue, from the state before the update
     * to the state after it, and what it returns (None: no handler).
     */
    twostate predicate Transition(h: Handler, ev: Event, fetched: Option<seq<Friend>>, ledgerFriends: seq<Friend>,
                                  selfId: int, ledgerOk: bool, done: DoneEffect, outcome: Option<Outcome<State>>)
      reads this`state, this`userData, this`ledgerCalls, this`outputs
    {
      match h
      case NoHandler =>
        && outcome == None && state == old(state)
        && userData == old(userData) && ledgerCalls == old(ledgerCalls) && outputs == old(outputs)
      // The entry point, and its token guard.
      case SettleExpenseHandler =>
        && userData == old(userData) && ledgerCalls == old(ledgerCalls)
        && var c := SettleCandidates(old(userData), fetched);
           if c.Some? then
             && outcome == Some(Returned(Next(TakeFriendInputState))) && state == Some(TakeFriendInputState)
             && outputs == old(outputs) + [SettleWithPrompt(c.value)]
           else
             && outcome == Some(Returned(Stay)) && state == old(state)
             && outputs == old(outputs) + [NotConnectedNotice]
      // A friend button records the selection, asks to confirm, and moves to CONFIRM.
      case TakeFriendInputHandler =>
        && ev.Callback? && ledgerCalls == old(ledgerCalls)
        && var c := Bot.ChooseFriend(ev.data, ledgerFriends);
           if c.Ok? then
             && outcome == Some(Returned(Next(ConfirmState))) && state == Some(ConfirmState)
             && userData == old(userData)[SettleExpenseKey := c.value]
             && outputs == old(outputs) + [ConfirmPrompt(Bot.ConfirmText(c.value.name, c.value.amount))]
           else
             && outcome == Some(Raised(c.error))
             && state == old(state) && userData == old(userData) && outputs == old(outputs)
      // "yes": exactly one ledger call, with the amount recorded at selection time;
      // it returns None, so the dialogue stays in CONFIRM.
      case CreateSettlementHandler =>
        && SettleExpenseKey in old(userData) && old(userData)[SettleExpenseKey].Selection?
        && var s := old(userData)[SettleExpenseKey];
           && state == old(state)
           && ledgerCalls == old(ledgerCalls) + [CreateExpenseObject(selfId, s.friendId, s.amount, SettlementDescription)]
           && if ledgerOk then
                && outcome == Some(Returned(Stay))
                && userData == old(userData)[StateCompleteKey := Flag(true)]
                && outputs == old(outputs) + [EditText("Expense settled!")]
              else
                outcome == Some(Raised(LedgerError)) && userData == old(userData) && outputs == old(outputs)
      // "no": STATE_COMPLETE and the notice; it returns None, so the dialogue stays in CONFIRM.
      case CancelSettleExpenseHandler =>
        && outcome == Some(Returned(Stay)) && state == old(state) && ledgerCalls == old(ledgerCalls)
        && userData == old(userData)[StateCompleteKey := Flag(true)]
        && outputs == old(outputs) + [EditText("No expense settled")]
      // The `done` fallback ends the dialogue or not, as its effect says; that it
      // leaves `user_data` alone is an assumption about a helper outside this model.
      case DoneHandler =>
        && outcome == Some(Returned(if done.ends then End else Stay))
        && state == (if done.ends then None else old(state))
        && userData == old(userData) && ledgerCalls == old(ledgerCalls)
        && outputs == old(outputs) + done.shown
    }

    /**
     * Dispatch one update through the transition table. `fetched` is the
     * result of the ledger query of /settle_expense, `ledgerFriends` the
     * friend list the id mappings are built from when a button is pressed,
     * and `done` what the fallback helper does.
     */
    method Handle(ev: Event, fetched: Option<seq<Friend>>, ledgerFriends: seq<Friend>, selfId: int, ledgerOk: bool,
                  done: DoneEffect)
      returns (h: Handler, outcome: Option<Outcome<State>>)
      requires Valid()
      modifies this
      ensures Valid()
      ensures h == SelectHandler(old(state), ev)
      ensures state == if outcome.Some? then UpdateState(old(state), outcome.value) else old(state)
      ensures Transition(h, ev, fetched, ledgerFriends, selfId, ledgerOk, done, outcome)
      // Without an access token the entry point only sends the not-connected notice.
      ensures h == SettleExpenseHandler && AccessTokenKey !in old(userData) ==>
                state == old(state) && outputs == old(outputs) + [NotConnectedNotice]
      ensures timeoutJob == NextTimeoutJob(old(timeoutJob), ev, outcome)
    {
      h := SelectHandler(state, ev);
      match h {
        case SettleExpenseHandler =>
          outcome := RunSettleExpense(ev, fetched, ledgerFriends, selfId, ledgerOk, done);
        case TakeFriendInputHandler =>
          outcome := RunTakeFriendInput(ev, fetched, ledgerFriends, selfId, ledgerOk, done);
        case CreateSettlementHandler =>
          outcome := RunCreateSettlement(ev, fetched, ledgerFriends, selfId, ledgerOk, done);
        case CancelSettleExpenseHandler =>
          outcome := RunCancelSettleExpense(ev, fetched, ledgerFriends, selfId, ledgerOk, done);
        case DoneHandler =>
          outcome := RunDone(ev, fetched, ledgerFriends, selfId, ledgerOk, done);
        case NoHandler =>
          outcome := None;
      }
      timeoutJob := NextTimeoutJob(timeoutJob, ev, outcome);
    }

    // One step per handler: run it, then enter the state it returns.

    method RunSettleExpense(ev: Event, fetched: Option<seq<Friend>>, ledgerFriends: seq<Friend>, selfId: int,
                            ledgerOk: bool, done: DoneEffect)
      returns (outcome: Option<Outcome<State>>)
      requires Valid()
      modifies this`state, this`userData, this`ledgerCalls, this`outputs
      ensures Valid() && outcome.Some? && state == UpdateState(old(state), outcome.value)
      ensures Transition(SettleExpenseHandler, ev, fetched, ledgerFriends, selfId, ledgerOk, done, outcome)
    {
      var o := SettleExpense(fetched);
      state := UpdateState(state, o);
      outcome := Some(o);
    }

    method RunTakeFriendInput(ev: Event, fetched: Option<seq<Friend>>, ledgerFriends: seq<Friend>, selfId: int,
                              ledgerOk: bool, done: DoneEffect)
      returns (outcome: Option<Outcome<State>>)
      requires Valid() && ev.Callback?
      modifies this`state, this`userData, this`ledgerCalls, this`outputs
      ensures Valid() && outcome.Some? && state == UpdateState(old(state), outcome.value)
      ensures Transition(TakeFriendInputHandler, ev, fetched, ledgerFriends, selfId, ledgerOk, done, outcome)
    {
      var o := TakeFriendInput(ev.data, ledgerFriends);
      state := UpdateState(state, o);
      outcome := Some(o);
    }

    method RunCreateSettlement(ev: Event, fetched: Option<seq<Friend>>, ledgerFriends: seq<Friend>, selfId: int,
                               ledgerOk: bool, done: DoneEffect)
      returns (outcome: Option<Outcome<State>>)
      requires Valid() && state == Some(ConfirmState)
      modifies this`state, this`userData, this`ledgerCalls, this`outputs
      ensures Valid() && outcome.Some? && state == UpdateState(old(state), outcome.value)
      ensures Transition(CreateSettlementHandler, ev, fetched, ledgerFriends, selfId, ledgerOk, done, outcome)
    {
      var o := CreateSettlement(selfId, ledgerOk);
      state := UpdateState(state, o);
      outcome := Some(o);
    }

    method RunCancelSettleExpense(ev: Event, fetched: Option<seq<Friend>>, ledgerFriends: seq<Friend>, selfId: int,
                                  ledgerOk: bool, done: DoneEffect)
      returns (outcome: Option<Outcome<State>>)
      requires Valid()
      modifies this`state, this`userData, this`ledgerCalls, this`outputs
      ensures Valid() && outcome.Some? && state == UpdateState(old(state), outcome.value)
      ensures Transition(CancelSettleExpenseHandler, ev, fetched, ledgerFriends, selfId, ledgerOk, done, outcome)
    {
      var o := CancelSettleExpense();
      state := UpdateState(state, o);
      outcome := Some(o);
    }

    /** The `done` helper is outside this model: its result and what it shows are given. */
    method RunDone(ev: Event, fetched: Option<seq<Friend>>, ledgerFriends: seq<Friend>, selfId: int,
                   ledgerOk: bool, done: DoneEffect)
      returns (outcome: Option<Outcome<State>>)
      requires Valid()
      modifies this`state, this`userData, this`ledgerCalls, this`outputs
      ensures Valid() && outcome.Some? && state == UpdateState(old(state), outcome.value)
      ensures Transition(DoneHandler, ev, fetched, ledgerFriends, selfId, ledgerOk, done, outcome)
    {
      outputs := outputs + done.shown;
      var o := Returned(if done.ends then End else Stay);
      state := UpdateState(state, o);
      outcome := Some(o);
    }

    /**
     * `seconds` pass. A pending timeout job ages, and once it is
     * ConversationTimeout seconds old it fires: the TIMEOUT state's handler,
     * which takes text and commands, runs the `timeout` helper on the update
     * that scheduled the job (`timeoutShown` is what that helper shows), and
     * the conversation ends. Without a pending job, as after a handler
     * raised, nothing times out.
     */
    method Idle(seconds: nat, timeoutShown: seq<Output>)
      requires Valid()
      modifies this`state, this`timeoutJob, this`outputs
      ensures Valid()
      ensures match old(timeoutJob)
              case None => state == old(state) && timeoutJob == None && outputs == old(outputs)
              case Some(job) =>
                if job.age + seconds >= ConversationTimeout then
                  && state == None && timeoutJob == None
                  && outputs == old(outputs) + (if job.update.Callback? then [] else timeoutShown)
                else
                  state == old(state) && timeoutJob == Some(job.(age := job.age + seconds)) && outputs == old(outputs)
    {
      match timeoutJob
      case None =>
      case Some(job) =>
        if job.age + seconds >= ConversationTimeout {
          if !job.update.Callback? {
            outputs := outputs + timeoutShown;
          }
          state := None;
          timeoutJob := None;
        } else {
          timeoutJob := Some(job.(age := job.age + seconds));
        }
    }
  }

  /** The candidates and the selection for the two friends of the walk-through. */
  lemma ScenarioChoices(userData: map<Key, Value>)
    requires AccessTokenKey in userData
    ensures SettleCandidates(userData, Some([Bot.FriendA, Bot.FriendB])) == Some([Bot.FriendB])
    ensures Bot.ChooseFriend(IdData(2), [Bot.FriendA, Bot.FriendB]) == Ok(Selection("B B", 75, 2))
  {
    var a, b := Bot.FriendA, Bot.FriendB;
    assert [a, b][1..] == [b] && [b][1..] == [];
    assert Bot.AllHaveExpenses([a, b]);
    assert Filter([b], Bot.YouOwe) == [b];
    assert Filter([a, b], Bot.YouOwe) == [b];
    Bot.ScenarioChoice();
  }

  /**
   * A walk-through in three steps, with A owing the user 150 and the user
   * owing B 75. First, /settle_expense with a token offers B alone.
   */
  method ScenarioStart() returns (dialogue: SettleDialogue)
    ensures fresh(dialogue) && dialogue.Valid()
    ensures dialogue.state == Some(TakeFriendInputState)
    ensures dialogue.userData == map[AccessTokenKey := Opaque("token")]
    ensures dialogue.outputs == [SettleWithPrompt([Bot.FriendB])] && dialogue.ledgerCalls == []
    ensures dialogue.timeoutJob == Some(TimeoutJob(0, Command(SettleCommand)))
  {
    var userData := map[AccessTokenKey := Opaque("token")];
    ScenarioChoices(userData);
    dialogue := new SettleDialogue(userData);
    var h, o := dialogue.Handle(Command(SettleCommand), Some([Bot.FriendA, Bot.FriendB]), [], 7, true, DoneEffect(true, []));
    assert h == SettleExpenseHandler;
  }

  /** Second, pressing B records B's name and the 75 owed, and asks to confirm. */
  method ScenarioPick(dialogue: SettleDialogue)
    requires dialogue.Valid() && dialogue.state == Some(TakeFriendInputState)
    requires AccessTokenKey in dialogue.userData
    modifies dialogue
    ensures dialogue.Valid() && dialogue.state == Some(ConfirmState)
    ensures dialogue.userData == old(dialogue.userData)[SettleExpenseKey := Selection("B B", 75, 2)]
    ensures dialogue.ledgerCalls == old(dialogue.ledgerCalls)
    ensures dialogue.outputs == old(dialogue.outputs) + [ConfirmPrompt(Bot.ConfirmText("B B", 75))]
  {
    ScenarioChoices(dialogue.userData);
    var h, o := dialogue.Handle(Callback(IdData(2)), None, [Bot.FriendA, Bot.FriendB], 7, true, DoneEffect(true, []));
    assert h == TakeFriendInputHandler;
  }

  /** Then "yes" makes exactly one ledger call, for 75 to B, and the dialogue stays in CONFIRM. */
  method SettlementScenario() returns (dialogue: SettleDialogue)
    ensures fresh(dialogue) && dialogue.Valid() && dialogue.state == Some(ConfirmState)
    ensures dialogue.ledgerCalls == [CreateExpenseObject(7, 2, 75, SettlementDescription)]
    ensures StateCompleteKey in dialogue.userData && dialogue.userData[StateCompleteKey] == Flag(true)
    ensures SettleExpenseKey in dialogue.userData && dialogue.userData[SettleExpenseKey] == Selection("B B", 75, 2)
    ensures |dialogue.outputs| == 3 && dialogue.outputs[1] == ConfirmPrompt(Bot.ConfirmText("B B", 75))
    ensures dialogue.outputs[2] == EditText("Expense settled!")
  {
    dialogue := ScenarioStart();
    ScenarioPick(dialogue);
    var h, o := dialogue.Handle(Callback(Word("yes")), None, [], 7, true, DoneEffect(true, []));
  }

  /** Nothing reads STATE_COMPLETE: a second "yes" in the same dialogue settles a second time. */
  method RepeatedConfirmation() returns (dialogue: SettleDialogue)
    ensures fresh(dialogue) && dialogue.state == Some(ConfirmState)
    ensures var call := CreateExpenseObject(7, 2, 75, SettlementDescription);
            dialogue.ledgerCalls == [call, call]
  {
    dialogue := SettlementScenario();
    var h, o := dialogue.Handle(Callback(Word("yes")), None, [], 7, true, DoneEffect(true, []));
  }

  /**
   * A "yes" whose ledger call raises removes the pending timeout job: the
   * dialogue then stays in CONFIRM however long it is left alone, and a
   * later "yes" still settles.
   */
  method FailedConfirmationNeverTimesOut(timeoutShown: seq<Output>) returns (dialogue: SettleDialogue)
    ensures fresh(dialogue) && dialogue.Valid() && dialogue.state == Some(ConfirmState)
    ensures var call := CreateExpenseObject(7, 2, 75, SettlementDescription);
            dialogue.ledgerCalls == [call, call]
    ensures |dialogue.outputs| == 3 && dialogue.outputs[2] == EditText("Expense settled!")
  {
    dialogue := ScenarioStart();
    ScenarioPick(dialogue);
    var h, o := dialogue.Handle(Callback(Word("yes")), None, [], 7, false, DoneEffect(true, []));
    assert dialogue.timeoutJob == None;
    dialogue.Idle(ConversationTimeout, timeoutShown);
    h, o := dialogue.Handle(Callback(Word("yes")), None, [], 7, true, DoneEffect(true, []));
  }

  /**
   * Without an access token, /settle_expense returns None outside any
   * conversation, and the framework still schedules a timeout job for it:
   * 30 seconds later the `timeout` helper runs on that command.
   */
  method NotConnectedTimesOut(timeoutShown: seq<Output>) returns (dialogue: SettleDialogue)
    ensures fresh(dialogue) && dialogue.state == None && dialogue.timeoutJob == None
    ensures dialogue.outputs == [NotConnectedNotice] + timeoutShown && dialogue.ledgerCalls == []
  {
    dialogue := new SettleDialogue(map[]);
    var h, o := dialogue.Handle(Command(SettleCommand), None, [], 7, true, DoneEffect(true, []));
    assert dialogue.timeoutJob == Some(TimeoutJob(0, Command(SettleCommand)));
    dialogue.Idle(ConversationTimeout, timeoutShown);
  }
}
