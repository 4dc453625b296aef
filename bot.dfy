/**
 * bot.py: the balance summary shown by /list_expense, the button grid of
 * friends the user owes, and the /settle_expense conversation that records a
 * chosen friend in `context.chat_data` and creates one settling expense on
 * "yes".
 */
module Bot {
  import opened Wrappers
  import opened Seqs
  import opened Format
  import opened Splitwise
  import opened Telegram

  // ---------------------------------------------------------------------------
  // Balances of one friend
  // ---------------------------------------------------------------------------

  predicate HasExpenses(f: Friend) { |f.balances| > 0 }

  /** The friend owes the user (first balance positive). */
  predicate OwesYou(f: Friend) { |f.balances| > 0 && f.balances[0] > 0 }

  /** The user owes the friend (first balance negative). */
  predicate YouOwe(f: Friend) { |f.balances| > 0 && f.balances[0] < 0 }

  /** A friend with a balance list whose first balance is zero. */
  predicate Even(f: Friend) { |f.balances| > 0 && f.balances[0] == 0 }

  /** The amount shown for a friend: the absolute value of the first balance. */
  function AmountFromFriend(f: Friend): (a: nat)
    requires HasExpenses(f)
    ensures a == f.balances[0] || a == -f.balances[0]
  {
    if f.balances[0] < 0 then -f.balances[0] else f.balances[0]
  }

  function FullName(f: Friend): string { f.firstName + " " + f.lastName }

  // ---------------------------------------------------------------------------
  // Balance summary
  // ---------------------------------------------------------------------------

  /** The ledger's friends that have at least one balance entry, in ledger order. */
  function FriendsWithExpenses(friends: seq<Friend>): (r: seq<Friend>)
    ensures forall f :: f in r <==> f in friends && |f.balances| > 0
    ensures forall f :: multiset(r)[f] == if HasExpenses(f) then multiset(friends)[f] else 0
  {
    Filter(friends, HasExpenses)
  }

  /** The filter keeps the ledger order: it distributes over concatenation. */
  lemma FriendsWithExpensesInOrder(a: seq<Friend>, b: seq<Friend>)
    ensures FriendsWithExpenses(a + b) == FriendsWithExpenses(a) + FriendsWithExpenses(b)
  {
    FilterAppend(a, b, HasExpenses);
  }

  function Lenders(friends: seq<Friend>): (r: seq<Friend>)
    ensures forall f :: f in r <==> f in friends && OwesYou(f)
    ensures forall f :: multiset(r)[f] == if OwesYou(f) then multiset(friends)[f] else 0
  {
    Filter(friends, OwesYou)
  }

  function Borrowers(friends: seq<Friend>): (r: seq<Friend>)
    ensures forall f :: f in r <==> f in friends && YouOwe(f)
    ensures forall f :: multiset(r)[f] == if YouOwe(f) then multiset(friends)[f] else 0
  {
    Filter(friends, YouOwe)
  }

  predicate AllHaveExpenses(friends: seq<Friend>)
  {
    forall f :: f in friends ==> HasExpenses(f)
  }

  /** Every friend with expenses is counted in exactly one of the three groups. */
  lemma {:induction false} PartitionSizes(friends: seq<Friend>)
    requires AllHaveExpenses(friends)
    ensures |Lenders(friends)| + |Borrowers(friends)| + |Filter(friends, Even)| == |friends|
  {
    if friends != [] {
      var tail := friends[1..];
      assert AllHaveExpenses(tail) by {
        forall f | f in tail ensures HasExpenses(f) { assert f in friends; }
      }
      PartitionSizes(tail);
      assert HasExpenses(friends[0]);
    }
  }

  /**
   * The lend block takes exactly the friends with a positive first balance,
   * the borrow block exactly those with a negative one; no friend is in
   * both, and the friends left out are exactly the even ones.
   */
  lemma PartitionByDirection(friends: seq<Friend>)
    requires AllHaveExpenses(friends)
    ensures forall f :: f in friends ==> (f in Lenders(friends) <==> f.balances[0] > 0)
    ensures forall f :: f in friends ==> (f in Borrowers(friends) <==> f.balances[0] < 0)
    ensures forall f :: !(f in Lenders(friends) && f in Borrowers(friends))
    ensures |Lenders(friends)| + |Borrowers(friends)| + |Filter(friends, Even)| == |friends|
  {
    PartitionSizes(friends);
  }

  const LendHeader: string := "OWES YOU:\n"
  const BorrowHeader: string := "YOU OWE:\n"

  /** Each header is one line. */
  lemma HeadersNewlines()
    ensures Count(LendHeader, '\n') == 1 && Count(BorrowHeader, '\n') == 1
  {
    assert LendHeader == "OWES YOU:" + "\n" && BorrowHeader == "YOU OWE:" + "\n";
    CountAppend("OWES YOU:", "\n", '\n');
    CountAppend("YOU OWE:", "\n", '\n');
    assert Count("\n", '\n') == 1;
  }

  /** The blank line between the blocks adds two line breaks. */
  lemma SeparatorNewlines()
    ensures Count("\n\n", '\n') == 2
  {
    assert "\n\n"[1..] == "\n" && "\n"[1..] == [];
  }

  /** One summary line: `"{first} {last}: ₹{amount}\n"`. */
  function Line(f: Friend): (r: string)
    requires HasExpenses(f)
    ensures var n := |FullName(f)|;
            n + 4 < |r| && r[..n] == FullName(f) && r[n..n + 3] == ": ₹" && r[|r| - 1] == '\n'
  {
    FullName(f) + ": ₹" + NatText(AmountFromFriend(f)) + "\n"
  }

  /** Between the currency sign and the newline a line shows the amount's digits, which read back as the amount. */
  lemma LineShowsAmount(f: Friend)
    requires HasExpenses(f)
    ensures var r, n := Line(f), |FullName(f)|;
            && (forall i :: n + 3 <= i < |r| - 1 ==> '0' <= r[i] <= '9')
            && ParseDigits(r[n + 3..|r| - 1]) == AmountFromFriend(f)
  {
    var r, n := Line(f), |FullName(f)|;
    assert r[n + 3..|r| - 1] == NatText(AmountFromFriend(f));
    ParseNatText(AmountFromFriend(f));
  }

  function Lines(friends: seq<Friend>): seq<string>
    requires AllHaveExpenses(friends)
  {
    seq(|friends|, i requires 0 <= i < |friends| => Line(friends[i]))
  }

  predicate NoNewlineInNames(friends: seq<Friend>)
  {
    forall f :: f in friends ==> '\n' !in f.firstName && '\n' !in f.lastName
  }

  lemma LineHasOneNewline(f: Friend)
    requires HasExpenses(f) && '\n' !in f.firstName && '\n' !in f.lastName
    ensures Count(Line(f), '\n') == 1
  {
    var amount := NatText(AmountFromFriend(f));
    assert '\n' !in amount;
    CountAppend(f.firstName, " " + f.lastName, '\n');
    CountAppend(" ", f.lastName, '\n');
    CountAppend(FullName(f), ": ₹", '\n');
    CountAppend(FullName(f) + ": ₹", amount, '\n');
    CountAppend(FullName(f) + ": ₹" + amount, "\n", '\n');
  }

  /** What holds of every listed friend holds of every friend a filter keeps. */
  lemma SubList(sub: seq<Friend>, friends: seq<Friend>)
    requires forall f :: f in sub ==> f in friends
    ensures AllHaveExpenses(friends) ==> AllHaveExpenses(sub)
    ensures NoNewlineInNames(friends) ==> NoNewlineInNames(sub)
  {
  }

  /** The joined lines of `friends` hold one newline per friend. */
  lemma {:induction false} LinesNewlines(friends: seq<Friend>)
    requires AllHaveExpenses(friends) && NoNewlineInNames(friends)
    ensures Count(Flatten(Lines(friends)), '\n') == |friends|
  {
    if friends != [] {
      var tail := friends[1..];
      assert Lines(friends) == [Line(friends[0])] + Lines(tail);
      assert Flatten(Lines(friends)) == Line(friends[0]) + Flatten(Lines(tail));
      LineHasOneNewline(friends[0]);
      CountAppend(Line(friends[0]), Flatten(Lines(tail)), '\n');
      LinesNewlines(tail);
    }
  }

  /**
   * The "OWES YOU" block: its header, then one line per friend with a
   * positive first balance, in input order.
   */
  function LendExpenses(friends: seq<Friend>): (r: string)
    requires AllHaveExpenses(friends)
    ensures |r| >= |LendHeader| && r[..|LendHeader|] == LendHeader
    ensures NoNewlineInNames(friends) ==> Count(r, '\n') == 1 + |Lenders(friends)|
  {
    var lenders := Lenders(friends);
    SubList(lenders, friends);
    var lines := Flatten(Lines(lenders));
    CountAppend(LendHeader, lines, '\n');
    HeadersNewlines();
    if NoNewlineInNames(friends) then LinesNewlines(lenders); LendHeader + lines
    else LendHeader + lines
  }

  /**
   * The "YOU OWE" block: its header, then one line per friend with a
   * negative first balance, in input order.
   */
  function BorrowedExpenses(friends: seq<Friend>): (r: string)
    requires AllHaveExpenses(friends)
    ensures |r| >= |BorrowHeader| && r[..|BorrowHeader|] == BorrowHeader
    ensures NoNewlineInNames(friends) ==> Count(r, '\n') == 1 + |Borrowers(friends)|
  {
    var borrowers := Borrowers(friends);
    SubList(borrowers, friends);
    var lines := Flatten(Lines(borrowers));
    CountAppend(BorrowHeader, lines, '\n');
    HeadersNewlines();
    if NoNewlineInNames(friends) then LinesNewlines(borrowers); BorrowHeader + lines
    else BorrowHeader + lines
  }

  /** The /list_expense text: the lend block, a blank line pair, the borrow block. */
  function AllExpenses(ledgerFriends: seq<Friend>): (r: string)
    ensures |r| >= |LendHeader| && r[..|LendHeader|] == LendHeader
    ensures NoNewlineInNames(ledgerFriends) ==>
              Count(r, '\n') == 4 + |Lenders(FriendsWithExpenses(ledgerFriends))|
                                  + |Borrowers(FriendsWithExpenses(ledgerFriends))|
  {
    var friends := FriendsWithExpenses(ledgerFriends);
    var lend := LendExpenses(friends);
    var borrow := BorrowedExpenses(friends);
    var r := lend + "\n\n" + borrow;
    assert r[..|LendHeader|] == lend[..|LendHeader|];
    if NoNewlineInNames(ledgerFriends) then
      SubList(friends, ledgerFriends);
      assert Count(lend, '\n') == 1 + |Lenders(friends)|;
      assert Count(borrow, '\n') == 1 + |Borrowers(friends)|;
      CountAppend(lend, "\n\n", '\n');
      SeparatorNewlines();
      CountAppend(lend + "\n\n", borrow, '\n');
      r
    else
      r
  }

  /** Two friends: A owes the user 150, the user owes B 75. */
  const FriendA: Friend := Friend(1, "A", "A", [150])
  const FriendB: Friend := Friend(2, "B", "B", [-75])

  lemma ScenarioLines()
    ensures Line(FriendA) == "A A: ₹150\n" && Line(FriendB) == "B B: ₹75\n"
  {
    assert NatText(15) == "15";
    assert NatText(150) == "150";
    assert NatText(75) == "75";
  }

  /** For A and B: both have expenses, A alone is owed to the user, B alone is owed by the user. */
  lemma ScenarioPartition()
    ensures FriendsWithExpenses([FriendA, FriendB]) == [FriendA, FriendB]
    ensures Lenders([FriendA, FriendB]) == [FriendA] && Borrowers([FriendA, FriendB]) == [FriendB]
  {
    var both := [FriendA, FriendB];
    assert both[1..] == [FriendB] && [FriendB][1..] == [];
    assert Filter([FriendB], HasExpenses) == [FriendB];
    assert Filter([FriendB], OwesYou) == [] && Filter([FriendB], YouOwe) == [FriendB];
  }

  lemma ScenarioBlocks()
    ensures FriendsWithExpenses([FriendA, FriendB]) == [FriendA, FriendB]
    ensures LendExpenses([FriendA, FriendB]) == LendHeader + Line(FriendA)
    ensures BorrowedExpenses([FriendA, FriendB]) == BorrowHeader + Line(FriendB)
  {
    ScenarioPartition();
    assert Lines([FriendA]) == [Line(FriendA)] && [Line(FriendA)][1..] == [];
    assert Lines([FriendB]) == [Line(FriendB)] && [Line(FriendB)][1..] == [];
    assert Flatten([Line(FriendA)]) == Line(FriendA);
    assert Flatten([Line(FriendB)]) == Line(FriendB);
  }

  /** The /list_expense text for A and B. */
  lemma SummaryScenario()
    ensures AllExpenses([FriendA, FriendB])
         == (LendHeader + "A A: ₹150\n") + "\n\n" + (BorrowHeader + "B B: ₹75\n")
  {
    ScenarioLines();
    ScenarioBlocks();
  }

  // ---------------------------------------------------------------------------
  // Button grid of the friends the user owes
  // ---------------------------------------------------------------------------

  /** A friend's button: the name with two spaces, carrying the friend's id. */
  function FriendButton(f: Friend): (b: InlineButton)
    ensures b.data == IdData(f.id)
    ensures var n := |f.firstName|;
            && |b.caption| == n + 2 + |f.lastName|
            && b.caption[..n] == f.firstName && b.caption[n..n + 2] == "  " && b.caption[n + 2..] == f.lastName
  {
    InlineButton(f.firstName + "  " + f.lastName, IdData(f.id))
  }

  function Buttons(friends: seq<Friend>): seq<InlineButton>
  {
    seq(|friends|, i requires 0 <= i < |friends| => FriendButton(friends[i]))
  }

  lemma ButtonsAppend(friends: seq<Friend>, f: Friend)
    ensures Buttons(friends + [f]) == Buttons(friends) + [FriendButton(f)]
  {
  }

  /**
   * `keyboard` lays out `buttons` in order, two per row; the last row holds
   * the odd one out, and is empty when the number of buttons is even.
   */
  predicate IsGrid(keyboard: Keyboard, buttons: seq<InlineButton>)
  {
    && Flatten(keyboard) == buttons
    && |keyboard| == |buttons| / 2 + 1
    && (forall i :: 0 <= i < |keyboard| - 1 ==> |keyboard[i]| == 2)
    && |keyboard[|keyboard| - 1]| == |buttons| % 2
  }

  /** The reply of /settle_expense: "Settle with" and the grid of the friends the user owes. */
  predicate OffersGrid(r: Reply, ledgerFriends: seq<Friend>)
  {
    r.Send? && r.text == "Settle with" && IsGrid(r.keyboard, Buttons(Borrowers(FriendsWithExpenses(ledgerFriends))))
  }

  /** The loop of `_get_keyboard_layout`: one button per friend, two per row. */
  method LayOutButtons(friends: seq<Friend>) returns (keyboard: Keyboard)
    ensures IsGrid(keyboard, Buttons(friends))
  {
    keyboard := [];
    var row: seq<InlineButton> := [];
    for i := 0 to |friends|
      invariant Flatten(keyboard) + row == Buttons(friends[..i])
      invariant |keyboard| == i / 2 && |row| == i % 2
      invariant forall j :: 0 <= j < |keyboard| ==> |keyboard[j]| == 2
    {
      assert friends[..i + 1] == friends[..i] + [friends[i]];
      ButtonsAppend(friends[..i], friends[i]);
      row := row + [FriendButton(friends[i])];
      if |row| == 2 {
        FlattenAppend(keyboard, [row]);
        assert Flatten([row]) == row;
        keyboard := keyboard + [row];
        row := [];
      }
    }
    FlattenAppend(keyboard, [row]);
    assert Flatten([row]) == row;
    assert friends[..|friends|] == friends;
    keyboard := keyboard + [row];
  }

  /** The grid offered by /settle_expense: one button per friend the user owes. */
  method KeyboardLayout(ledgerFriends: seq<Friend>) returns (keyboard: Keyboard)
    ensures IsGrid(keyboard, Buttons(Borrowers(FriendsWithExpenses(ledgerFriends))))
  {
    var borrowedFriends := Borrowers(FriendsWithExpenses(ledgerFriends));
    keyboard := LayOutButtons(borrowedFriends);
  }

  // ---------------------------------------------------------------------------
  // Choosing a friend and confirming
  // ---------------------------------------------------------------------------

  /**
   * The friend a `{id: ...}` dict comprehension over `friends` maps `id` to:
   * the last friend with that id.
   */
  function LookupFriend(friends: seq<Friend>, id: int): (r: Option<Friend>)
    ensures r.None? <==> forall i :: 0 <= i < |friends| ==> friends[i].id != id
    ensures r.Some? ==> exists k :: 0 <= k < |friends| && friends[k] == r.value && r.value.id == id
                                    && forall j :: k < j < |friends| ==> friends[j].id != id
  {
    if friends == [] then None
    else if friends[|friends| - 1].id == id then Some(friends[|friends| - 1])
    else LookupFriend(friends[..|friends| - 1], id)
  }

  /**
   * The selection `(name, amount, friend_id)` recorded for a friend button:
   * the data must read as an id, and that id must belong to a friend with
   * expenses in the list fetched at the time of the press.
   */
  function ChooseFriend(data: Payload, ledgerFriends: seq<Friend>): (r: Result<Value, Fault>)
    ensures r == Err(ValueError) <==> data.Word?
    ensures data.IdData? ==>
              (r == Err(KeyError) <==> forall f :: f in FriendsWithExpenses(ledgerFriends) ==> f.id != data.id)
    ensures r.Err? ==> r.error == ValueError || r.error == KeyError
    ensures r.Ok? ==> && r.value.Selection? && data.IdData? && r.value.friendId == data.id
                      && exists f :: f in FriendsWithExpenses(ledgerFriends) && f.id == data.id
                                    && r.value.name == FullName(f) && r.value.amount == AmountFromFriend(f)
  {
    match data
    case Word(_) => Err(ValueError)
    case IdData(id) =>
      var friends := FriendsWithExpenses(ledgerFriends);
      match LookupFriend(friends, id)
      case None => Err(KeyError)
      case Some(f) =>
        assert f in friends;
        Ok(Selection(FullName(f), AmountFromFriend(f), id))
  }

  const ConfirmPrefix: string := "Settle balance with "

  /** `"Settle balance with {name} of ₹{amount}?"` */
  function ConfirmText(name: string, amount: nat): (t: string)
    ensures var n := |ConfirmPrefix| + |name|;
            && n + 6 < |t| && t[..|ConfirmPrefix|] == ConfirmPrefix && t[|ConfirmPrefix|..n] == name
            && t[n..n + 5] == " of ₹" && t[|t| - 1] == '?'
  {
    ConfirmPrefix + name + " of ₹" + NatText(amount) + "?"
  }

  /** Between " of ₹" and the final "?" the confirmation text holds only digits, which read back as the amount. */
  lemma ConfirmTextShowsAmount(name: string, amount: nat)
    ensures var t, n := ConfirmText(name, amount), |ConfirmPrefix| + |name| + 5;
            && (forall i :: n <= i < |t| - 1 ==> '0' <= t[i] <= '9')
            && ParseDigits(t[n..|t| - 1]) == amount
  {
    var t, n := ConfirmText(name, amount), |ConfirmPrefix| + |name| + 5;
    assert t[n..|t| - 1] == NatText(amount);
    ParseNatText(amount);
  }

  /** In a confirmation text, the first `₹` follows the name and `" of "`. */
  lemma FirstRupee(name: string, amount: nat)
    requires '₹' !in name
    ensures var t := ConfirmText(name, amount);
            var k := |ConfirmPrefix| + |name| + 4;
            k < |t| && t[k] == '₹' && forall j :: 0 <= j < k ==> t[j] != '₹'
  {
    var t := ConfirmText(name, amount);
    var k := |ConfirmPrefix| + |name| + 4;
    assert t == ConfirmPrefix + name + " of ₹" + (NatText(amount) + "?");
    forall j | 0 <= j < k ensures t[j] != '₹' {
      if j < |ConfirmPrefix| {
        assert t[j] == ConfirmPrefix[j];
      } else if j < |ConfirmPrefix| + |name| {
        assert t[j] == name[j - |ConfirmPrefix|];
      } else {
        assert t[j] == " of ₹"[j - |ConfirmPrefix| - |name|];
      }
    }
    assert t[k] == " of ₹"[4];
  }

  /** The confirmation text names the selection unambiguously. */
  lemma ConfirmTextInjective(name1: string, amount1: nat, name2: string, amount2: nat)
    requires '₹' !in name1 && '₹' !in name2
    requires ConfirmText(name1, amount1) == ConfirmText(name2, amount2)
    ensures name1 == name2 && amount1 == amount2
  {
    var t := ConfirmText(name1, amount1);
    FirstRupee(name1, amount1);
    FirstRupee(name2, amount2);
    var k1 := |ConfirmPrefix| + |name1| + 4;
    var k2 := |ConfirmPrefix| + |name2| + 4;
    assert t[k1] == '₹' && t[k2] == '₹';
    assert k1 == k2;
    ConfirmTextShowsAmount(name1, amount1);
    ConfirmTextShowsAmount(name2, amount2);
  }

  const YesNoKeyboard: Keyboard := [[InlineButton("Yes", Word("yes")), InlineButton("No", Word("no"))]]

  // ---------------------------------------------------------------------------
  // The settling expense
  // ---------------------------------------------------------------------------

  const SettlementDescription: string := "Settling the amount"

  /** The expense `create_settlement` builds: the user paid the amount, the friend owes it. */
  function SettlementExpense(selfId: int, friendId: int, amount: int): (e: Expense)
    ensures e.cost == amount && e.description == SettlementDescription
    ensures |e.users| == 2 && e.users[0].id == selfId && e.users[1].id == friendId
    ensures e.users[0].paidShare == amount == e.users[1].owedShare
    ensures forall u :: u in e.users ==> (u.paidShare != 0 ==> u.id == selfId) && (u.owedShare != 0 ==> u.id == friendId)
  {
    Expense(amount, SettlementDescription,
            [ExpenseUser(selfId, amount, 0), ExpenseUser(friendId, 0, amount)])
  }

  /** The settlement is balanced, and moves `amount` from the friend's side to the user's. */
  lemma SettlementBalanced(selfId: int, friendId: int, amount: int)
    ensures var e := SettlementExpense(selfId, friendId, amount);
            TotalPaid(e.users) == e.cost == TotalOwed(e.users)
    ensures var e := SettlementExpense(selfId, friendId, amount);
            selfId != friendId ==> Net(e.users, selfId) == amount && Net(e.users, friendId) == -amount
  {
    var e := SettlementExpense(selfId, friendId, amount);
    var payer, payee := ExpenseUser(selfId, amount, 0), ExpenseUser(friendId, 0, amount);
    assert e.users == [payer, payee];
    assert e.users[1..] == [payee];
    assert [payee][1..] == [];
    assert TotalPaid([payee]) == 0 && TotalOwed([payee]) == amount;
    assert TotalPaid(e.users) == amount + TotalPaid([payee]);
    assert TotalOwed(e.users) == 0 + TotalOwed([payee]);
    assert Net(e.users, selfId) == (if selfId == selfId then amount else 0) + Net([payee], selfId);
    assert Net(e.users, friendId) == (if selfId == friendId then amount else 0) + Net([payee], friendId);
  }

  /**
   * Settling with a friend the user owes, for the amount shown, brings that
   * friend's first balance to zero.
   */
  lemma SettlementClearsDebt(selfId: int, f: Friend)
    requires YouOwe(f) && selfId != f.id
    ensures f.balances[0] + Net(SettlementExpense(selfId, f.id, AmountFromFriend(f)).users, selfId) == 0
  {
    SettlementBalanced(selfId, f.id, AmountFromFriend(f));
  }

  // ---------------------------------------------------------------------------
  // Cancelling
  // ---------------------------------------------------------------------------

  const CancelText: string := "No settlement done"

  /**
   * `cancel_settlement` as written: it edits the message behind
   * `update.callback_query`, which an update carrying the /cancel command
   * does not have.
   */
  function CancelSettlementAsWritten(ev: Event): (r: Result<Reply, Fault>)
    ensures r.Ok? <==> ev.Callback?
    ensures r.Ok? ==> r.value == Edit(CancelText, [])
  {
    if ev.Callback? then Ok(Edit(CancelText, [])) else Err(AttributeError)
  }

  /** The reply `cancel_settlement` is meant to give: the notice, whichever way cancel was asked for. */
  function CancelReply(ev: Event): (r: Reply)
    ensures r.text == CancelText && r.keyboard == []
    ensures r.Edit? <==> ev.Callback?
  {
    if ev.Callback? then Edit(CancelText, []) else Send(CancelText, [])
  }

  /** On a button press the corrected reply is the one the code gives. */
  lemma CancelReplyAgrees(ev: Event)
    requires ev.Callback?
    ensures CancelSettlementAsWritten(ev) == Ok(CancelReply(ev))
  {
  }

  // ---------------------------------------------------------------------------
  // The conversation
  // ---------------------------------------------------------------------------

  datatype State = SettleWithState | ConfirmState

  /** The command names of the entry point and the fallback. */
  const SettleCommand: string := "settle_expense"
  const CancelCommand: string := "cancel"

  /** Seconds of inactivity after which the conversation ends. */
  const ConversationTimeout: nat := 180

  /** The `chat_data` key of the current selection. */
  const SettleWithFriendKey: string := "settle_with_friend"

  datatype Handler =
    | SettleExpenseHandler
    | SettleWithFriendHandler
    | CreateSettlementHandler
    | CancelSettlementHandler
    | NoHandler

  /** Callback data matched by the regular expression `^w$` (`$` also matches before a final newline). */
  predicate MatchesWord(data: Payload, w: string)
  {
    data.Word? && (data.text == w || data.text == w + "\n")
  }

  lemma YesIsNotNo(data: Payload)
    ensures !(MatchesWord(data, "yes") && MatchesWord(data, "no"))
  {
    if MatchesWord(data, "yes") && data.text[0] == 'y' {
      assert data.text[0] != "no"[0];
    }
  }

  /**
   * The ConversationHandler of `main`: the /settle_expense entry point is
   * tried first in every state (re-entry is allowed), then the handlers of
   * the current state, then the /cancel fallback.
   */
  function SelectHandler(state: Option<State>, ev: Event): (h: Handler)
    ensures h == SettleExpenseHandler <==> ev == Command(SettleCommand)
    ensures h == SettleWithFriendHandler <==> state == Some(SettleWithState) && ev.Callback?
    ensures h == CreateSettlementHandler <==> state == Some(ConfirmState) && ev.Callback? && MatchesWord(ev.data, "yes")
    ensures h == CancelSettlementHandler <==>
              || (state == Some(ConfirmState) && ev.Callback? && MatchesWord(ev.data, "no"))
              || (state.Some? && ev == Command(CancelCommand))
    ensures state == None ==> h == SettleExpenseHandler || h == NoHandler
  {
    if ev == Command(SettleCommand) then SettleExpenseHandler
    else if state == None then NoHandler
    else if state == Some(SettleWithState) && ev.Callback? then SettleWithFriendHandler
    else if state == Some(ConfirmState) && ev.Callback? && MatchesWord(ev.data, "yes") then
      YesIsNotNo(ev.data); CreateSettlementHandler
    else if state == Some(ConfirmState) && ev.Callback? && MatchesWord(ev.data, "no") then CancelSettlementHandler
    else if ev == Command(CancelCommand) then CancelSettlementHandler
    else NoHandler
  }

  /** /cancel reaches `cancel_settlement` from every state, and as written that raises. */
  lemma CancelCommandRaises(state: State)
    ensures SelectHandler(Some(state), Command(CancelCommand)) == CancelSettlementHandler
    ensures CancelSettlementAsWritten(Command(CancelCommand)) == Err(AttributeError)
  {
  }

  /**
   * One settle conversation: the `chat_data` it sees, its conversation
   * state, its pending timeout job, and what it sent to the ledger and to the
   * chat. Other users of the same chat, who share that `chat_data`, are not
   * modelled.
   */
  class SettleConversation {
    var chatData: map<string, Value>
    var state: Option<State>
    var timeoutJob: Option<TimeoutJob>
    var ledgerCalls: seq<LedgerCall>
    var replies: seq<Reply>

    /** In CONFIRM a selection is on record. */
    ghost predicate Valid()
      reads this
    {
      state == Some(ConfirmState) ==> SettleWithFriendKey in chatData && chatData[SettleWithFriendKey].Selection?
    }

    constructor (initialChatData: map<string, Value>)
      ensures Valid()
      ensures chatData == initialChatData && state == None && timeoutJob == None && ledgerCalls == [] && replies == []
    {
      chatData := initialChatData;
      state := None;
      timeoutJob := None;
      ledgerCalls := [];
      replies := [];
    }

    /** /settle_expense: offer the grid of friends the user owes. */
    method SettleExpense(ledgerFriends: seq<Friend>) returns (outcome: Outcome<State>)
      modifies this`replies
      ensures outcome == Returned(Next(SettleWithState))
      ensures |replies| == |old(replies)| + 1 && replies[..|old(replies)|] == old(replies)
      ensures OffersGrid(replies[|replies| - 1], ledgerFriends)
    {
      var keyboard := KeyboardLayout(ledgerFriends);
      replies := replies + [Send("Settle with", keyboard)];
      outcome := Returned(Next(SettleWithState));
    }

    /** A friend button: record the selection and ask for confirmation. */
    method SettleWithFriend(data: Payload, ledgerFriends: seq<Friend>) returns (outcome: Outcome<State>)
      modifies this`chatData, this`replies
      ensures var c := ChooseFriend(data, ledgerFriends);
              if c.Err? then
                outcome == Raised(c.error) && chatData == old(chatData) && replies == old(replies)
              else
                && outcome == Returned(Next(ConfirmState))
                && chatData == old(chatData)[SettleWithFriendKey := c.value]
                && replies == old(replies) + [Edit(ConfirmText(c.value.name, c.value.amount), YesNoKeyboard)]
    {
      var choice := ChooseFriend(data, ledgerFriends);
      if choice.Err? {
        return Raised(choice.error);
      }
      chatData := chatData[SettleWithFriendKey := choice.value];
      var selection := chatData[SettleWithFriendKey];
      replies := replies + [Edit(ConfirmText(selection.name, selection.amount), YesNoKeyboard)];
      outcome := Returned(Next(ConfirmState));
    }

    /**
     * "yes": send the settling expense for the recorded selection to the
     * ledger. `ledgerOk` says whether the call returned: an expense the ledger
     * rejects comes back as a normal return, whose errors are ignored.
     */
    method CreateSettlement(selfId: int, ledgerOk: bool) returns (outcome: Outcome<State>)
      modifies this`ledgerCalls, this`replies
      ensures SettleWithFriendKey !in old(chatData) ==>
                outcome == Raised(KeyError) && ledgerCalls == old(ledgerCalls) && replies == old(replies)
      ensures SettleWithFriendKey in old(chatData) && !old(chatData)[SettleWithFriendKey].Selection? ==>
                outcome == Raised(ValueError) && ledgerCalls == old(ledgerCalls) && replies == old(replies)
      ensures SettleWithFriendKey in old(chatData) && old(chatData)[SettleWithFriendKey].Selection? ==>
                var s := old(chatData)[SettleWithFriendKey];
                && ledgerCalls == old(ledgerCalls) + [CreateExpense(SettlementExpense(selfId, s.friendId, s.amount))]
                && (if ledgerOk then outcome == Returned(Stay) && replies == old(replies) + [Edit("Expense settled!", [])]
                    else outcome == Raised(LedgerError) && replies == old(replies))
    {
      if SettleWithFriendKey !in chatData {
        return Raised(KeyError);
      }
      var selection := chatData[SettleWithFriendKey];
      if !selection.Selection? {
        return Raised(ValueError);
      }
      var expense := SettlementExpense(selfId, selection.friendId, selection.amount);
      ledgerCalls := ledgerCalls + [CreateExpense(expense)];
      if !ledgerOk {
        return Raised(LedgerError);
      }
      replies := replies + [Edit("Expense settled!", [])];
      outcome := Returned(Stay);
    }

    /**
     * "no" or /cancel: tell the chat nothing was settled. This is the
     * corrected reply `CancelReply`: for the /cancel command the code as
     * written raises instead (see `CancelSettlementAsWritten`).
     */
    method CancelSettlement(ev: Event) returns (outcome: Outcome<State>)
      modifies this`replies
      ensures outcome == Returned(Stay) && replies == old(replies) + [CancelReply(ev)]
    {
      replies := replies + [CancelReply(ev)];
      outcome := Returned(Stay);
    }

    /**
     * What handler `h` does to the conversation, from the state before the
     * update to the state after it, and what it returns (None: no handler).
     */
    twostate predicate Transition(h: Handler, ev: Event, ledgerFriends: seq<Friend>, selfId: int, ledgerOk: bool,
                                  outcome: Option<Outcome<State>>)
      reads this`state, this`chatData, this`ledgerCalls, this`replies
    {
      match h
      case NoHandler =>
        && outcome == None && state == old(state)
        && chatData == old(chatData) && ledgerCalls == old(ledgerCalls) && replies == old(replies)
      // /settle_expense: the grid of the friends the user owes, then SETTLE_WITH.
      case SettleExpenseHandler =>
        && outcome == Some(Returned(Next(SettleWithState))) && state == Some(SettleWithState)
        && chatData == old(chatData) && ledgerCalls == old(ledgerCalls)
        && |replies| == |old(replies)| + 1 && replies[..|old(replies)|] == old(replies)
        && OffersGrid(replies[|replies| - 1], ledgerFriends)
      // A friend button: the selection, the confirmation text, then CONFIRM; a failed choice changes nothing.
      case SettleWithFriendHandler =>
        && ev.Callback? && ledgerCalls == old(ledgerCalls)
        && var c := ChooseFriend(ev.data, ledgerFriends);
           if c.Ok? then
             && outcome == Some(Returned(Next(ConfirmState))) && state == Some(ConfirmState)
             && chatData == old(chatData)[SettleWithFriendKey := c.value]
             && replies == old(replies) + [Edit(ConfirmText(c.value.name, c.value.amount), YesNoKeyboard)]
           else
             && outcome == Some(Raised(c.error))
             && state == old(state) && chatData == old(chatData) && replies == old(replies)
      // "yes": one ledger call for the stored selection, and the state stays CONFIRM.
      // "Expense settled!" is edited in whenever the call returns, whatever the
      // ledger answered; `ledgerOk` false is a call that raised.
      case CreateSettlementHandler =>
        && SettleWithFriendKey in old(chatData) && old(chatData)[SettleWithFriendKey].Selection?
        && var s := old(chatData)[SettleWithFriendKey];
           && state == old(state) && chatData == old(chatData)
           && ledgerCalls == old(ledgerCalls) + [CreateExpense(SettlementExpense(selfId, s.friendId, s.amount))]
           && if ledgerOk then
                outcome == Some(Returned(Stay)) && replies == old(replies) + [Edit("Expense settled!", [])]
              else
                outcome == Some(Raised(LedgerError)) && replies == old(replies)
      // "no" or /cancel: the notice, no ledger call, and the state stays.
      case CancelSettlementHandler =>
        && outcome == Some(Returned(Stay)) && state == old(state)
        && chatData == old(chatData) && ledgerCalls == old(ledgerCalls) && replies == old(replies) + [CancelReply(ev)]
    }

    /** Dispatch one update through the conversation's transition table. */
    method Handle(ev: Event, ledgerFriends: seq<Friend>, selfId: int, ledgerOk: bool)
      returns (h: Handler, outcome: Option<Outcome<State>>)
      requires Valid()
      modifies this
      ensures Valid()
      ensures h == SelectHandler(old(state), ev)
      ensures state == if outcome.Some? then UpdateState(old(state), outcome.value) else old(state)
      ensures Transition(h, ev, ledgerFriends, selfId, ledgerOk, outcome)
      ensures timeoutJob == NextTimeoutJob(old(timeoutJob), ev, outcome)
    {
      h := SelectHandler(state, ev);
      match h {
        case SettleExpenseHandler =>
          outcome := RunSettleExpense(ev, ledgerFriends, selfId, ledgerOk);
        case SettleWithFriendHandler =>
          outcome := RunSettleWithFriend(ev, ledgerFriends, selfId, ledgerOk);
        case CreateSettlementHandler =>
          outcome := RunCreateSettlement(ev, ledgerFriends, selfId, ledgerOk);
        case CancelSettlementHandler =>
          outcome := RunCancelSettlement(ev, ledgerFriends, selfId, ledgerOk);
        case NoHandler =>
          outcome := None;
      }
      timeoutJob := NextTimeoutJob(timeoutJob, ev, outcome);
    }

    // One step per handler: run it, then enter the state it returns.

    method RunSettleExpense(ev: Event, ledgerFriends: seq<Friend>, selfId: int, ledgerOk: bool)
      returns (outcome: Option<Outcome<State>>)
      requires Valid()
      modifies this`state, this`chatData, this`ledgerCalls, this`replies
      ensures Valid() && outcome.Some? && state == UpdateState(old(state), outcome.value)
      ensures Transition(SettleExpenseHandler, ev, ledgerFriends, selfId, ledgerOk, outcome)
    {
      var o := SettleExpense(ledgerFriends);
      state := UpdateState(state, o);
      outcome := Some(o);
    }

    method RunSettleWithFriend(ev: Event, ledgerFriends: seq<Friend>, selfId: int, ledgerOk: bool)
      returns (outcome: Option<Outcome<State>>)
      requires Valid() && ev.Callback?
      modifies this`state, this`chatData, this`ledgerCalls, this`replies
      ensures Valid() && outcome.Some? && state == UpdateState(old(state), outcome.value)
      ensures Transition(SettleWithFriendHandler, ev, ledgerFriends, selfId, ledgerOk, outcome)
    {
      var o := SettleWithFriend(ev.data, ledgerFriends);
      state := UpdateState(state, o);
      outcome := Some(o);
    }

    method RunCreateSettlement(ev: Event, ledgerFriends: seq<Friend>, selfId: int, ledgerOk: bool)
      returns (outcome: Option<Outcome<State>>)
      requires Valid() && state == Some(ConfirmState)
      modifies this`state, this`chatData, this`ledgerCalls, this`replies
      ensures Valid() && outcome.Some? && state == UpdateState(old(state), outcome.value)
      ensures Transition(CreateSettlementHandler, ev, ledgerFriends, selfId, ledgerOk, outcome)
    {
      var o := CreateSettlement(selfId, ledgerOk);
      state := UpdateState(state, o);
      outcome := Some(o);
    }

    method RunCancelSettlement(ev: Event, ledgerFriends: seq<Friend>, selfId: int, ledgerOk: bool)
      returns (outcome: Option<Outcome<State>>)
      requires Valid()
      modifies this`state, this`chatData, this`ledgerCalls, this`replies
      ensures Valid() && outcome.Some? && state == UpdateState(old(state), outcome.value)
      ensures Transition(CancelSettlementHandler, ev, ledgerFriends, selfId, ledgerOk, outcome)
    {
      var o := CancelSettlement(ev);
      state := UpdateState(state, o);
      outcome := Some(o);
    }

    /**
     * `seconds` pass. A pending timeout job ages, and once it is
     * ConversationTimeout seconds old it fires and the conversation ends.
     * Without a pending job, as after a handler raised, nothing times out.
     */
    method Idle(seconds: nat)
      requires Valid()
      modifies this`state, this`timeoutJob
      ensures Valid()
      ensures match old(timeoutJob)
              case None => state == old(state) && timeoutJob == None
              case Some(job) =>
                if job.age + seconds >= ConversationTimeout then state == None && timeoutJob == None
                else state == old(state) && timeoutJob == Some(job.(age := job.age + seconds))
    {
      match timeoutJob
      case None =>
      case Some(job) =>
        if job.age + seconds >= ConversationTimeout {
          state := None;
          timeoutJob := None;
        } else {
          timeoutJob := Some(job.(age := job.age + seconds));
        }
    }
  }

  /** Pressing B's button with A and B on the ledger selects B's name, the 75 owed, and B's id. */
  lemma ScenarioChoice()
    ensures ChooseFriend(IdData(2), [FriendA, FriendB]) == Ok(Selection("B B", 75, 2))
  {
    var both := [FriendA, FriendB];
    assert both[1..] == [FriendB] && [FriendB][1..] == [];
    assert FriendsWithExpenses(both) == both;
    assert LookupFriend(both, 2) == Some(FriendB);
    assert FullName(FriendB) == "B B";
  }

  /**
   * A walk-through of the bot.py conversation, with A owing the user 150 and
   * the user owing B 75. First, /settle_expense shows the grid and waits in
   * SETTLE_WITH.
   */
  method ConversationStart() returns (c: SettleConversation)
    ensures fresh(c) && c.Valid()
    ensures c.state == Some(SettleWithState) && c.chatData == map[] && c.ledgerCalls == []
    ensures |c.replies| == 1 && c.replies[0].text == "Settle with"
    ensures c.timeoutJob == Some(TimeoutJob(0, Command(SettleCommand)))
  {
    c := new SettleConversation(map[]);
    var h, o := c.Handle(Command(SettleCommand), [FriendA, FriendB], 7, true);
  }

  /**
   * A press with an id no friend has raises KeyError. That removes the
   * pending timeout job, so the conversation stays in SETTLE_WITH however
   * long it is then left alone.
   */
  method StalePressNeverTimesOut() returns (c: SettleConversation)
    ensures fresh(c) && c.Valid() && c.state == Some(SettleWithState) && c.timeoutJob == None
    ensures c.chatData == map[] && c.ledgerCalls == [] && |c.replies| == 1
  {
    c := ConversationStart();
    StaleChoice();
    var h, o := c.Handle(Callback(IdData(99)), [FriendA, FriendB], 7, true);
    c.Idle(ConversationTimeout);
  }

  /** With A and B on the ledger, a press with id 99 raises KeyError. */
  lemma StaleChoice()
    ensures ChooseFriend(IdData(99), [FriendA, FriendB]) == Err(KeyError)
  {
    var both := [FriendA, FriendB];
    assert both[1..] == [FriendB] && [FriendB][1..] == [];
    assert FriendsWithExpenses(both) == both;
    assert LookupFriend(both, 99) == None;
  }

  /** Second, pressing B records B's selection, asks to confirm, and moves to CONFIRM. */
  method ConversationPick(c: SettleConversation)
    requires c.Valid() && c.state == Some(SettleWithState)
    modifies c
    ensures c.Valid() && c.state == Some(ConfirmState)
    ensures c.chatData == old(c.chatData)[SettleWithFriendKey := Selection("B B", 75, 2)]
    ensures c.replies == old(c.replies) + [Edit(ConfirmText("B B", 75), YesNoKeyboard)]
    ensures c.ledgerCalls == old(c.ledgerCalls)
  {
    ScenarioChoice();
    var h, o := c.Handle(Callback(IdData(2)), [FriendA, FriendB], 7, true);
  }

  /** Then "no" answers with the notice, makes no ledger call, and the conversation stays in CONFIRM. */
  method ConversationDecline(c: SettleConversation)
    requires c.Valid() && c.state == Some(ConfirmState)
    modifies c
    ensures c.Valid() && c.state == Some(ConfirmState)
    ensures c.replies == old(c.replies) + [Edit(CancelText, [])]
    ensures c.ledgerCalls == old(c.ledgerCalls) && c.chatData == old(c.chatData)
  {
    var h, o := c.Handle(Callback(Word("no")), [FriendA, FriendB], 7, true);
  }

  /** "yes" pressed after that still settles: one expense of 75 from the user to B. */
  method ConversationScenario() returns (c: SettleConversation)
    ensures fresh(c) && c.state == Some(ConfirmState)
    ensures c.ledgerCalls == [CreateExpense(SettlementExpense(7, 2, 75))]
    ensures |c.replies| == 4 && c.replies[2] == Edit(CancelText, []) && c.replies[3] == Edit("Expense settled!", [])
  {
    c := ConversationStart();
    ConversationPick(c);
    ConversationDecline(c);
    var h, o := c.Handle(Callback(Word("yes")), [FriendA, FriendB], 7, true);
  }
}
