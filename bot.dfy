/** The two-step conversation of the expense bot (bot.py).

    A text message that holds an amount is parsed and parked as the user's
    pending entry, and the bot answers with one button per category. Pressing
    a button takes the user's pending entry out of the table and appends one
    row [timestamp, amount, category, note] to the expense sheet.

    The Telegram transport is reduced to the replies the handlers send, given
    back as values; the Google sheet is the sequence of rows `append_row` has
    written; the clock is a parameter. */
module ExpenseBot {
  import opened ExpenseParser

  /** Telegram's numeric user id. */
  type UserId = int

  /** A parsed expense waiting for its category. */
  datatype Entry = Entry(amount: string, note: string)

  /** One row of the sheet, in its column order. */
  datatype Row = Row(timestamp: string, amount: string, category: string, note: string)

  /** An inline keyboard button: the text shown and the callback data sent
      back when it is pressed. */
  datatype Button = Button(text: string, callbackData: string)

  /** What a handler sends back: `reply_text` without a keyboard, `reply_text`
      with an inline keyboard, or `edit_message_text` on the prompt. */
  datatype Reply =
    | Text(text: string)
    | Prompt(text: string, keyboard: seq<seq<Button>>)
    | Edit(text: string)

  const Categories: seq<string> := ["Food", "Travel", "Rent", "Investment", "Lending", "Misc"]

  const UsageHint: string := "Send expense in format: " + [Rupee] + "250 Coffee"

  const NoPendingEntry: string := "No expense found to categorize."

  /** The prompt's caption: the amount right after the rupee sign, then
      " - ", the note and a closing colon. It can never be taken for the usage
      hint. */
  function PromptText(amount: string, note: string): (r: string)
    ensures |r| == |amount| + |note| + 27
    ensures r[..23] == "Choose a category for " + [Rupee]
    ensures r[23..23 + |amount|] == amount
    ensures r[23 + |amount|..] == " - " + note + ":"
    ensures r != UsageHint
  {
    var r := "Choose a category for " + [Rupee] + amount + " - " + note + ":";
    assert r[0] == 'C' && UsageHint[0] == 'S';
    r
  }

  /** The confirmation: the amount right after the rupee sign, then the
      category and the note, each after " - ". It can never be taken for the
      "nothing to categorize" notice. */
  function SavedText(amount: string, category: string, note: string): (r: string)
    ensures |r| == |amount| + |category| + |note| + 14
    ensures r[..8] == "Saved: " + [Rupee]
    ensures r[8..8 + |amount|] == amount
    ensures r[8 + |amount|..] == " - " + category + " - " + note
    ensures r != NoPendingEntry
  {
    var r := "Saved: " + [Rupee] + amount + " - " + category + " - " + note;
    assert r[0] == 'S' && NoPendingEntry[0] == 'N';
    r
  }

  /** One row per category, in the order of `Categories`, each holding a
      single button whose callback data is its own text. */
  function CategoryKeyboard(): (kb: seq<seq<Button>>)
    ensures |kb| == |Categories|
    ensures forall i | 0 <= i < |kb| ::
              |kb[i]| == 1 && kb[i][0].text == Categories[i] && kb[i][0].callbackData == kb[i][0].text
  {
    seq(|Categories|, i requires 0 <= i < |Categories| => [Button(Categories[i], Categories[i])])
  }

  /** Some button of the keyboard sends `data` when pressed. */
  ghost predicate Pressable(kb: seq<seq<Button>>, data: string) {
    exists i, j | 0 <= i < |kb| && 0 <= j < |kb[i]| :: kb[i][j].callbackData == data
  }

  /** The prompt lets the user send back exactly the category names. */
  lemma PressableIffCategory(data: string)
    ensures Pressable(CategoryKeyboard(), data) <==> data in Categories
  {
    var kb: seq<seq<Button>> := CategoryKeyboard();
    if data in Categories {
      var i :| 0 <= i < |Categories| && Categories[i] == data;
      assert kb[i][0].callbackData == data;
    }
  }

  // ---------------------------------------------------------------------
  // The handlers as transitions on the bot's state.
  // ---------------------------------------------------------------------

  /** `pending_entries` and the rows of the sheet. */
  datatype State = State(pending: map<UserId, Entry>, sheet: seq<Row>)

  /** A handler's effect: the state after it and the reply it sent. */
  datatype Step = Step(next: State, reply: Reply)

  /** `handle_message`: a text with an amount replaces the sender's pending
      entry and gets the category prompt; any other text gets the usage hint
      and changes nothing. */
  function OnMessage(s: State, user: UserId, text: string): (t: Step)
    ensures t.next.sheet == s.sheet
    ensures t.next.pending - {user} == s.pending - {user}
    ensures NoDigit(text) <==> t == Step(s, Text(UsageHint))
    ensures !NoDigit(text) ==>
              var p := ParseExpense(text);
              && user in t.next.pending && t.next.pending[user] == Entry(p.amount, p.note)
              && t.reply == Prompt(PromptText(p.amount, p.note), CategoryKeyboard())
  {
    var p := ParseExpense(text);
    if p.NotAnExpense? then Step(s, Text(UsageHint))
    else
      Step(State(s.pending[user := Entry(p.amount, p.note)], s.sheet),
           Prompt(PromptText(p.amount, p.note), CategoryKeyboard()))
  }

  /** `handle_category`: the sender's pending entry, if any, leaves the table
      and becomes exactly one new row with the pressed category; without one
      nothing changes. The category is the callback data as received. */
  function OnCategory(s: State, user: UserId, data: string, timestamp: string): (t: Step)
    ensures t.next.pending == s.pending - {user}
    ensures user in s.pending ==>
              var e := s.pending[user];
              && t.next.sheet == s.sheet + [Row(timestamp, e.amount, data, e.note)]
              && t.reply == Edit(SavedText(e.amount, data, e.note))
    ensures user !in s.pending ==> t == Step(s, Edit(NoPendingEntry))
  {
    if user in s.pending then
      var e := s.pending[user];
      Step(State(s.pending - {user}, s.sheet + [Row(timestamp, e.amount, data, e.note)]),
           Edit(SavedText(e.amount, data, e.note)))
    else
      Step(s, Edit(NoPendingEntry))
  }

  /** A parked entry or a written row holds what the parser can produce: an
      amount of digits and a non-empty note on one line. */
  ghost predicate WellFormed(amount: string, note: string) {
    && amount != [] && AllDigits(amount)
    && note != [] && OneLine(note)
  }

  ghost predicate Consistent(s: State) {
    && (forall u | u in s.pending :: WellFormed(s.pending[u].amount, s.pending[u].note))
    && (forall i | 0 <= i < |s.sheet| :: WellFormed(s.sheet[i].amount, s.sheet[i].note))
  }

  lemma OnMessageKeepsConsistent(s: State, user: UserId, text: string)
    requires Consistent(s)
    ensures Consistent(OnMessage(s, user, text).next)
  {
  }

  lemma OnCategoryKeepsConsistent(s: State, user: UserId, data: string, timestamp: string)
    requires Consistent(s)
    ensures Consistent(OnCategory(s, user, data, timestamp).next)
  {
    var t := OnCategory(s, user, data, timestamp);
    if user in s.pending {
      assert WellFormed(s.pending[user].amount, s.pending[user].note);
      forall i | 0 <= i < |t.next.sheet|
        ensures WellFormed(t.next.sheet[i].amount, t.next.sheet[i].note)
      {
        if i < |s.sheet| { assert t.next.sheet[i] == s.sheet[i]; }
      }
    }
  }

  /** A second message before the button press replaces the first: the row
      written is the second message's expense. */
  lemma SecondMessageWins(s: State, user: UserId, first: string, second: string,
                          data: string, timestamp: string)
    requires !NoDigit(second)
    ensures var s1 := OnMessage(s, user, first).next;
            var s2 := OnMessage(s1, user, second).next;
            var p := ParseExpense(second);
            OnCategory(s2, user, data, timestamp).next.sheet
              == s.sheet + [Row(timestamp, p.amount, data, p.note)]
  {
    var s1 := OnMessage(s, user, first).next;
    var s2 := OnMessage(s1, user, second).next;
    assert s1.sheet == s.sheet;
    assert s2.sheet == s.sheet;
  }

  /** Pressing a button again after the entry was saved writes nothing more:
      the first press removed the entry, so the second finds none. */
  lemma ReplayedChoiceWritesNothing(s: State, user: UserId, data: string, timestamp: string,
                                    data': string, timestamp': string)
    ensures var s1 := OnCategory(s, user, data, timestamp).next;
            OnCategory(s1, user, data', timestamp') == Step(s1, Edit(NoPendingEntry))
  {
  }

  /** A saved entry moves from the table to the sheet: one entry fewer, one
      row more. */
  lemma ChoiceMovesEntryToSheet(s: State, user: UserId, data: string, timestamp: string)
    requires user in s.pending
    ensures var t := OnCategory(s, user, data, timestamp).next;
            |t.pending| + 1 == |s.pending| && |t.sheet| == |s.sheet| + 1
  {
    var t := OnCategory(s, user, data, timestamp).next;
    assert t.pending.Keys == s.pending.Keys - {user};
  }

  // ---------------------------------------------------------------------
  // Runs: the handlers applied to a sequence of updates in arrival order.
  // ---------------------------------------------------------------------

  /** An update the bot handles: a text message or a button press. */
  datatype Update =
    | Message(user: UserId, text: string)
    | Choice(user: UserId, data: string, timestamp: string)

  function Handle(s: State, u: Update): Step {
    match u
    case Message(user, text) => OnMessage(s, user, text)
    case Choice(user, data, timestamp) => OnCategory(s, user, data, timestamp)
  }

  /** The state after handling `us` one at a time, starting from `s`. The
      sheet is append-only: every run keeps the rows it started with. */
  function Run(s: State, us: seq<Update>): (r: State)
    ensures |s.sheet| <= |r.sheet| && r.sheet[..|s.sheet|] == s.sheet
    decreases |us|
  {
    if us == [] then s else Handle(Run(s, us[..|us| - 1]), us[|us| - 1]).next
  }

  /** How many updates are messages with an amount. */
  function Expenses(us: seq<Update>): nat
    decreases |us|
  {
    if us == [] then 0
    else Expenses(us[..|us| - 1]) + (if us[|us| - 1].Message? && !NoDigit(us[|us| - 1].text) then 1 else 0)
  }

  /** How many updates are button presses. */
  function Choices(us: seq<Update>): nat
    decreases |us|
  {
    if us == [] then 0
    else Choices(us[..|us| - 1]) + (if us[|us| - 1].Choice? then 1 else 0)
  }

  /** The rows a run adds. */
  function NewRows(s: State, us: seq<Update>): seq<Row> {
    Run(s, us).sheet[|s.sheet|..]
  }

  /** Every run keeps the state consistent. */
  lemma {:induction false} RunKeepsConsistent(s: State, us: seq<Update>)
    requires Consistent(s)
    ensures Consistent(Run(s, us))
    decreases |us|
  {
    if us != [] {
      var before := Run(s, us[..|us| - 1]);
      RunKeepsConsistent(s, us[..|us| - 1]);
      match us[|us| - 1]
      case Message(user, text) => OnMessageKeepsConsistent(before, user, text);
      case Choice(user, data, timestamp) => OnCategoryKeepsConsistent(before, user, data, timestamp);
    }
  }

  /** No row without an expense message: starting with no pending entries,
      the rows written plus the entries still pending never outnumber the
      messages that held an amount, and the rows never outnumber the presses. */
  lemma {:induction false} RowsNeedMessagesAndChoices(s: State, us: seq<Update>)
    requires s.pending == map[]
    ensures var r := Run(s, us);
            && |r.sheet| - |s.sheet| + |r.pending| <= Expenses(us)
            && |r.sheet| - |s.sheet| <= Choices(us)
    decreases |us|
  {
    if us != [] {
      var init := us[..|us| - 1];
      var before := Run(s, init);
      RowsNeedMessagesAndChoices(s, init);
      match us[|us| - 1]
      case Message(user, text) =>
        var after := OnMessage(before, user, text).next;
        if !NoDigit(text) {
          assert after.pending.Keys == before.pending.Keys + {user};
        }
      case Choice(user, data, timestamp) =>
        if user in before.pending {
          ChoiceMovesEntryToSheet(before, user, data, timestamp);
        }
    }
  }

  /** Every button press in `us` sends one of the categories, as presses of
      the prompt's buttons do. */
  ghost predicate PressesFromPrompt(us: seq<Update>) {
    forall i | 0 <= i < |us| && us[i].Choice? :: Pressable(CategoryKeyboard(), us[i].data)
  }

  /** When the presses come from the prompt's buttons, every row written has
      one of the categories. The handler itself does not check this: a
      callback carrying any other data is written to the sheet as it is. */
  lemma {:induction false} RowsUseOfferedCategories(s: State, us: seq<Update>)
    requires PressesFromPrompt(us)
    ensures forall i | 0 <= i < |NewRows(s, us)| :: NewRows(s, us)[i].category in Categories
    decreases |us|
  {
    if us != [] {
      var init := us[..|us| - 1];
      var before := Run(s, init);
      var after := Run(s, us);
      assert PressesFromPrompt(init) by {
        forall i | 0 <= i < |init| && init[i].Choice?
          ensures Pressable(CategoryKeyboard(), init[i].data)
        {
          assert init[i] == us[i];
        }
      }
      RowsUseOfferedCategories(s, init);
      var last := us[|us| - 1];
      forall i | 0 <= i < |NewRows(s, us)| ensures NewRows(s, us)[i].category in Categories {
        var k := |s.sheet| + i;
        assert NewRows(s, us)[i] == after.sheet[k];
        if k < |before.sheet| {
          assert after.sheet[k] == before.sheet[k] by {
            match last
            case Message(user, text) =>
            case Choice(user, data, timestamp) =>
          }
          assert before.sheet[k] == NewRows(s, init)[i];
        } else {
          assert last.Choice?;
          PressableIffCategory(last.data);
        }
      }
    }
  }

  /** Some message among the updates parses to exactly this amount and note. */
  ghost predicate SentEarlier(us: seq<Update>, amount: string, note: string) {
    exists i | 0 <= i < |us| :: us[i].Message? && ParseExpense(us[i].text) == Expense(amount, note)
  }

  /** Every pending entry, and every row from index `from` on, holds an
      amount and note that some message among `us` parsed to. */
  ghost predicate Traced(r: State, from: nat, us: seq<Update>) {
    && (forall u | u in r.pending :: SentEarlier(us, r.pending[u].amount, r.pending[u].note))
    && (forall i | from <= i < |r.sheet| :: SentEarlier(us, r.sheet[i].amount, r.sheet[i].note))
  }

  /** Handling one more update keeps every entry and row traced to a message. */
  lemma HandleKeepsTraced(r: State, from: nat, us: seq<Update>, u: Update)
    requires from <= |r.sheet| && Traced(r, from, us)
    ensures Traced(Handle(r, u).next, from, us + [u])
  {
    var after := Handle(r, u).next;
    var all := us + [u];
    forall v | v in r.pending ensures SentEarlier(all, r.pending[v].amount, r.pending[v].note) {
      SentEarlierExtends(us, u, r.pending[v].amount, r.pending[v].note);
    }
    forall i | from <= i < |r.sheet| ensures SentEarlier(all, r.sheet[i].amount, r.sheet[i].note) {
      SentEarlierExtends(us, u, r.sheet[i].amount, r.sheet[i].note);
    }
    match u
    case Message(user, text) =>
      if !NoDigit(text) {
        var p := ParseExpense(text);
        assert all[|us|] == u;
        assert SentEarlier(all, p.amount, p.note);
        forall v | v in after.pending ensures SentEarlier(all, after.pending[v].amount, after.pending[v].note) {
          if v != user { assert after.pending[v] == r.pending[v]; }
        }
      }
    case Choice(user, data, timestamp) =>
      forall i | from <= i < |after.sheet| ensures SentEarlier(all, after.sheet[i].amount, after.sheet[i].note) {
        if i < |r.sheet| { assert after.sheet[i] == r.sheet[i]; }
      }
  }

  /** Nothing is made up: starting with no pending entries, every pending
      entry and every row written holds the amount and note parsed from a
      message the bot received. */
  lemma {:induction false} RowsComeFromMessages(s: State, us: seq<Update>)
    requires s.pending == map[]
    ensures Traced(Run(s, us), |s.sheet|, us)
    decreases |us|
  {
    if us != [] {
      var init := us[..|us| - 1];
      RowsComeFromMessages(s, init);
      HandleKeepsTraced(Run(s, init), |s.sheet|, init, us[|us| - 1]);
      assert init + [us[|us| - 1]] == us;
    }
  }

  lemma SentEarlierExtends(us: seq<Update>, u: Update, amount: string, note: string)
    requires SentEarlier(us, amount, note)
    ensures SentEarlier(us + [u], amount, note)
  {
    var i :| 0 <= i < |us| && us[i].Message? && ParseExpense(us[i].text) == Expense(amount, note);
    assert (us + [u])[i] == us[i];
  }

  /** The worked example from the usage hint: "₹250 Coffee", then "Food". */
  lemma CoffeeScenario(user: UserId, timestamp: string)
    ensures var t1 := OnMessage(State(map[], []), user, [Rupee] + "250 Coffee");
            var t2 := OnCategory(t1.next, user, "Food", timestamp);
            && t1.reply == Prompt(PromptText("250", "Coffee"), CategoryKeyboard())
            && t2.next == State(map[], [Row(timestamp, "250", "Food", "Coffee")])
            && t2.reply == Edit(SavedText("250", "Food", "Coffee"))
  {
    ExampleRupeeCoffee();
  }

  // ---------------------------------------------------------------------
  // The bot as an object: `pending_entries` updated in place, the sheet
  // appended to.
  // ---------------------------------------------------------------------

  class Bot {
    var pending: map<UserId, Entry>
    var sheet: seq<Row>

    function Snapshot(): State
      reads this
    {
      State(pending, sheet)
    }

    ghost predicate Valid()
      reads this
    {
      Consistent(Snapshot())
    }

    constructor ()
      ensures Snapshot() == State(map[], [])
      ensures Valid()
    {
      pending := map[];
      sheet := [];
    }

    method HandleMessage(user: UserId, text: string) returns (reply: Reply)
      requires Valid()
      modifies this
      ensures Step(Snapshot(), reply) == OnMessage(old(Snapshot()), user, text)
      ensures Valid()
    {
      var parsed := ParseExpense(text);
      if parsed.Expense? {
        pending := pending[user := Entry(parsed.amount, parsed.note)];
        reply := Prompt(PromptText(parsed.amount, parsed.note), CategoryKeyboard());
      } else {
        reply := Text(UsageHint);
      }
      OnMessageKeepsConsistent(old(Snapshot()), user, text);
    }

    /** The entry is popped before the row is appended. */
    method HandleCategory(user: UserId, data: string, timestamp: string) returns (reply: Reply)
      requires Valid()
      modifies this
      ensures Step(Snapshot(), reply) == OnCategory(old(Snapshot()), user, data, timestamp)
      ensures Valid()
    {
      if user in pending {
        var entry := pending[user];
        pending := pending - {user};
        sheet := sheet + [Row(timestamp, entry.amount, data, entry.note)];
        reply := Edit(SavedText(entry.amount, data, entry.note));
      } else {
        reply := Edit(NoPendingEntry);
      }
      OnCategoryKeepsConsistent(old(Snapshot()), user, data, timestamp);
    }
  }
}
