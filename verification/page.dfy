/**
 The state of the main page: the signed-in user, the chat log, the fetched
 transactions with their income and expense totals, and the loading flag.
 Fetching and sending are transitions from one state to the next; the
 results of the store query and of the edge-function call are inputs.
 */
module Page {
  import opened Wrappers
  import Ledger

  const Apology := "Desculpe, houve um erro ao processar sua mensagem. Tente novamente."

  /** A chat bubble. User messages and the apology carry no transaction flag. */
  datatype Message = Message(text: string, isUser: bool, isTransaction: Option<bool>)

  datatype State = State(
    user: Option<string>,
    messages: seq<Message>,
    transactions: seq<Ledger.Row>,
    loading: bool,
    totalIncome: int,
    totalExpense: int)

  /** The state when the page first renders for `user`. */
  function Initial(user: Option<string>): (s: State)
    ensures Consistent(s) && !s.loading && s.messages == []
    ensures s.user == user && s.transactions == [] && s.totalIncome == 0 && s.totalExpense == 0
  {
    State(user, [], [], false, 0, 0)
  }

  /** The balance the summary card shows. */
  function Balance(s: State): (b: int)
    ensures Consistent(s) ==> b == Ledger.TotalIncome(s.transactions) - Ledger.TotalExpense(s.transactions)
  {
    s.totalIncome - s.totalExpense
  }

  /** The totals agree with the transaction list. */
  predicate Consistent(s: State)
  {
    s.totalIncome == Ledger.TotalIncome(s.transactions) && s.totalExpense == Ledger.TotalExpense(s.transactions)
  }

  /** What the transactions query returned: an error, or data that may be `null`. */
  datatype FetchOutcome = FetchError | Fetched(data: Option<seq<Ledger.Row>>)

  /** `fetchTransactions`: with no user, or when the query fails, nothing
      changes; otherwise the list becomes the returned rows (none for a
      `null` result) and the totals are recomputed from them. */
  function FetchTransactions(s: State, f: FetchOutcome): (t: State)
    ensures s.user.None? || f.FetchError? ==> t == s
    ensures s.user.Some? && f.Fetched? ==>
      && t.transactions == (if f.data.Some? then f.data.value else [])
      && Consistent(t)
    ensures t.user == s.user && t.messages == s.messages && t.loading == s.loading
    ensures Consistent(s) ==> Consistent(t)
  {
    if s.user.None? then s
    else
      match f
      case FetchError => s
      case Fetched(data) =>
        var rows := if data.Some? then data.value else [];
        var income := if data.Some? then Ledger.TotalIncome(data.value) else 0;
        var expense := if data.Some? then Ledger.TotalExpense(data.value) else 0;
        s.(transactions := rows, totalIncome := income, totalExpense := expense)
  }

  /** What `supabase.functions.invoke` gave back: an error (thrown at once),
      or the reply body's `message` and `isTransaction`. */
  datatype InvokeOutcome = InvokeError(error: string) | InvokeData(message: string, isTransaction: bool)

  /** The reply is a transaction confirmation, which triggers a re-fetch. */
  predicate Refetches(o: InvokeOutcome)
  {
    o.InvokeData? && o.isTransaction
  }

  /** The assistant bubble appended for an outcome. */
  function Reply(o: InvokeOutcome): (m: Message)
    ensures !m.isUser
    ensures o.InvokeError? ==> m.text == Apology && m.isTransaction.None?
    ensures o.InvokeData? ==> m.text == o.message && m.isTransaction == Some(o.isTransaction)
  {
    match o
    case InvokeError(_) => Message(Apology, false, None)
    case InvokeData(text, isTransaction) => Message(text, false, Some(isTransaction))
  }

  /** The first half of `handleSendMessage`: the user's bubble is appended
      and the page starts loading. */
  function BeginSend(s: State, text: string): (t: State)
    ensures t.loading
    ensures t.messages == s.messages + [Message(text, true, None)]
    ensures t.user == s.user && t.transactions == s.transactions
    ensures t.totalIncome == s.totalIncome && t.totalExpense == s.totalExpense
  {
    s.(messages := s.messages + [Message(text, true, None)], loading := true)
  }

  /** The second half: the reply bubble is appended, a confirmation triggers
      a re-fetch, and loading ends on every path. */
  function FinishSend(s: State, o: InvokeOutcome, refetch: FetchOutcome): (t: State)
    ensures !t.loading
    ensures t.messages == s.messages + [Reply(o)]
    ensures t.user == s.user
  {
    var s1 := s.(messages := s.messages + [Reply(o)]);
    var s2 := if Refetches(o) then FetchTransactions(s1, refetch) else s1;
    s2.(loading := false)
  }

  /** `handleSendMessage`. With no user it does nothing. Otherwise the log
      grows by the user's message and exactly one reply, loading ends false,
      and the ledger changes only through a re-fetch after a confirmation. */
  function HandleSendMessage(s: State, text: string, o: InvokeOutcome, refetch: FetchOutcome): (t: State)
    ensures s.user.None? ==> t == s
    ensures s.user.Some? ==> t.messages == s.messages + [Message(text, true, None), Reply(o)]
    ensures s.user.Some? ==> !t.loading
    ensures t.user == s.user
    ensures !Refetches(o) ==>
      t.transactions == s.transactions && t.totalIncome == s.totalIncome && t.totalExpense == s.totalExpense
    ensures Consistent(s) ==> Consistent(t)
  {
    if s.user.None? then s
    else FinishSend(BeginSend(s, text), o, refetch)
  }

  /** After a confirmation, the ledger is exactly what a fetch would make of
      the state before the send. */
  lemma ConfirmationRefetches(s: State, text: string, o: InvokeOutcome, refetch: FetchOutcome)
    requires s.user.Some? && Refetches(o)
    ensures var t := HandleSendMessage(s, text, o, refetch);
      var f := FetchTransactions(s, refetch);
      t.transactions == f.transactions && t.totalIncome == f.totalIncome && t.totalExpense == f.totalExpense
  {
  }

  /** One send as the page sees it. */
  datatype Send = Send(text: string, outcome: InvokeOutcome, refetch: FetchOutcome)

  /** A conversation: sends handled one after another. */
  function Converse(s: State, sends: seq<Send>): (t: State)
    ensures t.user == s.user
    ensures s.user.Some? && |sends| > 0 ==> !t.loading
    decreases |sends|
  {
    if |sends| == 0 then s
    else
      var last := sends[|sends| - 1];
      HandleSendMessage(Converse(s, sends[..|sends| - 1]), last.text, last.outcome, last.refetch)
  }

  /** The bubbles a run of sends adds: each text, then its reply. */
  function Transcript(sends: seq<Send>): (r: seq<Message>)
    ensures |r| == 2 * |sends|
    ensures forall k :: 0 <= k < |sends| ==>
      r[2 * k] == Message(sends[k].text, true, None) && r[2 * k + 1] == Reply(sends[k].outcome)
    decreases |sends|
  {
    if |sends| == 0 then []
    else
      var init := sends[..|sends| - 1];
      var last := sends[|sends| - 1];
      var r := Transcript(init) + [Message(last.text, true, None), Reply(last.outcome)];
      assert forall k :: 0 <= k < |init| ==> sends[k] == init[k];
      r
  }

  /** Over any conversation the log only grows: the old log is followed by
      each send's text and then its reply, in order. */
  lemma {:induction false} ConverseAppendOnly(s: State, sends: seq<Send>)
    requires s.user.Some?
    ensures Converse(s, sends).messages == s.messages + Transcript(sends)
    decreases |sends|
  {
    if |sends| > 0 {
      var init := sends[..|sends| - 1];
      var last := sends[|sends| - 1];
      ConverseAppendOnly(s, init);
      var pair := [Message(last.text, true, None), Reply(last.outcome)];
      assert Converse(s, sends).messages == Converse(s, init).messages + pair;
      assert Transcript(sends) == Transcript(init) + pair;
      assert (s.messages + Transcript(init)) + pair == s.messages + (Transcript(init) + pair);
    }
  }

  /** Over any conversation the totals stay those of the listed rows, so the
      balance shown is always income minus expense of that list. */
  lemma {:induction false} ConverseConsistent(s: State, sends: seq<Send>)
    requires Consistent(s)
    ensures Consistent(Converse(s, sends))
    ensures Balance(Converse(s, sends))
         == Ledger.TotalIncome(Converse(s, sends).transactions) - Ledger.TotalExpense(Converse(s, sends).transactions)
    decreases |sends|
  {
    if |sends| > 0 {
      ConverseConsistent(s, sends[..|sends| - 1]);
    }
  }

  /** The balance can be negative: one expense and no income. */
  lemma BalanceMayBeNegative(uid: string, r: Ledger.Row)
    requires r.kind == Ledger.Expense && r.amount > 0
    ensures Balance(FetchTransactions(Initial(Some(uid)), Fetched(Some([r])))) < 0
  {
    Ledger.TotalSingle(r, Ledger.Income);
    Ledger.TotalSingle(r, Ledger.Expense);
  }
}
