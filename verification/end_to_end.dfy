/**
 How the three pieces meet. The chat input hands its trimmed text to the
 page; the page sends `{message: text, userId: user.id}` to the edge
 function through `supabase.functions.invoke`, which reports a status
 outside 2xx as an error and otherwise hands back the reply body.
 */
module EndToEnd {
  import opened Wrappers
  import ChatInput
  import Page
  import PT = ProcessTransaction

  /** The message supabase-js gives a response with a status outside 2xx. */
  const NonSuccessStatus := "Edge Function returned a non-2xx status code"

  /** The request body the page sends for a text. */
  function RequestOf(text: string, userId: string): PT.RequestBody
  {
    PT.Fields(Some(text), Some(userId))
  }

  /** `supabase.functions.invoke` applied to a handler response. The handler
      pairs every 2xx status with a reply body (see `Handle`), so the last
      case arises only for responses the handler never gives. */
  function InvokeOf(r: PT.Response): (o: Page.InvokeOutcome)
    ensures o.InvokeData? <==> PT.IsOk(r.status) && r.body.ReplyBody?
    ensures o.InvokeData? ==> o.message == r.body.message && o.isTransaction == r.body.isTransaction
  {
    if PT.IsOk(r.status) && r.body.ReplyBody? then Page.InvokeData(r.body.message, r.body.isTransaction)
    else Page.InvokeError(NonSuccessStatus)
  }

  /** Text that the chat input lets through never draws the 400 answer:
      the trimmed text is non-empty, so only a missing user id could. */
  lemma SentTextPassesValidation(buffer: string, disabled: bool, userId: string, env: PT.Env, ai: PT.AiOutcome, ins: PT.InsertOutcome)
    requires ChatInput.HandleSend(buffer, disabled).sent.Some? && userId != ""
    ensures PT.Handle(RequestOf(ChatInput.HandleSend(buffer, disabled).sent.value, userId), env, ai, ins).response.status != 400
  {
  }

  /** While a send is in flight the input is disabled, so a second send
      cannot start: sends are sequential. */
  lemma NoSendWhileLoading(s: Page.State, text: string, buffer: string)
    ensures ChatInput.HandleSend(buffer, Page.BeginSend(s, text).loading).sent.None?
  {
  }

  /** The page re-fetches after a send exactly when the handler inserted a
      row, the insert succeeded and its amount could be formatted. */
  lemma RefetchIffSaved(s: Page.State, text: string, env: PT.Env, ai: PT.AiOutcome, ins: PT.InsertOutcome)
    requires s.user.Some?
    ensures var run := PT.Handle(RequestOf(text, s.user.value), env, ai, ins);
      Page.Refetches(InvokeOf(run.response))
      <==> (run.insert.Some? && ins.Inserted? && run.insert.value.amount.Number?)
  {
    PT.TransactionIffInserted(RequestOf(text, s.user.value), env, ai, ins);
  }

  /** Every error answer of the handler (400, 402, 429, 500) shows the page's
      apology, with no transaction flag and no change to the ledger. */
  lemma ErrorAnswersShowApology(s: Page.State, text: string, env: PT.Env, ai: PT.AiOutcome, ins: PT.InsertOutcome, refetch: Page.FetchOutcome)
    requires s.user.Some?
    requires PT.Handle(RequestOf(text, s.user.value), env, ai, ins).response.status != 200
    ensures var o := InvokeOf(PT.Handle(RequestOf(text, s.user.value), env, ai, ins).response);
      var t := Page.HandleSendMessage(s, text, o, refetch);
      && t.messages == s.messages + [Page.Message(text, true, None), Page.Message(Page.Apology, false, None)]
      && t.transactions == s.transactions
      && t.totalIncome == s.totalIncome && t.totalExpense == s.totalExpense
  {
  }
}
