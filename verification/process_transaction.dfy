/**
 The `process-transaction` edge function: validates the request, asks the AI
 gateway to classify the utterance, inserts the extracted transaction when
 the model called the `save_transaction` tool, and answers with a
 confirmation, the model's free text, or an error.

 Everything the handler waits on is an input here: the parsed request body,
 the environment, what the AI gateway answered and what the insert returned.
 `Handle` is then a pure function to the response, whether the gateway was
 called, and the row the handler asked the store to insert (if any).
 */
module ProcessTransaction {
  import opened Wrappers
  import opened Text
  import Ledger

  const MissingFieldsError := "Mensagem e userId são obrigatórios"
  const ApiKeyMissingError := "LOVABLE_API_KEY não configurada"
  const RateLimitError := "Limite de requisições excedido. Tente novamente mais tarde."
  const CreditsError := "Créditos insuficientes. Por favor, adicione créditos ao seu workspace."
  const AiError := "Erro ao processar com IA"
  const SaveError := "Erro ao salvar transação"
  const FallbackReply := "Desculpe, não entendi. Você pode descrever uma transação financeira?"
  const UnknownError := "Erro desconhecido"

  /** A value thrown inside the handler: an `Error` object or anything else. */
  datatype Thrown = ErrorObject(message: string) | OtherValue

  /** The text the catch-all reports for a thrown value. */
  function CaughtMessage(e: Thrown): string
  {
    match e
    case ErrorObject(m) => m
    case OtherValue => UnknownError
  }

  /** JavaScript truthiness of an optional string: present and non-empty. */
  predicate Truthy(v: Option<string>)
  {
    v.Some? && v.value != ""
  }

  /** The request body: `req.json()` either threw or gave the two fields. */
  datatype RequestBody = Unreadable(cause: Thrown) | Fields(message: Option<string>, userId: Option<string>)

  /** The deployment's secrets; only the gateway key is checked. */
  datatype Env = Env(apiKey: Option<string>)

  /** The `amount` argument: a number (in cents) or a value without `toFixed`. */
  datatype Amount = Number(cents: int) | NotNumber(toFixedError: Thrown)

  /** The tool arguments, taken as the model gave them; nothing is validated. */
  datatype ToolArgs = ToolArgs(kind: string, amount: Amount, category: string, description: string)

  /** A tool call; its `arguments` text either parses or `JSON.parse` throws. */
  datatype ToolCall = ToolCall(arguments: Result<ToolArgs, Thrown>)

  datatype AssistantMessage = AssistantMessage(toolCalls: Option<seq<ToolCall>>, content: Option<string>)

  datatype Choice = Choice(message: Option<AssistantMessage>)

  datatype Completion = Completion(choices: Option<seq<Choice>>)

  /** What the gateway call produced: `fetch` threw, or a response with a
      status and a body that `json()` either parsed or threw on. */
  datatype AiOutcome =
    | FetchFailed(cause: Thrown)
    | Replied(status: int, body: Result<Completion, Thrown>)

  /** The row the handler asks the store to insert. */
  datatype InsertRequest = InsertRequest(userId: string, kind: string, amount: Amount, category: string, description: string)

  /** What `insert(...).select().single()` returned. */
  datatype InsertOutcome = InsertFailed | Inserted(row: Ledger.Row)

  datatype Body =
    | ErrorBody(error: string)
    | ReplyBody(message: string, isTransaction: bool, transaction: Option<Ledger.Row>)

  datatype Response = Response(status: int, body: Body)

  /** One invocation: the response, whether the gateway was called, and the
      insert the handler issued. */
  datatype Run = Run(response: Response, aiCalled: bool, insert: Option<InsertRequest>)

  function Fail(status: int, error: string): Response
  {
    Response(status, ErrorBody(error))
  }

  /** `Response.ok`. */
  predicate IsOk(status: int)
  {
    200 <= status <= 299
  }

  /** The checks that pass before the gateway is called. */
  predicate ReachesAi(req: RequestBody, env: Env)
  {
    req.Fields? && Truthy(req.message) && Truthy(req.userId) && Truthy(env.apiKey)
  }

  /** The response for a gateway status that is not ok. */
  function UpstreamFailure(status: int): (r: Response)
    requires !IsOk(status)
    ensures r.body.ErrorBody?
    ensures r.status == 429 <==> status == 429
    ensures r.status == 402 <==> status == 402
    ensures status != 429 && status != 402 ==> r == Fail(500, AiError)
  {
    if status == 429 then Fail(429, RateLimitError)
    else if status == 402 then Fail(402, CreditsError)
    else Fail(500, AiError)
  }

  /** `aiResult.choices?.[0]?.message`. */
  function FirstMessage(c: Completion): Option<AssistantMessage>
  {
    match c.choices
    case Some(cs) => if |cs| > 0 then cs[0].message else None
    case None => None
  }

  /** The first tool call, when the message carries a non-empty list. */
  function FirstToolCall(m: Option<AssistantMessage>): Option<ToolCall>
  {
    match m
    case Some(msg) =>
      (match msg.toolCalls
       case Some(calls) => if |calls| > 0 then Some(calls[0]) else None
       case None => None)
    case None => None
  }

  /** `choice?.message?.content || <fallback>`. */
  function ReplyText(m: Option<AssistantMessage>): (text: string)
    ensures text != ""
  {
    match m
    case Some(msg) => if Truthy(msg.content) then msg.content.value else FallbackReply
    case None => FallbackReply
  }

  function ExpenseConfirmation(amount: string, category: string, description: string): string
  {
    "Registrado! Você gastou R$ " + amount + " em " + category + ". " + description
  }

  function IncomeConfirmation(amount: string, category: string, description: string): string
  {
    "Ótimo! Receita de R$ " + amount + " em " + category + " registrada. " + description
  }

  /** The confirmation text; `amount.toFixed(2)` throws when the amount is
      not a number. Any type other than "expense" reads as income. */
  function Confirmation(args: ToolArgs): (r: Result<string, Thrown>)
    ensures r.Failure? <==> args.amount.NotNumber?
  {
    match args.amount
    case NotNumber(e) => Failure(e)
    case Number(c) =>
      if args.kind == Ledger.Expense then Success(ExpenseConfirmation(FormatCents(c), args.category, args.description))
      else Success(IncomeConfirmation(FormatCents(c), args.category, args.description))
  }

  /** The tool-call branch: parse the first call's arguments, insert once,
      then confirm. */
  function SaveFirstCall(userId: string, call: ToolCall, ins: InsertOutcome): (run: Run)
    ensures run.aiCalled
    ensures run.insert.Some? <==> call.arguments.Success?
    ensures run.insert.Some? ==> run.insert.value.userId == userId
  {
    match call.arguments
    case Failure(e) => Run(Fail(500, CaughtMessage(e)), true, None)
    case Success(args) =>
      var row := InsertRequest(userId, args.kind, args.amount, args.category, args.description);
      match ins
      case InsertFailed => Run(Fail(500, SaveError), true, Some(row))
      case Inserted(data) =>
        match Confirmation(args)
        case Failure(e) => Run(Fail(500, CaughtMessage(e)), true, Some(row))
        case Success(text) => Run(Response(200, ReplyBody(text, true, Some(data))), true, Some(row))
  }

  /** Everything after the gateway was called. */
  function AfterAi(userId: string, ai: AiOutcome, ins: InsertOutcome): (run: Run)
    ensures run.aiCalled
  {
    match ai
    case FetchFailed(e) => Run(Fail(500, CaughtMessage(e)), true, None)
    case Replied(status, body) =>
      if !IsOk(status) then Run(UpstreamFailure(status), true, None)
      else
        match body
        case Failure(e) => Run(Fail(500, CaughtMessage(e)), true, None)
        case Success(completion) =>
          var m := FirstMessage(completion);
          match FirstToolCall(m)
          case Some(call) => SaveFirstCall(userId, call, ins)
          case None => Run(Response(200, ReplyBody(ReplyText(m), false, None)), true, None)
  }

  /** The handler body of the edge function (the `POST` path). */
  function Handle(req: RequestBody, env: Env, ai: AiOutcome, ins: InsertOutcome): (run: Run)
    ensures run.response.status in {200, 400, 402, 429, 500}
    ensures run.response.status == 200 <==> run.response.body.ReplyBody?
    ensures run.aiCalled <==> ReachesAi(req, env)
    ensures run.insert.Some? ==> run.aiCalled && run.insert.value.userId == req.userId.value
  {
    match req
    case Unreadable(e) => Run(Fail(500, CaughtMessage(e)), false, None)
    case Fields(message, userId) =>
      if !Truthy(message) || !Truthy(userId) then Run(Fail(400, MissingFieldsError), false, None)
      else if !Truthy(env.apiKey) then Run(Fail(500, ApiKeyMissingError), false, None)
      else AfterAi(userId.value, ai, ins)
  }

  // ---------------------------------------------------------------------
  // Properties of the handler

  /** A missing or empty `message` or `userId` is answered 400, before the
      gateway or the store is touched. */
  lemma MissingInputRejected(message: Option<string>, userId: Option<string>, env: Env, ai: AiOutcome, ins: InsertOutcome)
    requires !Truthy(message) || !Truthy(userId)
    ensures Handle(Fields(message, userId), env, ai, ins) == Run(Fail(400, MissingFieldsError), false, None)
  {
  }

  /** Status 400 is given exactly for missing input. */
  lemma BadRequestIffMissingInput(req: RequestBody, env: Env, ai: AiOutcome, ins: InsertOutcome)
    ensures Handle(req, env, ai, ins).response.status == 400 <==> req.Fields? && (!Truthy(req.message) || !Truthy(req.userId))
  {
  }

  /** Without a gateway key the handler throws, which the catch-all turns
      into a 500 carrying the error's message. */
  lemma MissingApiKeyFails(message: string, userId: string, env: Env, ai: AiOutcome, ins: InsertOutcome)
    requires message != "" && userId != "" && !Truthy(env.apiKey)
    ensures Handle(Fields(Some(message), Some(userId)), env, ai, ins) == Run(Fail(500, ApiKeyMissingError), false, None)
  {
  }

  /** A gateway status that is not ok maps to 429, 402 or 500 and nothing is
      inserted. */
  lemma UpstreamStatusMapping(req: RequestBody, env: Env, status: int, body: Result<Completion, Thrown>, ins: InsertOutcome)
    requires ReachesAi(req, env) && !IsOk(status)
    ensures var run := Handle(req, env, Replied(status, body), ins);
      && run.insert.None?
      && (status == 429 ==> run.response == Fail(429, RateLimitError))
      && (status == 402 ==> run.response == Fail(402, CreditsError))
      && (status != 429 && status != 402 ==> run.response == Fail(500, AiError))
  {
  }

  /** The shape of a completion whose first choice calls a tool. */
  predicate CallsTool(c: Completion, call: ToolCall)
  {
    && c.choices.Some? && |c.choices.value| > 0
    && c.choices.value[0].message.Some?
    && c.choices.value[0].message.value.toolCalls.Some?
    && |c.choices.value[0].message.value.toolCalls.value| > 0
    && c.choices.value[0].message.value.toolCalls.value[0] == call
  }

  /** When the model calls the tool, the first call alone is used and exactly
      one insert is issued, owned by the requesting user and carrying the
      arguments unchanged. */
  lemma ToolCallInsertsOnce(req: RequestBody, env: Env, status: int, c: Completion, args: ToolArgs, ins: InsertOutcome)
    requires ReachesAi(req, env) && IsOk(status)
    requires CallsTool(c, ToolCall(Success(args)))
    ensures Handle(req, env, Replied(status, Success(c)), ins).insert
         == Some(InsertRequest(req.userId.value, args.kind, args.amount, args.category, args.description))
  {
  }

  /** A failed insert is answered 500 with the save error, and the body
      carries no `isTransaction` field. */
  lemma InsertFailureReported(req: RequestBody, env: Env, status: int, c: Completion, args: ToolArgs)
    requires ReachesAi(req, env) && IsOk(status)
    requires CallsTool(c, ToolCall(Success(args)))
    ensures Handle(req, env, Replied(status, Success(c)), InsertFailed).response == Fail(500, SaveError)
  {
  }

  /** A successful insert of a numeric amount is confirmed with status 200,
      `isTransaction: true`, the stored row, and the template of its type. */
  lemma InsertSuccessConfirmed(req: RequestBody, env: Env, status: int, c: Completion, args: ToolArgs, cents: int, row: Ledger.Row)
    requires ReachesAi(req, env) && IsOk(status)
    requires CallsTool(c, ToolCall(Success(args))) && args.amount == Number(cents)
    ensures var r := Handle(req, env, Replied(status, Success(c)), Inserted(row)).response;
      && r.status == 200 && r.body.ReplyBody? && r.body.isTransaction && r.body.transaction == Some(row)
      && (args.kind == "expense" ==>
            r.body.message == "Registrado! Você gastou R$ " + FormatCents(cents) + " em " + args.category + ". " + args.description)
      && (args.kind != "expense" ==>
            r.body.message == "Ótimo! Receita de R$ " + FormatCents(cents) + " em " + args.category + " registrada. " + args.description)
  {
  }

  /** When the amount has no `toFixed`, the row has already been inserted
      but the handler answers 500 with the thrown error's message. */
  lemma SavedButReportedAsFailure(req: RequestBody, env: Env, status: int, c: Completion, args: ToolArgs, e: Thrown, row: Ledger.Row)
    requires ReachesAi(req, env) && IsOk(status)
    requires CallsTool(c, ToolCall(Success(args))) && args.amount == NotNumber(e)
    ensures var run := Handle(req, env, Replied(status, Success(c)), Inserted(row));
      && run.insert.Some?
      && run.response == Fail(500, CaughtMessage(e))
  {
  }

  /** Without a tool call nothing is inserted and the answer is 200 with
      `isTransaction: false` and the model's text, or the fallback when the
      text is missing or empty. */
  lemma FreeTextReply(req: RequestBody, env: Env, status: int, c: Completion, ins: InsertOutcome)
    requires ReachesAi(req, env) && IsOk(status)
    requires forall call :: !CallsTool(c, call)
    ensures var run := Handle(req, env, Replied(status, Success(c)), ins);
      && run.insert.None?
      && run.response.status == 200
      && run.response.body == ReplyBody(ReplyText(FirstMessage(c)), false, None)
      && (FirstMessage(c).Some? && Truthy(FirstMessage(c).value.content) ==>
            run.response.body.message == FirstMessage(c).value.content.value)
      && (FirstMessage(c).None? || !Truthy(FirstMessage(c).value.content) ==>
            run.response.body.message == FallbackReply)
  {
    match FirstToolCall(FirstMessage(c))
    case Some(call) =>
      assert CallsTool(c, call);
    case None =>
  }

  /** `isTransaction: true` is answered exactly when an insert was issued,
      it succeeded, and the amount could be formatted. */
  lemma TransactionIffInserted(req: RequestBody, env: Env, ai: AiOutcome, ins: InsertOutcome)
    ensures var run := Handle(req, env, ai, ins);
      (run.response.body.ReplyBody? && run.response.body.isTransaction)
      <==> (run.insert.Some? && ins.Inserted? && run.insert.value.amount.Number?)
  {
  }

  /** Every value thrown inside the handler ends as a 500 carrying its
      message: an unreadable request body, a failed gateway call, an
      unparsable gateway body, unparsable tool arguments. */
  lemma ThrownErrorsAre500(req: RequestBody, env: Env, ai: AiOutcome, ins: InsertOutcome, e: Thrown)
    ensures Handle(Unreadable(e), env, ai, ins) == Run(Fail(500, CaughtMessage(e)), false, None)
    ensures ReachesAi(req, env) ==>
      Handle(req, env, FetchFailed(e), ins) == Run(Fail(500, CaughtMessage(e)), true, None)
    ensures ReachesAi(req, env) && ai.Replied? && IsOk(ai.status) && ai.body == Failure(e) ==>
      Handle(req, env, ai, ins) == Run(Fail(500, CaughtMessage(e)), true, None)
    ensures (ReachesAi(req, env) && ai.Replied? && IsOk(ai.status) && ai.body.Success?
             && CallsTool(ai.body.value, ToolCall(Failure(e)))) ==>
      Handle(req, env, ai, ins) == Run(Fail(500, CaughtMessage(e)), true, None)
  {
  }

  /** An insert is issued only after an ok gateway reply whose first choice
      calls the tool with parsable arguments. */
  lemma InsertOnlyAfterToolCall(req: RequestBody, env: Env, ai: AiOutcome, ins: InsertOutcome)
    ensures Handle(req, env, ai, ins).insert.Some? <==>
      && ReachesAi(req, env) && ai.Replied? && IsOk(ai.status) && ai.body.Success?
      && exists args :: CallsTool(ai.body.value, ToolCall(Success(args)))
  {
    var run := Handle(req, env, ai, ins);
    if run.insert.Some? {
      var call := FirstToolCall(FirstMessage(ai.body.value)).value;
      assert CallsTool(ai.body.value, ToolCall(Success(call.arguments.value)));
    }
  }

  /** A confirmation text tells which template was used and the amount it
      reports, whatever the category and description on either side. */
  lemma ConfirmationDeterminesAmount(
    kind1: string, a: int, category1: string, description1: string,
    kind2: string, b: int, category2: string, description2: string)
    requires Confirmation(ToolArgs(kind1, Number(a), category1, description1))
          == Confirmation(ToolArgs(kind2, Number(b), category2, description2))
    ensures (kind1 == Ledger.Expense) <==> (kind2 == Ledger.Expense)
    ensures a == b
  {
    var x, y := FormatCents(a), FormatCents(b);
    var r1 := Confirmation(ToolArgs(kind1, Number(a), category1, description1)).value;
    var r2 := Confirmation(ToolArgs(kind2, Number(b), category2, description2)).value;
    assert r1[0] == (if kind1 == Ledger.Expense then 'R' else 'Ó');
    assert r2[0] == (if kind2 == Ledger.Expense then 'R' else 'Ó');
    FormatCentsNoSpace(a);
    FormatCentsNoSpace(b);
    if kind1 == Ledger.Expense {
      ExpenseAmountRecoverable(x, y, category1, description1, category2, description2);
    } else {
      IncomeAmountRecoverable(x, y, category1, description1, category2, description2);
    }
    FormatCentsInjective(a, b);
  }

  lemma ExpenseAmountRecoverable(x: string, y: string, c1: string, d1: string, c2: string, d2: string)
    requires NoSpace(x) && NoSpace(y)
    requires ExpenseConfirmation(x, c1, d1) == ExpenseConfirmation(y, c2, d2)
    ensures x == y
  {
    var p := "Registrado! Você gastou R$ ";
    var q1, q2 := " em " + c1 + ". " + d1, " em " + c2 + ". " + d2;
    assert ExpenseConfirmation(x, c1, d1) == (p + x) + q1;
    assert ExpenseConfirmation(y, c2, d2) == (p + y) + q2;
    SplitAtSpace(p, x, y, q1, q2);
  }

  lemma IncomeAmountRecoverable(x: string, y: string, c1: string, d1: string, c2: string, d2: string)
    requires NoSpace(x) && NoSpace(y)
    requires IncomeConfirmation(x, c1, d1) == IncomeConfirmation(y, c2, d2)
    ensures x == y
  {
    var p := "Ótimo! Receita de R$ ";
    var q1, q2 := " em " + c1 + " registrada. " + d1, " em " + c2 + " registrada. " + d2;
    assert IncomeConfirmation(x, c1, d1) == (p + x) + q1;
    assert IncomeConfirmation(y, c2, d2) == (p + y) + q2;
    SplitAtSpace(p, x, y, q1, q2);
  }

  /** The two templates are told apart by their first character. */
  lemma TemplatesDistinct(a: string, c1: string, d1: string, b: string, c2: string, d2: string)
    ensures ExpenseConfirmation(a, c1, d1) != IncomeConfirmation(b, c2, d2)
  {
    assert ExpenseConfirmation(a, c1, d1)[0] == 'R';
    assert IncomeConfirmation(b, c2, d2)[0] == 'Ó';
  }
}
