/** The WhatsApp webhook: one delivery of the messaging gateway, from event filtering to the single reply,
  * over the process-wide map from phone numbers to backend tokens. */
module Webhook {
  import opened Basics
  import opened WebhookText
  import Transactions

  const UpsertEvent := "messages.upsert"
  const LoginOkText := "✅ Login realizado com sucesso! Agora você pode registrar suas transações."
  const LoginFailedText := "❌ Erro no login. Verifique email e senha."
  const UsageText := "Use: /login seu@email.com suasenha"
  const OnboardingText := "👋 Olá! Sou o assistente do Nexfy.\n\nPara começar, faça login:\n/login seu@email.com suasenha"
  const ExpenseErrorText := "❌ Erro ao registrar despesa. Tente novamente."
  const IncomeErrorText := "❌ Erro ao registrar receita. Tente novamente."
  const SummaryErrorText := "❌ Erro ao obter resumo. Tente novamente."
  const DefaultText := "🤔 Não entendi. Tente algo como:\n\n• gastei 30 no almoço\n• recebi 5000 de salário\n• qual meu saldo?"
  const FallbackText := "Desculpe, não consegui entender. Tente novamente!"
  const DefaultCategoria := "Geral"

  /** The keys of the classifier's JSON object that the webhook reads; `None` is a missing key. */
  datatype Intent = Intent(
    tipo: Option<string>, valor: Option<real>, categoria: Option<string>, descricao: Option<string>,
    resposta: Option<string>)

  /** What `json.loads` produced from the cleaned reply, when it did not raise. */
  datatype Parsed = NotAnObject | Object(intent: Intent)

  /** The record returned when the classifier call or the parse fails. */
  const Fallback := Intent(Some("nao_entendi"), None, None, None, Some(FallbackText))

  /** `process_with_gemini`: `reply` is the model's text, `None` when the call raised;
    * `decode` is `json.loads`, `None` when it raised. A failure never propagates. */
  function ProcessWithGemini(reply: Option<string>, decode: string -> Option<Parsed>): (r: Parsed)
    ensures reply.None? ==> r == Object(Fallback)
    ensures reply.Some? ==>
      r == (match decode(CleanReply(reply.value)) case None => Object(Fallback) case Some(p) => p)
  {
    match reply
    case None => Object(Fallback)
    case Some(text) =>
      match decode(CleanReply(text))
      case None => Object(Fallback)
      case Some(p) => p
  }

  /** A reply wrapped in a `json` code block is decoded from its stripped body. */
  lemma FencedReplyDecoded(p: string, decode: string -> Option<Parsed>)
    requires FenceFree(p)
    requires p == [] || p[|p| - 1] != '`'
    requires decode(Strip(p)).Some?
    ensures ProcessWithGemini(Some("```json" + p + Fence), decode) == decode(Strip(p)).value
  {
    JsonFenceRoundTrip(p);
  }

  /** What the handler does with a classified message. */
  datatype Action =
    | Record(tipo: string, valor: real, categoria: string, descricao: string)
    | AskSummary
    | Answer(text: string)

  /** Python truthiness of the `valor` key. */
  predicate HasAmount(valor: Option<real>)
  {
    valor.Some? && valor.value != 0.0
  }

  /** The `if`/`elif` chain over `tipo`. */
  function ChooseAction(i: Intent): (a: Action)
    ensures a.Record? <==> (i.tipo == Some("despesa") || i.tipo == Some("receita")) && HasAmount(i.valor)
    ensures a.Record? ==>
      Some(a.tipo) == i.tipo && Some(a.valor) == i.valor && a.valor != 0.0
      && a.categoria == i.categoria.GetOr(DefaultCategoria) && a.descricao == i.descricao.GetOr("")
    ensures a.AskSummary? <==> i.tipo == Some("saldo") || i.tipo == Some("consulta")
    ensures a.Answer? ==> a.text == i.resposta.GetOr(DefaultText)
  {
    var categoria := i.categoria.GetOr(DefaultCategoria);
    var descricao := i.descricao.GetOr("");
    if i.tipo == Some("despesa") && HasAmount(i.valor) then Record("despesa", i.valor.value, categoria, descricao)
    else if i.tipo == Some("receita") && HasAmount(i.valor) then Record("receita", i.valor.value, categoria, descricao)
    else if i.tipo == Some("saldo") || i.tipo == Some("consulta") then AskSummary
    else Answer(i.resposta.GetOr(DefaultText))
  }

  /** `conta_fixa` and any other kind are not dispatched: they get the classifier's own reply. */
  lemma BillIntentOnlyAnswered(i: Intent)
    requires i.tipo == Some("conta_fixa")
    ensures ChooseAction(i) == Answer(i.resposta.GetOr(DefaultText))
  {
  }

  /** The text of the one reply; the templated ones keep their figures, their layout is not modelled. */
  datatype Reply =
    | Text(text: string)
    | ExpenseRecorded(valor: real, categoria: string, descricao: string)
    | IncomeRecorded(valor: real, categoria: string, descricao: string)
    | SummaryReport(receitas: real, despesas: real, saldo: real)

  /** A request the handler makes to the backend or the classifier. */
  datatype Call =
    | Login(email: string, password: string)
    | Classify(text: string)
    | CreateTransaction(token: string, tipo: string, valor: real, categoria: string, descricao: string, data: string)
    | FetchSummary(token: string)

  datatype Send = Send(instance: Option<string>, phone: string, reply: Reply)

  /** The `status` of the webhook's JSON answer. */
  datatype Status = StatusIgnored | StatusNoText | StatusOk | StatusError

  /** One delivery's effect; `stored` is the token a successful `/login` wrote for the sender. */
  datatype Outcome = Outcome(status: Status, sends: seq<Send>, calls: seq<Call>, stored: Option<string>)

  /** The `message` object: `conversation` and `extendedTextMessage` are `Some` when the key is present,
    * with `None` inside for a null `conversation` or a null or missing `text`. */
  datatype MessageData = MessageData(conversation: Option<Option<string>>, extendedText: Option<Option<string>>, audio: bool)

  /** The fields of the gateway's POST body that the webhook reads; a missing `remoteJid` is "". */
  datatype Delivery = Delivery(event: Option<string>, fromMe: bool, remoteJid: string, message: MessageData, instance: Option<string>)

  /** Everything outside the process that one delivery depends on:
    * `transcript` is the audio download and transcription (`None` when there is no media URL, the download does not answer 200, or the transcription fails),
    * `login` the backend's `/auth/login` (the `access_token` of a 200 answer),
    * `classifierReply` and `decode` the classifier's text and `json.loads`,
    * `createOk` whether the transaction POST answered 200, `summary` the summary of a 200 answer,
    * `today` the date sent with a new transaction. */
  datatype World = World(
    transcript: Option<string>, login: (string, string) -> Option<string>, classifierReply: Option<string>,
    decode: string -> Option<Parsed>, createOk: bool, summary: Option<Transactions.Summary>, today: string)

  /** Python truthiness of an optional string. */
  predicate Truthy(s: Option<string>)
  {
    s.Some? && s.value != ""
  }

  predicate Accepted(d: Delivery)
  {
    d.event == Some(UpsertEvent) && !d.fromMe
  }

  /** The message text: conversation first, then extended text, then the audio transcript. */
  function ExtractText(m: MessageData, transcript: Option<string>): (r: Option<string>)
    ensures m.conversation.Some? ==> r == m.conversation.value
    ensures m.conversation.None? && m.extendedText.Some? ==> r == m.extendedText.value
    ensures m.conversation.None? && m.extendedText.None? && m.audio ==> r == transcript
    ensures m.conversation.None? && m.extendedText.None? && !m.audio ==> r.None?
  {
    if m.conversation.Some? then m.conversation.value
    else if m.extendedText.Some? then m.extendedText.value
    else if m.audio then transcript
    else None
  }

  /** The reply to a `/login` command, and the login call it makes. */
  function LoginReply(parts: seq<string>, w: World): (r: (Reply, seq<Call>, Option<string>))
    ensures |parts| >= 3 ==>
      r.1 == [Login(parts[1], parts[2])] && r.2 == w.login(parts[1], parts[2])
      && r.0 == Text(if r.2.Some? then LoginOkText else LoginFailedText)
    ensures |parts| < 3 ==> r == (Text(UsageText), [], None)
  {
    if |parts| >= 3 then
      var answer := w.login(parts[1], parts[2]);
      (Text(if answer.Some? then LoginOkText else LoginFailedText), [Login(parts[1], parts[2])], answer)
    else (Text(UsageText), [], None)
  }

  /** The reply an action ends in, and the backend call it makes with the session token. */
  function Perform(a: Action, token: string, w: World): (r: (Reply, seq<Call>))
    ensures a.Record? ==> r.1 == [CreateTransaction(token, a.tipo, a.valor, a.categoria, a.descricao, w.today)]
    ensures a.AskSummary? ==> r.1 == [FetchSummary(token)]
    ensures a.Answer? ==> r == (Text(a.text), [])
    ensures a.AskSummary? && w.summary.Some? ==>
      r.0 == SummaryReport(w.summary.value.receitas, w.summary.value.despesas, w.summary.value.saldo)
    ensures a.AskSummary? && w.summary.None? ==> r.0 == Text(SummaryErrorText)
    ensures a.Record? && !w.createOk ==> r.0 == Text(if a.tipo == "despesa" then ExpenseErrorText else IncomeErrorText)
    ensures a.Record? && w.createOk ==>
      r.0 == (if a.tipo == "despesa" then ExpenseRecorded(a.valor, a.categoria, a.descricao)
              else IncomeRecorded(a.valor, a.categoria, a.descricao))
  {
    match a
    case Record(tipo, valor, categoria, descricao) =>
      var reply :=
        if !w.createOk then Text(if tipo == "despesa" then ExpenseErrorText else IncomeErrorText)
        else if tipo == "despesa" then ExpenseRecorded(valor, categoria, descricao)
        else IncomeRecorded(valor, categoria, descricao);
      (reply, [CreateTransaction(token, tipo, valor, categoria, descricao, w.today)])
    case AskSummary =>
      var reply :=
        if w.summary.Some? then SummaryReport(w.summary.value.receitas, w.summary.value.despesas, w.summary.value.saldo)
        else Text(SummaryErrorText);
      (reply, [FetchSummary(token)])
    case Answer(text) => (Text(text), [])
  }

  /** The whole decision of one delivery, given the token cached for the sender before it. */
  function Handle(d: Delivery, token: Option<string>, w: World): (o: Outcome)
    ensures !Accepted(d) ==> o == Outcome(StatusIgnored, [], [], None)
    ensures o.status == StatusNoText <==> Accepted(d) && !Truthy(ExtractText(d.message, w.transcript))
    ensures o.status == StatusIgnored || o.status == StatusNoText ==> o.sends == [] && o.calls == []
    ensures |o.sends| <= 1 && (|o.sends| == 1 <==> o.status == StatusOk)
    ensures forall s :: s in o.sends ==> s.instance == d.instance && s.phone == PhoneOf(d.remoteJid)
  {
    if !Accepted(d) then Outcome(StatusIgnored, [], [], None)
    else
      var text := ExtractText(d.message, w.transcript);
      if !Truthy(text) then Outcome(StatusNoText, [], [], None)
      else
        var phone := PhoneOf(d.remoteJid);
        if IsLoginCommand(text.value) then
          var (reply, calls, stored) := LoginReply(Words(text.value), w);
          Outcome(StatusOk, [Send(d.instance, phone, reply)], calls, stored)
        else if !Truthy(token) then
          Outcome(StatusOk, [Send(d.instance, phone, Text(OnboardingText))], [], None)
        else
          match ProcessWithGemini(w.classifierReply, w.decode)
          case NotAnObject => Outcome(StatusError, [], [Classify(text.value)], None)
          case Object(intent) =>
            var (reply, calls) := Perform(ChooseAction(intent), token.value, w);
            Outcome(StatusOk, [Send(d.instance, phone, reply)], [Classify(text.value)] + calls, None)
  }

  /** A `/login` command, in any letter case, is answered once and never reaches the classifier;
    * only it can store a token, and it stores what the backend's login answered. */
  lemma LoginCommandPath(d: Delivery, token: Option<string>, w: World)
    requires Accepted(d)
    requires Truthy(ExtractText(d.message, w.transcript))
    requires IsLoginCommand(ExtractText(d.message, w.transcript).value)
    ensures var o := Handle(d, token, w); var parts := Words(ExtractText(d.message, w.transcript).value);
      o.status == StatusOk && |o.sends| == 1
      && (|parts| >= 3 ==> o.calls == [Login(parts[1], parts[2])] && o.stored == w.login(parts[1], parts[2]))
      && (|parts| < 3 ==> o.calls == [] && o.stored.None? && o.sends[0].reply == Text(UsageText))
  {
  }

  /** Only a `/login` command stores a token. */
  lemma OnlyLoginStores(d: Delivery, token: Option<string>, w: World)
    requires Handle(d, token, w).stored.Some?
    ensures Accepted(d) && Truthy(ExtractText(d.message, w.transcript))
    ensures IsLoginCommand(ExtractText(d.message, w.transcript).value)
  {
  }

  /** Without a session nothing is classified or recorded: the sender is told how to log in. */
  lemma NoSessionOnboarding(d: Delivery, token: Option<string>, w: World)
    requires Accepted(d)
    requires Truthy(ExtractText(d.message, w.transcript))
    requires !IsLoginCommand(ExtractText(d.message, w.transcript).value)
    requires !Truthy(token)
    ensures Handle(d, token, w) ==
      Outcome(StatusOk, [Send(d.instance, PhoneOf(d.remoteJid), Text(OnboardingText))], [], None)
  {
  }

  /** With a session, the outcome is the classified text followed by what its action does. */
  lemma ClassifiedOutcome(d: Delivery, token: Option<string>, w: World, intent: Intent)
    requires Accepted(d)
    requires Truthy(ExtractText(d.message, w.transcript))
    requires !IsLoginCommand(ExtractText(d.message, w.transcript).value)
    requires Truthy(token)
    requires ProcessWithGemini(w.classifierReply, w.decode) == Object(intent)
    ensures var p := Perform(ChooseAction(intent), token.value, w);
      Handle(d, token, w) == Outcome(StatusOk, [Send(d.instance, PhoneOf(d.remoteJid), p.0)],
                                     [Classify(ExtractText(d.message, w.transcript).value)] + p.1, None)
  {
  }

  /** With a session, the text is classified once and at most one backend call follows, carrying the session's token;
    * a transaction is created exactly when the classifier reported an expense or an income with a non-zero amount. */
  lemma SessionDispatch(d: Delivery, token: Option<string>, w: World, intent: Intent)
    requires Accepted(d)
    requires Truthy(ExtractText(d.message, w.transcript))
    requires !IsLoginCommand(ExtractText(d.message, w.transcript).value)
    requires Truthy(token)
    requires ProcessWithGemini(w.classifierReply, w.decode) == Object(intent)
    ensures var o := Handle(d, token, w);
      o.status == StatusOk && 1 <= |o.calls| <= 2 && o.calls[0] == Classify(ExtractText(d.message, w.transcript).value)
      && o.stored.None?
      && (forall k :: 1 <= k < |o.calls| ==> !o.calls[k].Login? && !o.calls[k].Classify? && o.calls[k].token == token.value)
      && ((exists k :: 1 <= k < |o.calls| && o.calls[k].CreateTransaction?) <==>
          (intent.tipo == Some("despesa") || intent.tipo == Some("receita")) && HasAmount(intent.valor))
  {
    ClassifiedOutcome(d, token, w, intent);
    var a := ChooseAction(intent);
    FollowUpCalls(ExtractText(d.message, w.transcript).value, a, token.value, w);
  }

  /** The calls of a classified message: the classification, then the one call its action makes. */
  lemma FollowUpCalls(text: string, a: Action, token: string, w: World)
    ensures var calls := [Classify(text)] + Perform(a, token, w).1;
      1 <= |calls| <= 2 && calls[0] == Classify(text)
      && (forall k :: 1 <= k < |calls| ==> !calls[k].Login? && !calls[k].Classify? && calls[k].token == token)
      && ((exists k :: 1 <= k < |calls| && calls[k].CreateTransaction?) <==> a.Record?)
  {
    var calls := [Classify(text)] + Perform(a, token, w).1;
    if a.Record? {
      assert calls[1].CreateTransaction?;
    }
  }

  /** A created transaction has the classifier's kind and amount, the session's token, the delivery's date,
    * and the defaults for a missing category or description. */
  lemma RecordedFields(intent: Intent, token: string, w: World)
    requires intent.tipo == Some("despesa") || intent.tipo == Some("receita")
    requires HasAmount(intent.valor)
    ensures Perform(ChooseAction(intent), token, w).1 ==
      [CreateTransaction(token, intent.tipo.value, intent.valor.value, intent.categoria.GetOr(DefaultCategoria),
                         intent.descricao.GetOr(""), w.today)]
  {
  }

  /** A classifier answer that is JSON but not an object makes `result.get` raise: the delivery ends in "error", unanswered. */
  lemma NonObjectCrashes(d: Delivery, token: Option<string>, w: World)
    requires Accepted(d)
    requires Truthy(ExtractText(d.message, w.transcript))
    requires !IsLoginCommand(ExtractText(d.message, w.transcript).value)
    requires Truthy(token)
    requires ProcessWithGemini(w.classifierReply, w.decode) == NotAnObject
    ensures Handle(d, token, w).status == StatusError && Handle(d, token, w).sends == []
  {
  }

  /** The process-wide `USER_TOKENS` map from phone numbers to backend tokens. */
  class TokenCache {
    var tokens: map<string, string>

    constructor()
      ensures tokens == map[]
    {
      tokens := map[];
    }

    /** `get_user_token`: a lookup that changes nothing. */
    function Get(phone: string): (r: Option<string>)
      reads this
      ensures r.Some? <==> phone in tokens
      ensures r.Some? ==> r.value == tokens[phone]
    {
      if phone in tokens then Some(tokens[phone]) else None
    }

    /** `register_user`: the login answer's token is stored for the phone only when the login succeeded. */
    method RegisterUser(phone: string, email: string, password: string, login: (string, string) -> Option<string>)
      returns (ok: bool)
      modifies this
      ensures ok <==> login(email, password).Some?
      ensures tokens == if ok then old(tokens)[phone := login(email, password).value] else old(tokens)
    {
      var answer := login(email, password);
      if answer.Some? {
        tokens := tokens[phone := answer.value];
        return true;
      }
      return false;
    }

    /** `set_token`: overwrites whatever the phone had. */
    method SetToken(phone: string, token: string)
      modifies this
      ensures tokens == old(tokens)[phone := token]
    {
      tokens := tokens[phone := token];
    }

    /** `webhook`: handles one delivery step by step; it does what `Handle` describes, and the cache changes
      * only by a successful `/login` of the sender. */
    method Webhook(d: Delivery, w: World) returns (o: Outcome)
      modifies this
      ensures o == Handle(d, old(Get(PhoneOf(d.remoteJid))), w)
      ensures tokens == if o.stored.Some? then old(tokens)[PhoneOf(d.remoteJid) := o.stored.value] else old(tokens)
    {
      if d.event != Some(UpsertEvent) {
        return Outcome(StatusIgnored, [], [], None);
      }
      if d.fromMe {
        return Outcome(StatusIgnored, [], [], None);
      }
      var phone := PhoneOf(d.remoteJid);
      var text := ExtractText(d.message, w.transcript);
      if !Truthy(text) {
        return Outcome(StatusNoText, [], [], None);
      }
      var token := Get(phone);
      if IsLoginCommand(text.value) {
        var parts := Words(text.value);
        var reply := Text(UsageText);
        var calls: seq<Call> := [];
        var stored: Option<string> := None;
        if |parts| >= 3 {
          var ok := RegisterUser(phone, parts[1], parts[2], w.login);
          reply := Text(if ok then LoginOkText else LoginFailedText);
          calls := [Login(parts[1], parts[2])];
          stored := w.login(parts[1], parts[2]);
        }
        return Outcome(StatusOk, [Send(d.instance, phone, reply)], calls, stored);
      }
      if !Truthy(token) {
        return Outcome(StatusOk, [Send(d.instance, phone, Text(OnboardingText))], [], None);
      }
      var result := ProcessWithGemini(w.classifierReply, w.decode);
      if result.NotAnObject? {
        return Outcome(StatusError, [], [Classify(text.value)], None);
      }
      var action := ChooseAction(result.intent);
      var responseMsg: Reply;
      var calls: seq<Call> := [Classify(text.value)];
      match action {
        case Record(tipo, valor, categoria, descricao) =>
          calls := calls + [CreateTransaction(token.value, tipo, valor, categoria, descricao, w.today)];
          if w.createOk {
            responseMsg := if tipo == "despesa" then ExpenseRecorded(valor, categoria, descricao)
                           else IncomeRecorded(valor, categoria, descricao);
          } else {
            responseMsg := Text(if tipo == "despesa" then ExpenseErrorText else IncomeErrorText);
          }
        case AskSummary =>
          calls := calls + [FetchSummary(token.value)];
          if w.summary.Some? {
            responseMsg := SummaryReport(w.summary.value.receitas, w.summary.value.despesas, w.summary.value.saldo);
          } else {
            responseMsg := Text(SummaryErrorText);
          }
        case Answer(t) =>
          responseMsg := Text(t);
      }
      o := Outcome(StatusOk, [Send(d.instance, phone, responseMsg)], calls, None);
    }
  }

  /** After a successful `/login` with a non-empty token, the sender's next ordinary message is classified. */
  lemma LoginOpensSession(d1: Delivery, t0: Option<string>, w1: World, d2: Delivery, w2: World)
    requires Handle(d1, t0, w1).stored.Some? && Handle(d1, t0, w1).stored.value != ""
    requires Accepted(d2) && Truthy(ExtractText(d2.message, w2.transcript))
    requires !IsLoginCommand(ExtractText(d2.message, w2.transcript).value)
    ensures Handle(d2, Handle(d1, t0, w1).stored, w2).calls[0] == Classify(ExtractText(d2.message, w2.transcript).value)
  {
    var o := Handle(d2, Handle(d1, t0, w1).stored, w2);
    match ProcessWithGemini(w2.classifierReply, w2.decode)
    case NotAnObject =>
    case Object(intent) =>
  }
}
