/**
 * The `/telegram` handler: the per-chat conversation state machine. A recognised command
 * starts a flow (or queues a payment lookup) whatever the chat's state; any other text
 * answers the chat's pending flow, if it has one. `Step` states what one update does to the
 * conversation states, the queue and the reply; `Bridge.HandleTelegram` does it in place.
 */
module Router {

  import opened Options
  import opened Text
  import opened BotIdentity
  import opened Jobs
  import opened CommandQueue
  import ShellQuote

  /** The `state` strings of `chatStates`. */
  datatype StateTag = WaitingForAmount | WaitingForReportOption | WaitingForProductCode

  /** `chatStates[chatId]`: the pending flow and the bot identity it was started with. */
  datatype ChatState = ChatState(state: StateTag, botName: Option<string>, botToken: Option<string>)

  /** `message.from`: its `phone_number` and `id`, as text. */
  datatype Sender = Sender(phoneNumber: Option<string>, id: Option<string>)

  /** `message`: the chat's id and type, the text (absent for non-text messages) and the sender. */
  datatype Message = Message(chatId: int, chatType: string, text: Option<string>, from: Option<Sender>)

  /** A Telegram update: whether it carries `my_chat_member`, and its `message`. */
  datatype Update = Update(myChatMember: bool, message: Option<Message>)

  /** What handling one update does: the new states, the job pushed (if any), the reply (if any). */
  datatype Outcome = Outcome(states: map<int, ChatState>, job: Option<Job>, reply: Option<Outbound>)

  const PythonPath: string := "/home/wuilliam/proyectos/ai-financial/.venv/bin/python"
  const NodePath: string := "/home/wuilliam/.nvm/versions/node/v20.16.0/bin/node"
  const PagoMovilScript: string := "/home/wuilliam/proyectos/ai-financial/test_pagomovil.py"
  const ExpenseScript: string := "/home/wuilliam/proyectos/ai-financial/test_zsoft.py"
  const ReportScript: string := "/home/wuilliam/proyectos/7db-inventariodb/analize_short.js"
  const LookupScript: string := "/home/wuilliam/proyectos/7db-inventariodb/product_lookup.js"

  const GastoPrompt: string := "💰 ¿Cuánto gastaste y en qué?"
  const WuilliamAck: string := "⏳ Consultando transacciones de PagoMóvil Wuilliam en BBVA Provincial. Te avisaré cuando esté listo. 🔍"
  const GilzaAck: string := "⏳ Consultando transacciones de PagoMóvil Gilza en BBVA Provincial. Te avisaré cuando esté listo. 🔍"
  const ReportPrompt: string :=
    "📊 ¿Qué período deseas para el reporte?\n[0] 📅 Hoy\n[1] 🗓️ Semana actual\n[2] 📆 Semana pasada\n"
    + "[3] 🗓️ Mes actual\n[4] 📆 Mes pasado\n[5] 📊 Trimestre actual\n[6] 📈 Trimestre pasado"
  const CodePrompt: string := "🔍 Por favor, ingresa el código del producto que deseas consultar:"
  const ReportAck: string := "⏳ Estamos generando tu reporte. Te lo enviaremos en cuanto esté listo. 📑"
  const ReportRetry: string := "❗ Por favor, responde con un número entre 0 y 6 para seleccionar el período del reporte."
  const CodeRetry: string := "❗ Por favor, ingresa un código de producto válido."

  /** The acknowledgement of a queued product lookup, quoting the code. */
  function CodeAck(code: string): string
  {
    "⏳ Consultando información del producto con código \"" + code + "\". Te informaremos cuando esté listo."
  }

  /** The acknowledgement of a queued expense, quoting the text. */
  function AmountAck(command: string): string
  {
    "⏳ Gasto \"" + command + "\" encolado. Te avisaré cuando esté listo. ✨"
  }

  const ReportOptions: seq<string> := ["0", "1", "2", "3", "4", "5", "6"]

  /** The commands the router recognises. */
  datatype BotCommand = StartExpense | QueryWuilliam | QueryGilza | StartReport | StartLookup

  function CommandText(c: BotCommand): string
  {
    match c
    case StartExpense => "/gasto"
    case QueryWuilliam => "/pagomovil_wuilliam"
    case QueryGilza => "/pagomovil_gilza"
    case StartReport => "/report"
    case StartLookup => "/consulta_codigo"
  }

  /** The command a base command is, compared exactly (no trimming, case-sensitive). */
  function Recognise(command: string): (r: Option<BotCommand>)
    ensures r.Some? ==> CommandText(r.value) == command
    ensures r.None? ==> forall c :: CommandText(c) != command
  {
    if command == "/gasto" then Some(StartExpense)
    else if command == "/pagomovil_wuilliam" then Some(QueryWuilliam)
    else if command == "/pagomovil_gilza" then Some(QueryGilza)
    else if command == "/report" then Some(StartReport)
    else if command == "/consulta_codigo" then Some(StartLookup)
    else None
  }

  predicate IsCommand(command: string)
  {
    Recognise(command).Some?
  }

  predicate IsGroupChat(chatType: string)
  {
    chatType == "group" || chatType == "supergroup"
  }

  /** `from.phone_number || from.id || "unknown"`, or `"unknown"` without `from`. */
  function Phone(from: Option<Sender>): (r: string)
    ensures r != ""
    ensures from.Some? && Truthy(from.value.phoneNumber) ==> r == from.value.phoneNumber.value
  {
    if from.None? then "unknown" else Or(from.value.phoneNumber, Or(from.value.id, Some("unknown"))).value
  }

  /**
   * The token of the message's bot: `botName ? getTokenForBot(botName) : TELEGRAM_TOKEN`.
   * The guard changes nothing, because the lookup itself falls back to the default token.
   */
  function MessageToken(reg: Registry, botName: Option<string>): (t: Option<string>)
    ensures t == TokenForBot(reg, botName)
  {
    if Truthy(botName) then TokenForBot(reg, botName) else DefaultToken(reg)
  }

  /** The update holds a message with non-empty text. */
  predicate Delivered(u: Update)
  {
    !u.myChatMember && u.message.Some? && Truthy(u.message.value.text)
  }

  function ChatOf(u: Update): int
    requires Delivered(u)
  {
    u.message.value.chatId
  }

  function RawText(u: Update): string
    requires Delivered(u)
  {
    u.message.value.text.value
  }

  /**
   * A slash command in a group addressed to a bot the registry does not know. Only a text
   * naming a bot after an `@` can be ignored, and that name would select the default token.
   */
  predicate Ignored(u: Update, reg: Registry)
    requires Delivered(u)
    ensures Ignored(u, reg) ==> '@' in RawText(u) && MessageToken(reg, ExtractBotName(RawText(u))) == DefaultToken(reg)
  {
    var raw := RawText(u);
    IsGroupChat(u.message.value.chatType) && IsPrefix("/", raw)
    && Truthy(ExtractBotName(raw)) && !IsValidBotName(reg, ExtractBotName(raw))
  }

  /** A report period: one of "0".."6" after trimming queues the report and ends the flow; anything else asks again. */
  function OnPeriod(states: map<int, ChatState>, chatId: int, command: string, stored: Option<string>): (o: Outcome)
    ensures o.job.Some? ==> o.states == states - {chatId} && o.job.value.chatId == chatId && o.job.value.botToken == stored
    ensures o.job.Some? ==> o.job.value.jobType == Report && o.job.value.args != []
    ensures o.job.None? ==> o.states == states
    ensures o.reply.Some? && o.reply.value.SendMessage? && o.reply.value.token == stored
  {
    var period := Trim(command);
    if period in ReportOptions then
      Outcome(states - {chatId},
        Some(Job(chatId, NodePath, [ReportScript, "--period", period, "--ai", "true"], "/report " + period, Report, stored, false)),
        Some(SendMessage(chatId, ReportAck, stored)))
    else
      Outcome(states, None, Some(SendMessage(chatId, ReportRetry, stored)))
  }

  /** A product code: a non-blank code after trimming queues the lookup and ends the flow; a blank one asks again. */
  function OnCode(states: map<int, ChatState>, chatId: int, group: bool, command: string, stored: Option<string>): (o: Outcome)
    ensures o.job.Some? ==> o.states == states - {chatId} && o.job.value.chatId == chatId && o.job.value.botToken == stored
    ensures o.job.Some? ==> o.job.value.jobType == ProductLookup && o.job.value.args != []
    ensures o.job.None? ==> o.states == states
    ensures o.reply.Some? && o.reply.value.SendMessage? && o.reply.value.token == stored
  {
    var code := Trim(command);
    if code != "" then
      Outcome(states - {chatId},
        Some(Job(chatId, NodePath, [LookupScript, "--code", code], code, ProductLookup, stored, group)),
        Some(SendMessage(chatId, CodeAck(code), stored)))
    else
      Outcome(states, None, Some(SendMessage(chatId, CodeRetry, stored)))
  }

  /** An expense: any text queues the expense, tagged with the sender's phone, and ends the flow. */
  function OnAmount(states: map<int, ChatState>, chatId: int, from: Option<Sender>, command: string, stored: Option<string>): (o: Outcome)
    ensures o.job.Some? && o.states == states - {chatId} && o.job.value.chatId == chatId && o.job.value.botToken == stored
    ensures o.job.value.jobType == Gasto && o.job.value.args != []
    ensures o.reply.Some? && o.reply.value.SendMessage? && o.reply.value.token == stored
  {
    Outcome(states - {chatId},
      Some(Job(chatId, PythonPath, [ExpenseScript, "--mode=stdin", "--spending=" + command + " source:" + Phone(from), "--sheets"], command, Gasto, stored, false)),
      Some(SendMessage(chatId, AmountAck(command), stored)))
  }

  /** The answer to a pending flow, with the token stored when the flow started taking precedence. */
  function Answer(states: map<int, ChatState>, m: Message, command: string, token: Option<string>): (o: Outcome)
    requires m.chatId in states
    ensures o.job.Some? ==> m.chatId !in o.states && o.states == states - {m.chatId}
    ensures o.job.None? ==> o.states == states
    ensures o.job.Some? ==> o.job.value.chatId == m.chatId && o.job.value.botToken == Or(states[m.chatId].botToken, token)
    ensures o.job.Some? ==> !o.job.value.jobType.OtherType? && o.job.value.args != []
    ensures o.reply.Some? && o.reply.value.SendMessage?
  {
    var stored := Or(states[m.chatId].botToken, token);
    match states[m.chatId].state
    case WaitingForReportOption => OnPeriod(states, m.chatId, command, stored)
    case WaitingForProductCode => OnCode(states, m.chatId, IsGroupChat(m.chatType), command, stored)
    case WaitingForAmount => OnAmount(states, m.chatId, m.from, command, stored)
  }

  /** A recognised command, whatever the chat's state. */
  function Command(states: map<int, ChatState>, m: Message, raw: string, c: BotCommand, botName: Option<string>, token: Option<string>): (o: Outcome)
    ensures o.reply.Some?
    ensures forall k :: k != m.chatId ==> (k in o.states <==> k in states) && (k in states ==> o.states[k] == states[k])
    ensures o.job.Some? ==> o.job.value.chatId == m.chatId && m.chatId !in o.states && o.job.value.jobType == PagoMovil
    ensures o.job.Some? ==> o.job.value.args != []
  {
    var chatId := m.chatId;
    var group := IsGroupChat(m.chatType);
    match c
    case StartExpense =>
      Outcome(states[chatId := ChatState(WaitingForAmount, botName, token)], None, Some(SendMessage(chatId, GastoPrompt, token)))
    case QueryWuilliam =>
      var args := [PagoMovilScript, "--account=wuilliam", "--group=" + (if group then "true" else "false")];
      Outcome(states - {chatId}, Some(Job(chatId, PythonPath, args, raw, PagoMovil, token, group)), Some(SendMessage(chatId, WuilliamAck, token)))
    case QueryGilza =>
      Outcome(states - {chatId}, Some(Job(chatId, PythonPath, [PagoMovilScript, "--account=gilza"], raw, PagoMovil, token, group)), Some(SendMessage(chatId, GilzaAck, token)))
    case StartReport =>
      Outcome(states[chatId := ChatState(WaitingForReportOption, botName, token)], None, Some(SendMessage(chatId, ReportPrompt, token)))
    case StartLookup =>
      Outcome(states[chatId := ChatState(WaitingForProductCode, botName, token)], None, Some(SendMessage(chatId, CodePrompt, token)))
  }

  /**
   * One update. Whatever happens, only the update's own chat's state can change, at most one
   * job is pushed, and a chat that gets a job is left with no pending flow.
   */
  function Step(states: map<int, ChatState>, u: Update, reg: Registry): (o: Outcome)
    ensures !Delivered(u) ==> o == Outcome(states, None, None)
    ensures Delivered(u) ==> forall c :: c != ChatOf(u) ==> (c in o.states <==> c in states) && (c in states ==> o.states[c] == states[c])
    ensures o.job.Some? ==> Delivered(u) && o.job.value.chatId == ChatOf(u) && ChatOf(u) !in o.states
    ensures o.job.Some? ==> !o.job.value.jobType.OtherType? && o.job.value.args != []
  {
    if u.myChatMember || u.message.None? then Outcome(states, None, None)
    else
      var m := u.message.value;
      if !Truthy(m.text) then Outcome(states, None, None)
      else
        var raw := m.text.value;
        var botName := ExtractBotName(raw);
        var command := ExtractBaseCommand(raw);
        var token := MessageToken(reg, botName);
        if Ignored(u, reg) then Outcome(states, None, None)
        else if Recognise(command).Some? then Command(states, m, raw, Recognise(command).value, botName, token)
        else if m.chatId in states then Answer(states, m, command, token)
        else Outcome(states, None, None)
  }

  /** The message's base command, for updates that carry text. */
  function BaseCommand(u: Update): string
    requires Delivered(u)
  {
    ExtractBaseCommand(RawText(u))
  }

  /** The token the update's own message selects. */
  function UpdateToken(u: Update, reg: Registry): Option<string>
    requires Delivered(u)
  {
    MessageToken(reg, ExtractBotName(RawText(u)))
  }

  /** An update that is answered: it carries text and is not a command for another bot. */
  predicate Handled(u: Update, reg: Registry)
  {
    Delivered(u) && !Ignored(u, reg)
  }

  /** A handled update whose text is no command, from a chat with a pending flow, answers that flow. */
  lemma StepAnswers(states: map<int, ChatState>, u: Update, reg: Registry)
    requires Handled(u, reg) && !IsCommand(BaseCommand(u)) && ChatOf(u) in states
    ensures Step(states, u, reg) == Answer(states, u.message.value, BaseCommand(u), UpdateToken(u, reg))
  {
  }

  /**
   * `/gasto`, `/report` and `/consulta_codigo` replace the chat's state, whatever it was,
   * with the flow they start, remember the bot, queue nothing and prompt.
   */
  lemma StartCommandsReplaceState(states: map<int, ChatState>, u: Update, reg: Registry)
    requires Handled(u, reg) && Recognise(BaseCommand(u)) in {Some(StartExpense), Some(StartReport), Some(StartLookup)}
    ensures var o := Step(states, u, reg);
      var tag := match Recognise(BaseCommand(u)).value
                 case StartExpense => WaitingForAmount
                 case StartReport => WaitingForReportOption
                 case _ => WaitingForProductCode;
      o.job == None && o.reply.Some?
      && o.states == states[ChatOf(u) := ChatState(tag, ExtractBotName(RawText(u)), UpdateToken(u, reg))]
  {
  }

  /**
   * Each payment-lookup command queues exactly one payment job for the chat, carrying the
   * raw text and the message's bot token, and ends the chat's pending flow.
   */
  lemma PagoMovilCommandsQueueOneJob(states: map<int, ChatState>, u: Update, reg: Registry)
    requires Handled(u, reg) && Recognise(BaseCommand(u)) in {Some(QueryWuilliam), Some(QueryGilza)}
    ensures var o := Step(states, u, reg);
      && o.job.Some? && o.job.value.jobType == PagoMovil
      && o.job.value.originalMessageText == RawText(u)
      && o.job.value.botToken == UpdateToken(u, reg)
      && o.job.value.appPath == PythonPath && o.job.value.args[0] == PagoMovilScript
      && o.states == states - {ChatOf(u)}
  {
  }

  /** A text that is not a command, from a chat with a pending flow. */
  predicate Answers(states: map<int, ChatState>, u: Update, reg: Registry, tag: StateTag)
  {
    Handled(u, reg) && !IsCommand(BaseCommand(u)) && ChatOf(u) in states && states[ChatOf(u)].state == tag
  }

  /**
   * A report period: a trimmed answer in "0".."6" queues one report job for that period and
   * ends the flow; any other answer queues nothing and keeps the flow. Either way the reply
   * goes out with the token stored when the flow started, if it has one.
   */
  lemma ReportAnswer(states: map<int, ChatState>, u: Update, reg: Registry)
    requires Answers(states, u, reg, WaitingForReportOption)
    ensures var o := Step(states, u, reg);
      var period := Trim(BaseCommand(u));
      var stored := Or(states[ChatOf(u)].botToken, UpdateToken(u, reg));
      && o.reply.Some? && o.reply.value.token == stored
      && (period in ReportOptions ==>
            o.job.Some? && o.job.value.jobType == Report
            && o.job.value.args == [ReportScript, "--period", period, "--ai", "true"]
            && o.job.value.botToken == stored
            && o.states == states - {ChatOf(u)})
      && (period !in ReportOptions ==> o.job.None? && o.states == states)
  {
  }

  /**
   * A product code: a non-empty trimmed answer queues one lookup job for it and ends the
   * flow; a blank answer queues nothing and keeps the flow.
   */
  lemma ProductCodeAnswer(states: map<int, ChatState>, u: Update, reg: Registry)
    requires Answers(states, u, reg, WaitingForProductCode)
    ensures var o := Step(states, u, reg);
      var code := Trim(BaseCommand(u));
      && o.reply.Some?
      && (code != "" ==>
            o.job.Some? && o.job.value.jobType == ProductLookup
            && o.job.value.args == [LookupScript, "--code", code]
            && o.job.value.isGroupChat == IsGroupChat(u.message.value.chatType)
            && o.job.value.botToken == Or(states[ChatOf(u)].botToken, UpdateToken(u, reg))
            && o.states == states - {ChatOf(u)})
      && (code == "" ==> o.job.None? && o.states == states)
  {
  }

  /**
   * An expense: any answer queues one expense job whose spending argument is the answer
   * (the text before its first `@`) tagged with the sender's phone, and ends the flow.
   */
  lemma AmountAnswer(states: map<int, ChatState>, u: Update, reg: Registry)
    requires Answers(states, u, reg, WaitingForAmount)
    ensures var o := Step(states, u, reg);
      && o.job.Some? && o.job.value.jobType == Gasto
      && o.job.value.args == [ExpenseScript, "--mode=stdin", "--spending=" + BaseCommand(u) + " source:" + Phone(u.message.value.from), "--sheets"]
      && o.job.value.originalMessageText == BaseCommand(u)
      && o.job.value.botToken == Or(states[ChatOf(u)].botToken, UpdateToken(u, reg))
      && o.states == states - {ChatOf(u)}
  {
  }

  /**
   * The silent cases: an update without a text message, a group command for an unknown bot,
   * and a non-command text from a chat with no pending flow change nothing and send nothing.
   */
  lemma SilentUpdates(states: map<int, ChatState>, u: Update, reg: Registry)
    requires !Delivered(u) || Ignored(u, reg) || (!IsCommand(BaseCommand(u)) && ChatOf(u) !in states)
    ensures Step(states, u, reg) == Outcome(states, None, None)
  {
  }

  /**
   * An answer is consumed once: sending the same non-command text again after it queued a
   * job changes nothing, queues nothing and gets no reply.
   */
  lemma {:induction false} AnswerConsumedOnce(states: map<int, ChatState>, u: Update, reg: Registry)
    requires Delivered(u) && !IsCommand(BaseCommand(u))
    requires Step(states, u, reg).job.Some?
    ensures var after := Step(states, u, reg).states;
      Step(after, u, reg) == Outcome(after, None, None)
  {
    var after := Step(states, u, reg).states;
    assert ChatOf(u) !in after;
    SilentUpdates(after, u, reg);
  }

  /**
   * A report conversation: after `/report`, an answer from the same chat whose trimmed text
   * is a period queues one report job for that period and ends the flow; the job carries the
   * token of the bot `/report` was sent to, ahead of the one the answer names.
   */
  lemma ReportConversation(states: map<int, ChatState>, u1: Update, u2: Update, reg: Registry)
    requires Handled(u1, reg) && Recognise(BaseCommand(u1)) == Some(StartReport)
    requires Handled(u2, reg) && ChatOf(u2) == ChatOf(u1) && !IsCommand(BaseCommand(u2))
    requires Trim(BaseCommand(u2)) in ReportOptions
    ensures var o1 := Step(states, u1, reg);
      var o2 := Step(o1.states, u2, reg);
      && o1.job == None && o1.reply.Some?
      && o2.job.Some? && o2.job.value.jobType == Report
      && o2.job.value.args == [ReportScript, "--period", Trim(BaseCommand(u2)), "--ai", "true"]
      && o2.job.value.botToken == Or(UpdateToken(u1, reg), UpdateToken(u2, reg))
      && ChatOf(u1) !in o2.states
  {
    StartCommandsReplaceState(states, u1, reg);
    var o1 := Step(states, u1, reg);
    assert o1.states[ChatOf(u1)].botToken == UpdateToken(u1, reg);
    ReportAnswer(o1.states, u2, reg);
  }

  /**
   * Every job the router queues has arguments, and the runner's command line for it is the
   * program path and a blank before the quoted arguments, which read back as exactly the
   * job's arguments, whatever text the user put into the expense or the product code.
   */
  lemma QueuedCommandLine(states: map<int, ChatState>, u: Update, reg: Registry)
    requires Step(states, u, reg).job.Some?
    ensures var job := Step(states, u, reg).job.value;
      && job.args != []
      && ShellQuote.CommandLineAsync(job.appPath, job.args) == job.appPath + " " + ShellQuote.EscapedArgs(job.args)
      && ShellQuote.ReadWords(ShellQuote.EscapedArgs(job.args)) == Some(job.args)
  {
    var job := Step(states, u, reg).job.value;
    ShellQuote.EscapedArgsReadBack(job.args);
  }

  /** The serial queue and the conversation states of the bridge. */
  class Bridge {

    /** `chatStates`. */
    var chatStates: map<int, ChatState>
    /** `commandQueue` and `isProcessingCommand`. */
    const jobs: JobQueue

    constructor ()
      ensures chatStates == map[] && fresh(jobs) && jobs.queue == [] && !jobs.busy
    {
      chatStates := map[];
      jobs := new JobQueue();
    }

    /**
     * The `/telegram` handler for one update, run to completion: its state changes, the job it
     * pushes and the reply it sends are those of `Step`; the busy flag is not touched.
     */
    method HandleTelegram(u: Update, reg: Registry) returns (reply: Option<Outbound>)
      modifies this, jobs
      ensures var o := Step(old(chatStates), u, reg);
        && chatStates == o.states
        && jobs.queue == old(jobs.queue) + (if o.job.Some? then [o.job.value] else [])
        && jobs.busy == old(jobs.busy)
        && reply == o.reply
    {
      ghost var o := Step(chatStates, u, reg);
      reply := None;
      if u.myChatMember || u.message.None? {
        return;
      }
      var m := u.message.value;
      if !Truthy(m.text) {
        return;
      }
      var raw := m.text.value;
      var chatId := m.chatId;
      var group := IsGroupChat(m.chatType);
      var botName := ExtractBotName(raw);
      var command := ExtractBaseCommand(raw);
      var token := if Truthy(botName) then TokenForBot(reg, botName) else DefaultToken(reg);
      if group && IsPrefix("/", raw) && Truthy(botName) && !IsValidBotName(reg, botName) {
        assert o == Outcome(chatStates, None, None);
        return;
      }
      var c := Recognise(command);
      if c.Some? {
        assert o == Command(chatStates, m, raw, c.value, botName, token);
        reply := RunCommand(m, raw, c.value, botName, token);
        return;
      }
      if chatId in chatStates {
        assert o == Answer(chatStates, m, command, token);
        reply := RunAnswer(m, command, token);
      }
    }

    /** The branches of the recognised commands. */
    method RunCommand(m: Message, raw: string, c: BotCommand, botName: Option<string>, token: Option<string>) returns (reply: Option<Outbound>)
      modifies this, jobs
      ensures var o := Command(old(chatStates), m, raw, c, botName, token);
        && chatStates == o.states
        && jobs.queue == old(jobs.queue) + (if o.job.Some? then [o.job.value] else [])
        && jobs.busy == old(jobs.busy)
        && reply == o.reply
    {
      var chatId := m.chatId;
      var group := IsGroupChat(m.chatType);
      match c {
        case StartExpense =>
          chatStates := chatStates[chatId := ChatState(WaitingForAmount, botName, token)];
          reply := Some(SendMessage(chatId, GastoPrompt, token));
        case QueryWuilliam =>
          var args := [PagoMovilScript, "--account=wuilliam", "--group=" + (if group then "true" else "false")];
          jobs.queue := jobs.queue + [Job(chatId, PythonPath, args, raw, PagoMovil, token, group)];
          chatStates := chatStates - {chatId};
          reply := Some(SendMessage(chatId, WuilliamAck, token));
        case QueryGilza =>
          jobs.queue := jobs.queue + [Job(chatId, PythonPath, [PagoMovilScript, "--account=gilza"], raw, PagoMovil, token, group)];
          chatStates := chatStates - {chatId};
          reply := Some(SendMessage(chatId, GilzaAck, token));
        case StartReport =>
          chatStates := chatStates[chatId := ChatState(WaitingForReportOption, botName, token)];
          reply := Some(SendMessage(chatId, ReportPrompt, token));
        case StartLookup =>
          chatStates := chatStates[chatId := ChatState(WaitingForProductCode, botName, token)];
          reply := Some(SendMessage(chatId, CodePrompt, token));
      }
    }

    /** The branches of the pending flows: report period, product code, expense. */
    method RunAnswer(m: Message, command: string, token: Option<string>) returns (reply: Option<Outbound>)
      requires m.chatId in chatStates
      modifies this, jobs
      ensures var o := Answer(old(chatStates), m, command, token);
        && chatStates == o.states
        && jobs.queue == old(jobs.queue) + (if o.job.Some? then [o.job.value] else [])
        && jobs.busy == old(jobs.busy)
        && reply == o.reply
    {
      var chatId := m.chatId;
      var stored := Or(chatStates[chatId].botToken, token);
      match chatStates[chatId].state {
        case WaitingForReportOption =>
          reply := RunPeriod(chatId, command, stored);
        case WaitingForProductCode =>
          reply := RunCode(chatId, IsGroupChat(m.chatType), command, stored);
        case WaitingForAmount =>
          reply := RunAmount(chatId, m.from, command, stored);
      }
    }

    method RunPeriod(chatId: int, command: string, stored: Option<string>) returns (reply: Option<Outbound>)
      modifies this, jobs
      ensures var o := OnPeriod(old(chatStates), chatId, command, stored);
        && chatStates == o.states
        && jobs.queue == old(jobs.queue) + (if o.job.Some? then [o.job.value] else [])
        && jobs.busy == old(jobs.busy)
        && reply == o.reply
    {
      ghost var o := OnPeriod(chatStates, chatId, command, stored);
      var period := Trim(command);
      if period in ReportOptions {
        var job := Job(chatId, NodePath, [ReportScript, "--period", period, "--ai", "true"], "/report " + period, Report, stored, false);
        var ack := SendMessage(chatId, ReportAck, stored);
        assert o == Outcome(chatStates - {chatId}, Some(job), Some(ack));
        jobs.queue := jobs.queue + [job];
        chatStates := chatStates - {chatId};
        reply := Some(ack);
      } else {
        assert o == Outcome(chatStates, None, Some(SendMessage(chatId, ReportRetry, stored)));
        reply := Some(SendMessage(chatId, ReportRetry, stored));
      }
    }

    method RunCode(chatId: int, group: bool, command: string, stored: Option<string>) returns (reply: Option<Outbound>)
      modifies this, jobs
      ensures var o := OnCode(old(chatStates), chatId, group, command, stored);
        && chatStates == o.states
        && jobs.queue == old(jobs.queue) + (if o.job.Some? then [o.job.value] else [])
        && jobs.busy == old(jobs.busy)
        && reply == o.reply
    {
      ghost var o := OnCode(chatStates, chatId, group, command, stored);
      var code := Trim(command);
      if code != "" {
        var job := Job(chatId, NodePath, [LookupScript, "--code", code], code, ProductLookup, stored, group);
        var ack := SendMessage(chatId, CodeAck(code), stored);
        assert o == Outcome(chatStates - {chatId}, Some(job), Some(ack));
        jobs.queue := jobs.queue + [job];
        chatStates := chatStates - {chatId};
        reply := Some(ack);
      } else {
        assert o == Outcome(chatStates, None, Some(SendMessage(chatId, CodeRetry, stored)));
        reply := Some(SendMessage(chatId, CodeRetry, stored));
      }
    }

    method RunAmount(chatId: int, from: Option<Sender>, command: string, stored: Option<string>) returns (reply: Option<Outbound>)
      modifies this, jobs
      ensures var o := OnAmount(old(chatStates), chatId, from, command, stored);
        && chatStates == o.states
        && jobs.queue == old(jobs.queue) + (if o.job.Some? then [o.job.value] else [])
        && jobs.busy == old(jobs.busy)
        && reply == o.reply
    {
      var job := Job(chatId, PythonPath, [ExpenseScript, "--mode=stdin", "--spending=" + command + " source:" + Phone(from), "--sheets"], command, Gasto, stored, false);
      var ack := SendMessage(chatId, AmountAck(command), stored);
      assert OnAmount(chatStates, chatId, from, command, stored) == Outcome(chatStates - {chatId}, Some(job), Some(ack));
      jobs.queue := jobs.queue + [job];
      chatStates := chatStates - {chatId};
      reply := Some(ack);
    }
  }
}
