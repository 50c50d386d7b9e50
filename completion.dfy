/**
 * What `processCommandQueue` sends when a job's process settles: one reply chosen by the
 * job's type and the outcome, addressed to the job's chat with the job's bot token.
 */
module Completion {

  import opened Options
  import opened Text
  import opened BotIdentity
  import opened Jobs
  import opened ProductCard

  const SaldoMarker: string := "💳 Saldo:"
  const PagoMovilHeader: string := "💳 *Transacciones PagoMóvil - BBVA Provincial*\n\n"
  const PagoMovilFailure: string := "❌ Error inesperado buscando pagomovil: Error desconocido"
  const ReportHeader: string := "📊 Reporte generado:\n\n"

  /** The lines that do not contain the balance marker, in their order. */
  function KeepNonSaldo(ls: seq<string>): (r: seq<string>)
    ensures |r| <= |ls|
    ensures forall i :: 0 <= i < |r| ==> !Contains(r[i], SaldoMarker)
    ensures forall i :: 0 <= i < |r| ==> r[i] in ls
  {
    if ls == [] then []
    else (if Contains(ls[0], SaldoMarker) then [] else [ls[0]]) + KeepNonSaldo(ls[1..])
  }

  /**
   * `output.split('\n').filter(line => !line.includes(marker)).join('\n')`. An output with
   * no balance line is left exactly as it is.
   */
  function WithoutSaldo(output: string): (r: string)
    ensures (forall i :: 0 <= i < |Split(output, '\n')| ==> !Contains(Split(output, '\n')[i], SaldoMarker)) ==>
      r == output
  {
    KeepNonSaldoKeepsClean(Split(output, '\n'));
    JoinSplit(output, '\n');
    Join(KeepNonSaldo(Split(output, '\n')), '\n')
  }

  /** Filtering works line by line: it distributes over concatenation, so order is kept. */
  lemma {:induction false} KeepNonSaldoConcat(a: seq<string>, b: seq<string>)
    ensures KeepNonSaldo(a + b) == KeepNonSaldo(a) + KeepNonSaldo(b)
  {
    if a != [] {
      KeepNonSaldoConcat(a[1..], b);
      assert (a + b)[1..] == a[1..] + b;
    } else {
      assert a + b == b;
    }
  }

  /** Every line without the marker is kept, and lines without it are kept as they are. */
  lemma {:induction false} KeepNonSaldoKeepsClean(ls: seq<string>)
    ensures forall i :: 0 <= i < |ls| && !Contains(ls[i], SaldoMarker) ==> ls[i] in KeepNonSaldo(ls)
    ensures (forall i :: 0 <= i < |ls| ==> !Contains(ls[i], SaldoMarker)) ==> KeepNonSaldo(ls) == ls
  {
    if ls != [] {
      KeepNonSaldoKeepsClean(ls[1..]);
      assert forall i :: 1 <= i < |ls| ==> ls[i] == ls[1..][i - 1];
      assert ls == [ls[0]] + ls[1..];
    }
  }

  /**
   * The filtered output consists of exactly the kept lines (a single empty line when none
   * is kept), so the balance lines are gone and the others stay, in order.
   */
  lemma SaldoLinesRemoved(output: string)
    ensures Split(WithoutSaldo(output), '\n') ==
      if KeepNonSaldo(Split(output, '\n')) == [] then [""] else KeepNonSaldo(Split(output, '\n'))
  {
    var kept := KeepNonSaldo(Split(output, '\n'));
    if kept != [] {
      forall i | 0 <= i < |kept| ensures '\n' !in kept[i] {
        assert kept[i] in Split(output, '\n');
      }
      SplitJoin(kept, '\n');
    }
  }

  /** The token a reply goes out with: `botToken || TELEGRAM_TOKEN`. */
  function ReplyToken(job: Job, reg: Registry): (t: Option<string>)
    ensures Truthy(job.botToken) ==> t == job.botToken
    ensures !Truthy(job.botToken) ==> t == DefaultToken(reg)
  {
    Or(job.botToken, DefaultToken(reg))
  }

  /**
   * What a failed expense, report or lookup job reports: the execution error's message when
   * it has one, else the standard error when there is some, else that the cause is unknown.
   */
  function FailureText(withError: string, withStderr: string, unknown: string, error: Option<string>, stderr: string): string
  {
    if Truthy(error) then withError + error.value
    else if stderr != "" then withStderr + stderr
    else unknown
  }

  predicate ReportsCause(t: JobType)
  {
    t.Gasto? || t.Report? || t.ProductLookup?
  }

  /** The text before an execution error's message. */
  function WithErrorPrefix(job: Job): string
    requires ReportsCause(job.jobType)
  {
    match job.jobType
    case Gasto => "❌ Error al registrar " + Quoted(job.originalMessageText) + ": "
    case Report => "❌ Error al generar el reporte: "
    case ProductLookup => "❌ Error al consultar el producto: "
  }

  /** The text before the standard error. */
  function WithStderrPrefix(job: Job): string
    requires ReportsCause(job.jobType)
  {
    match job.jobType
    case Gasto => "⚠️ Error (stderr) al registrar " + Quoted(job.originalMessageText) + ": "
    case Report => "⚠️ Error (stderr) al generar el reporte: "
    case ProductLookup => "⚠️ Error (stderr) al consultar el producto: "
  }

  /** The "unknown error" reply of each job type that names a cause. */
  function UnknownFailure(job: Job): string
    requires ReportsCause(job.jobType)
  {
    match job.jobType
    case Gasto => "❌ Error desconocido al registrar " + Quoted(job.originalMessageText)
    case Report => "❌ Error desconocido al generar el reporte"
    case ProductLookup => "❌ Error desconocido al consultar el producto"
  }

  /** The failure reply of a job type that names a cause. */
  function JobFailure(job: Job, error: Option<string>, stderr: string): string
    requires ReportsCause(job.jobType)
  {
    FailureText(WithErrorPrefix(job), WithStderrPrefix(job), UnknownFailure(job), error, stderr)
  }

  function Quoted(s: string): string
  {
    "\"" + s + "\""
  }

  /** The text of an expense, payment or report job's reply. */
  function JobText(job: Job, outcome: ProcessResult): string
    requires !job.jobType.OtherType? && !job.jobType.ProductLookup?
  {
    var orig := job.originalMessageText;
    match job.jobType
    case PagoMovil =>
      if outcome.Resolved? then
        PagoMovilHeader + (if job.isGroupChat then WithoutSaldo(outcome.stdout) else outcome.stdout)
      else PagoMovilFailure
    case Gasto =>
      if outcome.Resolved? then "✅ Gasto " + Quoted(orig) + " registrado con éxito! 💰"
      else JobFailure(job, outcome.error, outcome.stderr)
    case Report =>
      if outcome.Resolved? then ReportHeader + outcome.stdout
      else JobFailure(job, outcome.error, outcome.stderr)
  }

  /** `sendProductDetails`: a photo with the card as caption when there is an image, else the card as text. */
  function ProductReply(chatId: int, card: Card, token: Option<string>): Outbound
  {
    if card.imageUrl.Some? then SendPhoto(chatId, card.imageUrl.value, card.message, token)
    else SendMessage(chatId, card.message, token)
  }

  /**
   * The reply to a settled job; `parse` stands for `JSON.parse` of a lookup's output. A job
   * of none of the four types runs nothing and gets no reply.
   */
  function CompletionReply(job: Job, outcome: ProcessResult, reg: Registry, parse: string -> Parsed): (r: Option<Outbound>)
    ensures r.None? <==> job.jobType.OtherType?
    ensures r.Some? ==> r.value.chatId == job.chatId && r.value.token == ReplyToken(job, reg)
    ensures r.Some? && r.value.SendPhoto? ==> job.jobType.ProductLookup? && outcome.Resolved?
  {
    var token := ReplyToken(job, reg);
    match job.jobType
    case OtherType(_) => None
    case ProductLookup =>
      if outcome.Resolved? then
        Some(ProductReply(job.chatId, ParseProductLookup(parse(outcome.stdout), job.isGroupChat), token))
      else
        Some(SendMessage(job.chatId, JobFailure(job, outcome.error, outcome.stderr), token))
    case _ => Some(SendMessage(job.chatId, JobText(job, outcome), token))
  }

  /**
   * A failed payment lookup always gets the same reply, whatever the failure: the reply reads
   * a `message` field that the rejections of the runner never carry.
   */
  lemma PagoMovilFailureIgnoresCause(job: Job, e1: Option<string>, s1: string, e2: Option<string>, s2: string, reg: Registry, parse: string -> Parsed)
    requires job.jobType == PagoMovil
    ensures CompletionReply(job, Rejected(e1, s1), reg, parse) == CompletionReply(job, Rejected(e2, s2), reg, parse)
    ensures CompletionReply(job, Rejected(e1, s1), reg, parse) == Some(SendMessage(job.chatId, PagoMovilFailure, ReplyToken(job, reg)))
  {
  }

  /** A successful expense job confirms the expense, naming the message it was taken from. */
  lemma ExpenseConfirmation(job: Job, stdout: string, reg: Registry, parse: string -> Parsed)
    requires job.jobType == Gasto
    ensures CompletionReply(job, Resolved(stdout), reg, parse)
      == Some(SendMessage(job.chatId, "✅ Gasto \"" + job.originalMessageText + "\" registrado con éxito! 💰", ReplyToken(job, reg)))
  {
    Wrapped("✅ Gasto ", "\"", job.originalMessageText, " registrado con éxito! 💰");
    assert "✅ Gasto " + "\"" == "✅ Gasto \"";
    assert "\"" + " registrado con éxito! 💰" == "\" registrado con éxito! 💰";
  }

  /** Text wrapped in a delimiter inside a sentence reads the same grouped either way. */
  lemma Wrapped<T>(pre: seq<T>, q: seq<T>, s: seq<T>, post: seq<T>)
    ensures pre + (q + s + q) + post == (pre + q) + s + (q + post)
  {
  }

  /** A successful report job sends the header followed by the report program's whole output. */
  lemma ReportListing(job: Job, stdout: string, reg: Registry, parse: string -> Parsed)
    requires job.jobType == Report
    ensures var r := CompletionReply(job, Resolved(stdout), reg, parse);
      r == Some(SendMessage(job.chatId, ReportHeader + stdout, ReplyToken(job, reg)))
      && r.value.text[|ReportHeader|..] == stdout
  {
  }

  /**
   * A successful payment lookup lists the output after the header: unchanged in a private
   * chat; in a group, exactly its lines without the balance marker, in order.
   */
  lemma PagoMovilListing(job: Job, stdout: string, reg: Registry, parse: string -> Parsed)
    requires job.jobType == PagoMovil
    ensures var r := CompletionReply(job, Resolved(stdout), reg, parse);
      r.Some? && r.value.SendMessage? && IsPrefix(PagoMovilHeader, r.value.text)
    ensures var r := CompletionReply(job, Resolved(stdout), reg, parse);
      var listing := r.value.text[|PagoMovilHeader|..];
      if job.isGroupChat then
        Split(listing, '\n') == (if KeepNonSaldo(Split(stdout, '\n')) == [] then [""] else KeepNonSaldo(Split(stdout, '\n')))
      else listing == stdout
  {
    var listing := if job.isGroupChat then WithoutSaldo(stdout) else stdout;
    var text := PagoMovilHeader + listing;
    assert text[..|PagoMovilHeader|] == PagoMovilHeader;
    assert text[|PagoMovilHeader|..] == listing;
    SaldoLinesRemoved(stdout);
  }

  /**
   * The cause an expense, report or lookup failure names: the error's message first, then
   * the standard error; `None` when neither is there.
   */
  function FailureCause(error: Option<string>, stderr: string): Option<string>
  {
    if Truthy(error) then error else if stderr != "" then Some(stderr) else None
  }

  /**
   * The failure reply of the expense, report and lookup jobs ends with the cause when there is
   * one, and is the fixed "unknown error" text of its job type when there is none.
   */
  lemma FailureNamesCause(job: Job, error: Option<string>, stderr: string, reg: Registry, parse: string -> Parsed)
    requires ReportsCause(job.jobType)
    ensures var r := CompletionReply(job, Rejected(error, stderr), reg, parse);
      r.Some? && r.value.SendMessage?
    ensures var text := CompletionReply(job, Rejected(error, stderr), reg, parse).value.text;
      var cause := FailureCause(error, stderr);
      (cause.Some? ==> |text| >= |cause.value| && text[|text| - |cause.value|..] == cause.value)
      && (cause.None? ==> text == UnknownFailure(job))
  {
    assert CompletionReply(job, Rejected(error, stderr), reg, parse).value.text == JobFailure(job, error, stderr);
    FailureTextNamesCause(WithErrorPrefix(job), WithStderrPrefix(job), UnknownFailure(job), error, stderr);
  }

  lemma FailureTextNamesCause(withError: string, withStderr: string, unknown: string, error: Option<string>, stderr: string)
    ensures var text := FailureText(withError, withStderr, unknown, error, stderr);
      var cause := FailureCause(error, stderr);
      (cause.Some? ==> |text| >= |cause.value| && text[|text| - |cause.value|..] == cause.value)
      && (cause.None? ==> text == unknown)
  {
    if Truthy(error) {
      assert (withError + error.value)[|withError|..] == error.value;
    } else if stderr != "" {
      assert (withStderr + stderr)[|withStderr|..] == stderr;
    }
  }

  /** A successful lookup is sent as a photo exactly when the card has an image. */
  lemma ProductLookupReply(job: Job, stdout: string, reg: Registry, parse: string -> Parsed)
    requires job.jobType == ProductLookup
    ensures var card := ParseProductLookup(parse(stdout), job.isGroupChat);
      var r := CompletionReply(job, Resolved(stdout), reg, parse);
      r.Some? && (r.value.SendPhoto? <==> card.imageUrl.Some?)
      && (r.value.SendPhoto? ==> r.value.photo == card.imageUrl.value && r.value.caption == card.message)
      && (r.value.SendMessage? ==> r.value.text == card.message)
  {
  }
}
