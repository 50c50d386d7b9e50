/**
 * Jobs of the serial queue, what the process runner settles with, and the messages the
 * bridge sends back to a chat.
 */
module Jobs {

  import opened Options
  import Markdown

  /** `jobType`: the four kinds the router creates, and any other tag. */
  datatype JobType = Gasto | PagoMovil | Report | ProductLookup | OtherType(tag: string)

  /** A queued job. `isGroupChat` is false where the router leaves it undefined. */
  datatype Job = Job(
    chatId: int,
    appPath: string,
    args: seq<string>,
    originalMessageText: string,
    jobType: JobType,
    botToken: Option<string>,
    isGroupChat: bool)

  /**
   * How `runCommandAsync` settles: resolved with the standard output, or rejected with the
   * execution error's message (`None` for `error: null`) and the standard error.
   */
  datatype ProcessResult =
    | Resolved(stdout: string)
    | Rejected(error: Option<string>, stderr: string)

  /**
   * The `exec` callback of `runCommandAsync`: an execution error rejects, so does any output
   * on standard error; only a clean run resolves, and then with its standard output.
   */
  function Settle(execError: Option<string>, stdout: string, stderr: string): (r: ProcessResult)
    ensures r.Resolved? <==> execError.None? && stderr == ""
    ensures r.Resolved? ==> r.stdout == stdout
    ensures r.Rejected? ==> r.error == execError && r.stderr == stderr
  {
    if execError.Some? then Rejected(execError, stderr)
    else if stderr != "" then Rejected(None, stderr)
    else Resolved(stdout)
  }

  /**
   * A message to a chat: `sendTelegramMessage`, or the `sendPhoto` call of
   * `sendProductDetails`; the text is held as composed, before escaping.
   */
  datatype Outbound =
    | SendMessage(chatId: int, text: string, token: Option<string>)
    | SendPhoto(chatId: int, photo: string, caption: string, token: Option<string>)

  /**
   * The text as the Bot API receives it: escaped for MarkdownV2, so that reading the escapes
   * back gives exactly the text as composed.
   */
  function WireText(o: Outbound): (r: string)
    ensures Markdown.Unescape(r) == if o.SendMessage? then o.text else o.caption
  {
    var text := if o.SendMessage? then o.text else o.caption;
    Markdown.UnescapeEscape(text);
    Markdown.EscapeMarkdownV2(text)
  }
}
