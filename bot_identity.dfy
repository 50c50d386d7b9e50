/**
 * Bot identities: a command may be addressed as `/command@botname`; the part before the
 * first `@` is the command, the part after it names the bot, and the name selects an
 * authentication token from the registry, falling back to the default bot's token.
 */
module BotIdentity {

  import opened Options
  import opened Text

  /**
   * BOT_TOKENS: lower-cased bot name to token. The key `default` holds TELEGRAM_TOKEN;
   * it is absent when that variable is unset (the entry is then `undefined`).
   */
  type Registry = map<string, string>

  const DefaultKey: string := "default"

  /** TELEGRAM_TOKEN, i.e. `BOT_TOKENS.default`. */
  function DefaultToken(reg: Registry): (t: Option<string>)
    ensures t.Some? <==> DefaultKey in reg
  {
    if DefaultKey in reg then Some(reg[DefaultKey]) else None
  }

  /** `indexOf('@')`, with `None` for -1. */
  function FirstAt(s: string): (r: Option<nat>)
    ensures r.None? <==> '@' !in s
    ensures r.Some? ==> r.value < |s| && s[r.value] == '@' && '@' !in s[..r.value]
  {
    if s == [] then None
    else if s[0] == '@' then Some(0)
    else
      match FirstAt(s[1..])
      case None => None
      case Some(k) =>
        assert s[..k + 1] == [s[0]] + s[1..][..k];
        Some(k + 1)
  }

  /** `extractBotName`: the lower-cased text after the first `@`, or null. */
  function ExtractBotName(command: string): (r: Option<string>)
    ensures r.None? <==> '@' !in command
    ensures r.Some? ==> |r.value| < |command| && forall i :: 0 <= i < |r.value| ==> !IsUpper(r.value[i])
  {
    match FirstAt(command)
    case None => None
    case Some(k) =>
      ToLowerHasNoUpper(command[k + 1..]);
      Some(ToLower(command[k + 1..]))
  }

  /** `extractBaseCommand`: the text before the first `@`, or the whole command. */
  function ExtractBaseCommand(command: string): (r: string)
    ensures IsPrefix(r, command) && '@' !in r
  {
    match FirstAt(command)
    case None => command
    case Some(k) => command[..k]
  }

  /** A command without `@` is its own base and names no bot. */
  lemma CommandWithoutBot(command: string)
    requires '@' !in command
    ensures ExtractBaseCommand(command) == command
    ensures ExtractBotName(command) == None
  {
  }

  /**
   * Splitting at the first `@`: for every `base` free of `@` and every `suffix`
   * (which may hold more `@`), the base command is `base` and the bot name is the
   * lower-cased `suffix`.
   */
  lemma CommandSplit(base: string, suffix: string)
    requires '@' !in base
    ensures ExtractBaseCommand(base + "@" + suffix) == base
    ensures ExtractBotName(base + "@" + suffix) == Some(ToLower(suffix))
  {
    var c := base + "@" + suffix;
    var k := FirstAt(c).value;
    assert c[|base|] == '@';
    assert !(k < |base|);
    assert !(k > |base|);
    assert c[..|base|] == base;
    assert c[|base| + 1..] == suffix;
  }

  /** Every command with an `@` is its base, the `@`, and the text the bot name comes from. */
  lemma CommandReassembles(command: string)
    requires '@' in command
    ensures exists suffix ::
      ExtractBaseCommand(command) + "@" + suffix == command && ExtractBotName(command) == Some(ToLower(suffix))
  {
    var k := FirstAt(command).value;
    var suffix := command[k + 1..];
    assert command[..k] + "@" + suffix == command;
    assert ExtractBaseCommand(command) + "@" + suffix == command && ExtractBotName(command) == Some(ToLower(suffix));
  }

  /**
   * `isValidBotName`: a non-empty name whose lower-cased form is a registry key. A name
   * that is not valid can only select the default token.
   */
  predicate IsValidBotName(reg: Registry, botName: Option<string>)
    ensures !IsValidBotName(reg, botName) ==> TokenForBot(reg, botName) == DefaultToken(reg)
  {
    Truthy(botName) && ToLower(botName.value) in reg
  }

  /** `getTokenForBot`: the named bot's token when it is set and non-empty, the default token otherwise. */
  function TokenForBot(reg: Registry, botName: Option<string>): (t: Option<string>)
    ensures t == DefaultToken(reg)
      || (Truthy(botName) && ToLower(botName.value) in reg && reg[ToLower(botName.value)] != ""
          && t == Some(reg[ToLower(botName.value)]))
  {
    if !Truthy(botName) then DefaultToken(reg)
    else
      var key := ToLower(botName.value);
      Or(if key in reg then Some(reg[key]) else None, DefaultToken(reg))
  }

  /**
   * The token a bot name selects: the registry's own entry when the name is valid and its
   * token non-empty; the default token in every other case.
   */
  lemma TokenSelection(reg: Registry, botName: Option<string>)
    ensures IsValidBotName(reg, botName) && reg[ToLower(botName.value)] != "" ==>
      TokenForBot(reg, botName) == Some(reg[ToLower(botName.value)])
    ensures !(IsValidBotName(reg, botName) && reg[ToLower(botName.value)] != "") ==>
      TokenForBot(reg, botName) == DefaultToken(reg)
  {
  }

  /** Bot names are matched without regard to case. */
  lemma {:induction false} TokenForBotIgnoresCase(reg: Registry, name: string)
    ensures TokenForBot(reg, Some(name)) == TokenForBot(reg, Some(ToLower(name)))
    ensures IsValidBotName(reg, Some(name)) == IsValidBotName(reg, Some(ToLower(name)))
  {
    ToLowerIdempotent(name);
  }
}
