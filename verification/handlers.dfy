/** The second-generation handler framework: a handler decides whether it
    takes a message and may answer it. The two built-in handlers are
    modelled: the logging handler (it takes every message while enabled and
    never answers) and the echo handler (it takes messages that start with
    its prefix and answers with the rest). */
module Handlers {
  import opened Outcomes
  import opened Text
  import opened Exceptions
  import opened Context

  /** `LoggingConfig`; the log level only chooses the logger's level. */
  datatype LoggingConfig = LoggingConfig(enabled: bool := true, logLevel: string := "INFO")

  /** `EchoConfig`: the prefix is at least one character. */
  datatype EchoConfig = EchoConfig(prefix: string)

  /** `EchoConfig(prefix=...)`. */
  function NewEchoConfig(prefix: string := "echo:"): (r: Result<EchoConfig, Error>)
    ensures r.Ok? <==> |prefix| >= 1
    ensures r.Ok? ==> r.value.prefix == prefix
    ensures r.Err? ==> r.error.kind == ValueError
  {
    if |prefix| < 1 then Err(Raise(ValueError, "String should have at least 1 character")) else Ok(EchoConfig(prefix))
  }

  /** The default echo prefix is accepted. */
  lemma DefaultEchoConfig()
    ensures NewEchoConfig().Ok? && NewEchoConfig().value.prefix == "echo:"
  {
  }

  datatype Handler =
    | LoggingHandler(logging: LoggingConfig)
    | EchoHandler(echo: EchoConfig)

  /** `can_handle`. */
  function CanHandle(h: Handler, ctx: MessageContext): bool
  {
    match h
    case LoggingHandler(config) => config.enabled
    case EchoHandler(config) => StartsWith(ctx.content, config.prefix)
  }

  /** `content[n:]`: empty when `n` is past the end. */
  function Drop(s: string, n: nat): string
  {
    if n <= |s| then s[n..] else ""
  }

  /** `handle`: the logging handler answers nothing; the echo handler
      answers the content after its prefix, stripped. */
  function Handle(h: Handler, ctx: MessageContext): Option<string>
  {
    match h
    case LoggingHandler(_) => None
    case EchoHandler(config) => Some(Strip(Drop(ctx.content, |config.prefix|)))
  }

  /** The logging handler takes a message exactly when enabled, and never
      answers. */
  lemma LoggingHandlerSpec(config: LoggingConfig, ctx: MessageContext)
    ensures CanHandle(LoggingHandler(config), ctx) <==> config.enabled
    ensures Handle(LoggingHandler(config), ctx).None?
  {
  }

  /** The echo handler takes a message exactly when it starts with the
      prefix, and then answers what follows the prefix, stripped. */
  lemma EchoHandlerSpec(config: EchoConfig, ctx: MessageContext)
    ensures CanHandle(EchoHandler(config), ctx) <==> StartsWith(ctx.content, config.prefix)
    ensures CanHandle(EchoHandler(config), ctx) ==>
              exists rest :: ctx.content == config.prefix + rest && Handle(EchoHandler(config), ctx) == Some(Strip(rest))
  {
    if StartsWith(ctx.content, config.prefix) {
      var rest := Drop(ctx.content, |config.prefix|);
      assert ctx.content == config.prefix + rest;
    }
  }

  /** The echo answer is a piece of the content after the prefix with
      only whitespace around it. */
  lemma EchoAnswerSlice(config: EchoConfig, ctx: MessageContext)
    requires CanHandle(EchoHandler(config), ctx)
    ensures exists a, b :: |config.prefix| <= a <= b <= |ctx.content|
              && Handle(EchoHandler(config), ctx) == Some(ctx.content[a..b])
              && IsBlank(ctx.content[|config.prefix|..a]) && IsBlank(ctx.content[b..])
  {
    var n := |config.prefix|;
    var a, b := StripSuffixBounds(ctx.content, n);
    assert Handle(EchoHandler(config), ctx) == Some(Strip(ctx.content[n..]));
  }
}
