/** The third-generation handler router (`HandlerRouter`): it asks its
    handlers in list order and returns the answer of the first one that
    takes the message. A handler that raises, whether deciding or
    answering, is passed over. The handlers are modelled as pairs of
    functions of the message context, each returning its value or the
    error it raises; the context's type is left as a parameter. */
module HandlersRouter {
  import opened Outcomes
  import opened Exceptions

  datatype Responder<-C> = Responder(canHandle: C -> Result<bool, Error>, handle: C -> Result<Option<string>, Error>)

  /** The handler takes the message and answers without raising. */
  predicate Answers<C>(h: Responder<C>, ctx: C)
  {
    h.canHandle(ctx) == Ok(true) && h.handle(ctx).Ok?
  }

  class HandlerRouter<C> {
    const handlers: seq<Responder<C>>

    constructor (handlers: seq<Responder<C>>)
      ensures this.handlers == handlers
    {
      this.handlers := handlers;
    }

    /** `route`: the answer of the first handler that takes the message
        without raising, or nothing when none does. */
    method Route(ctx: C) returns (r: Option<string>)
      ensures (forall i :: 0 <= i < |handlers| ==> !Answers(handlers[i], ctx)) ==> r == None
      ensures forall i :: (0 <= i < |handlers| && Answers(handlers[i], ctx)
                             && forall j :: 0 <= j < i ==> !Answers(handlers[j], ctx))
                          ==> r == handlers[i].handle(ctx).value
    {
      for i := 0 to |handlers|
        invariant forall j :: 0 <= j < i ==> !Answers(handlers[j], ctx)
      {
        var decided := handlers[i].canHandle(ctx);
        if decided.Ok? && decided.value {
          var response := handlers[i].handle(ctx);
          if response.Ok? {
            return response.value;
          }
        }
      }
      return None;
    }
  }
}
