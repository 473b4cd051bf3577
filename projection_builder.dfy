/**
 * The persistent projection builder: a fluent registry of (message type, projector)
 * entries. Every registration returns a new builder whose entries are the old ones
 * with exactly one entry appended; a builder value is never changed.
 *
 * The message type is an opaque token `Ty` standing for `typeof(TMessage)`. The cast
 * `(TMessage) message` inside each stored projector becomes the projector's
 * precondition: it may only be applied to messages that carry its entry's token.
 */
module Projection {
  import opened Wrappers

  /** An incoming message: `ty` is its runtime type, `body` everything else about it. */
  datatype Message<Ty, Body> = Message(ty: Ty, body: Body)

  /** A stored handler entry: the message type and the untyped projector for it. */
  datatype Handler<!Ty, !Body, Cmd> = Handler(messageType: Ty, projector: Message<Ty, Body> --> seq<Cmd>)

  /** The exception a registration throws; `paramName` is the argument that was null. */
  datatype Error = ArgumentNull(paramName: string)

  /** The projector can be applied to every message whose type is the entry's type. */
  ghost predicate AcceptsOwnType<Ty(!new), Body(!new), Cmd>(h: Handler<Ty, Body, Cmd>)
  {
    forall m: Message<Ty, Body> | m.ty == h.messageType :: h.projector.requires(m)
  }

  /** Every entry of the table can be applied to every message of the type it was registered for. */
  ghost predicate WellTyped<Ty(!new), Body(!new), Cmd>(hs: seq<Handler<Ty, Body, Cmd>>)
  {
    forall i :: 0 <= i < |hs| ==> AcceptsOwnType(hs[i])
  }

  /** `after` is `before` with exactly one entry, for message type `token`, appended. */
  ghost predicate AppendsOne<Ty(!new), Body(!new), Cmd>(before: seq<Handler<Ty, Body, Cmd>>, after: seq<Handler<Ty, Body, Cmd>>, token: Ty)
  {
    && |after| == |before| + 1
    && after[..|before|] == before
    && after[|before|].messageType == token
    && AcceptsOwnType(after[|before|])
  }

  /** The entry projects every message of its type to one command, the typed handler's result. */
  ghost predicate ProjectsSingle<Ty(!new), Body(!new), Cmd>(h: Handler<Ty, Body, Cmd>, handler: Message<Ty, Body> -> Cmd)
  {
    forall m: Message<Ty, Body> | m.ty == h.messageType ::
      h.projector.requires(m) && h.projector(m) == [handler(m)]
  }

  /** The entry projects every message of its type to exactly the typed handler's commands. */
  ghost predicate ProjectsMany<Ty(!new), Body(!new), Cmd>(h: Handler<Ty, Body, Cmd>, handler: Message<Ty, Body> -> seq<Cmd>)
  {
    forall m: Message<Ty, Body> | m.ty == h.messageType ::
      h.projector.requires(m) && h.projector(m) == handler(m)
  }

  /** A builder: the handler entries registered so far, in registration order. */
  datatype Builder<!Ty(==, !new), !Body(!new), Cmd> = Builder(handlers: seq<Handler<Ty, Body, Cmd>>)
  {
    /**
     * The accumulated entries, in registration order. What they are is stated by the
     * constructors and the `When` overloads; this contract says they are the builder's
     * whole state: a builder made from them is this builder.
     */
    function Build(): (r: seq<Handler<Ty, Body, Cmd>>)
      ensures Builder(r) == this
    {
      handlers
    }

    /**
     * `When` with a handler returning one command: the stored projector wraps the
     * command into a one-element sequence.
     */
    function WhenSingle(token: Ty, handler: Option<Message<Ty, Body> -> Cmd>): (r: Result<Builder<Ty, Body, Cmd>, Error>)
      ensures handler.None? <==> r == Failure(ArgumentNull("handler"))
      ensures handler.Some? ==> r.Success? && AppendsOne(Build(), r.value.Build(), token)
      ensures handler.Some? ==> r.Success? && ProjectsSingle(r.value.Build()[|Build()|], handler.value)
    {
      match handler
      case None => Failure(ArgumentNull("handler"))
      case Some(h) =>
        var projector := (m: Message<Ty, Body>) requires m.ty == token => [h(m)];
        Success(Builder(handlers + [Handler(token, projector)]))
    }

    /** `When` with a handler returning an array of commands, passed through unchanged. */
    function WhenArray(token: Ty, handler: Option<Message<Ty, Body> -> seq<Cmd>>): (r: Result<Builder<Ty, Body, Cmd>, Error>)
      ensures handler.None? <==> r == Failure(ArgumentNull("handler"))
      ensures handler.Some? ==> r.Success? && AppendsOne(Build(), r.value.Build(), token)
      ensures handler.Some? ==> r.Success? && ProjectsMany(r.value.Build()[|Build()|], handler.value)
    {
      match handler
      case None => Failure(ArgumentNull("handler"))
      case Some(h) =>
        var projector := (m: Message<Ty, Body>) requires m.ty == token => h(m);
        Success(Builder(handlers + [Handler(token, projector)]))
    }

    /**
     * `When` with a handler returning an enumeration of commands, passed through
     * unchanged. An enumeration is modelled as the finite sequence it yields.
     */
    function WhenEnumerable(token: Ty, handler: Option<Message<Ty, Body> -> seq<Cmd>>): (r: Result<Builder<Ty, Body, Cmd>, Error>)
      ensures handler.None? <==> r == Failure(ArgumentNull("handler"))
      ensures handler.Some? ==> r.Success? && AppendsOne(Build(), r.value.Build(), token)
      ensures handler.Some? ==> r.Success? && ProjectsMany(r.value.Build()[|Build()|], handler.value)
      ensures r == WhenArray(token, handler)
    {
      match handler
      case None => Failure(ArgumentNull("handler"))
      case Some(h) =>
        var projector := (m: Message<Ty, Body>) requires m.ty == token => h(m);
        Success(Builder(handlers + [Handler(token, projector)]))
    }
  }

  /** The constructor taking a handler array: a null array is rejected. */
  function FromHandlers<Ty(==, !new), Body(!new), Cmd>(handlers: Option<seq<Handler<Ty, Body, Cmd>>>): (r: Result<Builder<Ty, Body, Cmd>, Error>)
    ensures handlers.None? <==> r == Failure(ArgumentNull("handlers"))
    ensures handlers.Some? ==> r.Success? && r.value.Build() == handlers.value
  {
    match handlers
    case None => Failure(ArgumentNull("handlers"))
    case Some(hs) => Success(Builder(hs))
  }

  /** The parameterless constructor: it delegates to `FromHandlers` with an empty array. */
  function NewBuilder<Ty(==, !new), Body(!new), Cmd>(): (b: Builder<Ty, Body, Cmd>)
    ensures FromHandlers(Some([])) == Success(b)
    ensures b.Build() == []
  {
    var r := FromHandlers<Ty, Body, Cmd>(Some([]));
    r.value
  }

  /** One registration call in a fluent chain: which `When` overload, for which type, with which handler. */
  datatype Registration<!Ty(==, !new), !Body(!new), Cmd> =
    | Single(token: Ty, single: Option<Message<Ty, Body> -> Cmd>)
    | Array(token: Ty, array: Option<Message<Ty, Body> -> seq<Cmd>>)
    | Enumerable(token: Ty, enumerable: Option<Message<Ty, Body> -> seq<Cmd>>)
  {
    /** The handler argument was null. */
    predicate IsNull()
    {
      match this
      case Single(_, h) => h.None?
      case Array(_, h) => h.None?
      case Enumerable(_, h) => h.None?
    }

    /** How an entry registered by this call projects a message of its type. */
    ghost predicate ProjectedBy(h: Handler<Ty, Body, Cmd>)
    {
      match this
      case Single(_, g) => g.Some? && ProjectsSingle(h, g.value)
      case Array(_, g) => g.Some? && ProjectsMany(h, g.value)
      case Enumerable(_, g) => g.Some? && ProjectsMany(h, g.value)
    }
  }

  /** Applies one registration call to a builder. */
  function Register<Ty(==, !new), Body(!new), Cmd>(b: Builder<Ty, Body, Cmd>, reg: Registration<Ty, Body, Cmd>): Result<Builder<Ty, Body, Cmd>, Error>
  {
    match reg
    case Single(t, h) => b.WhenSingle(t, h)
    case Array(t, h) => b.WhenArray(t, h)
    case Enumerable(t, h) => b.WhenEnumerable(t, h)
  }

  /** Applies a chain of registration calls left to right; the first null handler throws and ends the chain. */
  function RegisterAll<Ty(==, !new), Body(!new), Cmd>(b: Builder<Ty, Body, Cmd>, regs: seq<Registration<Ty, Body, Cmd>>): Result<Builder<Ty, Body, Cmd>, Error>
    decreases |regs|
  {
    if regs == [] then Success(b)
    else
      match Register(b, regs[0])
      case Failure(e) => Failure(e)
      case Success(b') => RegisterAll(b', regs[1..])
  }

  /** Each registration overload throws for a null handler and otherwise appends one entry. */
  lemma RegisterStep<Ty(!new), Body(!new), Cmd>(b: Builder<Ty, Body, Cmd>, reg: Registration<Ty, Body, Cmd>)
    ensures reg.IsNull() <==> Register(b, reg) == Failure(ArgumentNull("handler"))
    ensures !reg.IsNull() ==>
      && Register(b, reg).Success?
      && AppendsOne(b.Build(), Register(b, reg).value.Build(), reg.token)
      && reg.ProjectedBy(Register(b, reg).value.Build()[|b.Build()|])
  {
  }

  /**
   * A chain of `When` calls succeeds exactly when no handler in it is null, and then
   * `Build` lists the receiver's entries followed by one entry per call, in call order.
   */
  lemma {:induction false} RegisterAllInOrder<Ty(!new), Body(!new), Cmd>(b: Builder<Ty, Body, Cmd>, regs: seq<Registration<Ty, Body, Cmd>>)
    ensures RegisterAll(b, regs).Success? <==> forall k :: 0 <= k < |regs| ==> !regs[k].IsNull()
    ensures RegisterAll(b, regs).Failure? ==> RegisterAll(b, regs) == Failure(ArgumentNull("handler"))
    ensures RegisterAll(b, regs).Success? ==>
      var hs := RegisterAll(b, regs).value.Build();
      && |hs| == |b.Build()| + |regs|
      && hs[..|b.Build()|] == b.Build()
      && forall k :: 0 <= k < |regs| ==>
           hs[|b.Build()| + k].messageType == regs[k].token && regs[k].ProjectedBy(hs[|b.Build()| + k])
    decreases |regs|
  {
    if regs != [] {
      RegisterStep(b, regs[0]);
      match Register(b, regs[0])
      case Failure(e) =>
      case Success(b') =>
        RegisterAllInOrder(b', regs[1..]);
        if RegisterAll(b, regs).Success? {
          var hs := RegisterAll(b, regs).value.Build();
          var n := |b.Build()|;
          assert hs[..n + 1] == b'.Build() by {
            assert hs[..n + 1] == hs[..|b'.Build()|];
          }
          assert hs[..n] == hs[..n + 1][..n];
          forall k | 0 <= k < |regs|
            ensures hs[n + k].messageType == regs[k].token && regs[k].ProjectedBy(hs[n + k])
          {
            if k == 0 {
              assert hs[n] == hs[..n + 1][n];
            } else {
              assert regs[k] == regs[1..][k - 1];
              assert hs[n + k] == hs[|b'.Build()| + (k - 1)];
            }
          }
        }
        forall k | 0 <= k < |regs| && k > 0 ensures regs[k] == regs[1..][k - 1] { }
    }
  }

  /** Registration keeps every entry applicable to every message of the type it was registered for. */
  lemma {:induction false} RegisterAllWellTyped<Ty(!new), Body(!new), Cmd>(b: Builder<Ty, Body, Cmd>, regs: seq<Registration<Ty, Body, Cmd>>)
    requires WellTyped(b.Build())
    ensures RegisterAll(b, regs).Success? ==> WellTyped(RegisterAll(b, regs).value.Build())
    decreases |regs|
  {
    if regs != [] {
      RegisterStep(b, regs[0]);
      match Register(b, regs[0])
      case Failure(e) =>
      case Success(b') =>
        var n := |b.Build()|;
        forall i | 0 <= i < |b'.Build()| ensures AcceptsOwnType(b'.Build()[i]) {
          if i < n {
            assert b'.Build()[i] == b'.Build()[..n][i];
          }
        }
        RegisterAllWellTyped(b', regs[1..]);
    }
  }

  /**
   * Builders are persistent: two different registrations on the same receiver give two
   * independent builders, each the receiver's entries plus its own entry, and neither
   * sees the other's entry.
   */
  lemma IndependentBranches<Ty(!new), Body(!new), Cmd>(b: Builder<Ty, Body, Cmd>, first: Registration<Ty, Body, Cmd>, second: Registration<Ty, Body, Cmd>)
    requires !first.IsNull() && !second.IsNull()
    ensures Register(b, first).Success? && Register(b, second).Success?
    ensures Register(b, first).value.Build()[..|b.Build()|] == Register(b, second).value.Build()[..|b.Build()|] == b.Build()
    ensures |Register(b, first).value.Build()| == |Register(b, second).value.Build()| == |b.Build()| + 1
    ensures Register(b, first).value.Build()[|b.Build()|].messageType == first.token
    ensures Register(b, second).value.Build()[|b.Build()|].messageType == second.token
  {
    RegisterStep(b, first);
    RegisterStep(b, second);
  }
}
