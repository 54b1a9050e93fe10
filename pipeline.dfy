/** The middleware chain (IMiddleware.cs): handlers run in registration order, each
    around a `next` that runs the rest of the chain, with the bot's turn handler
    innermost. A turn is a pure fold over the handlers, threading a value that
    stands for everything the turn can change. */
module Pipeline {
  import opened Wrappers
  import opened Runtime
  import opened Schema
  import opened Storage
  import opened TurnContexts
  import opened BotStates

  /** What a turn can observe and change: the inbound activity, the `Responded` flag,
      what reached the adapter, the turn services, the registered send interceptors
      and the store behind every state middleware. */
  datatype World = World(
    inbound: Activity,
    responded: bool,
    outbound: seq<Activity>,
    services: map<string, Value>,
    onSend: seq<Interceptor>,
    store: StoreState)

  /** How a piece of the turn ended, and the world it left. */
  datatype Step = Step(outcome: Outcome, world: World)

  /** The bot's turn handler: the messages it sends, in order, then optionally a
      throw of `new Exception(failure)`. */
  datatype BotLogic = BotLogic(replies: seq<string>, failure: Option<string>)

  /** A bot decides what to do from the inbound activity. */
  type Bot = Activity -> BotLogic

  /** The handler behaviours the core and its tests use.
      BeforeAfter: send `beforeText`, call `next`, send `afterText`.
      ShortCircuit: return without calling `next`.
      CatchAround: optionally send `before`, call `next` inside a try, on an
        exception send `caughtPrefix + ex.Message`, then optionally send `after`.
      LoadSave: `BotState.OnTurn`: read the state into the services, call `next`,
        write it back. */
  datatype Middleware =
    | BeforeAfter(beforeText: string, afterText: string)
    | ShortCircuit
    | CatchAround(before: Option<string>, caughtPrefix: string, after: Option<string>)
    | LoadSave(cfg: StateConfig)

  /** `context.SendActivity(text)` from inside the turn: a reply goes through the
      send interceptors; if it reaches the adapter it is logged and may set
      `Responded`. */
  function Send(w: World, text: string): Step {
    match SendThrough(w.onSend, [Reply(w.inbound, text)])
    case Delivered(b) => Step(Ok, w.(outbound := w.outbound + b, responded := RespondedAfter(w.responded, b)))
    case Dropped => Step(Ok, w)
    case Threw(e) => Step(Exn(e), w)
  }

  function SendOptional(w: World, text: Option<string>): Step {
    if text.None? then Step(Ok, w) else Send(w, text.value)
  }

  /** Several sends, each awaited; the first throw ends the sequence. */
  function SendAll(w: World, texts: seq<string>): Step
    decreases |texts|
  {
    if texts == [] then Step(Ok, w)
    else
      var s := Send(w, texts[0]);
      if s.outcome.Exn? then s else SendAll(s.world, texts[1..])
  }

  /** The terminal callback. */
  function RunBot(logic: BotLogic, w: World): Step {
    var s := SendAll(w, logic.replies);
    if s.outcome.Exn? || logic.failure.None? then s
    else Step(Exn(Raised(logic.failure.value)), s.world)
  }

  /** Running the chain: the first handler runs, and its `next` is the run of the
      rest of the chain; past the last handler `next` is the bot. */
  function Run(chain: seq<Middleware>, bot: Bot, w: World): Step
    decreases |chain|
  {
    if chain == [] then RunBot(bot(w.inbound), w)
    else
      var rest := chain[1..];
      match chain[0]
      case BeforeAfter(b, a) =>
        var s1 := Send(w, b);
        if s1.outcome.Exn? then s1
        else
          var s2 := Run(rest, bot, s1.world);
          if s2.outcome.Exn? then s2 else Send(s2.world, a)
      case ShortCircuit => Step(Ok, w)
      case CatchAround(b, prefix, a) =>
        var s1 := SendOptional(w, b);
        if s1.outcome.Exn? then s1
        else
          var s2 := Run(rest, bot, s1.world);
          var s3 := if s2.outcome.Exn? then Send(s2.world, prefix + Runtime.Message(s2.outcome.error)) else s2;
          if s3.outcome.Exn? then s3 else SendOptional(s3.world, a)
      case LoadSave(cfg) =>
        match ReadToContext(cfg, w.store, w.inbound, w.services)
        case Failure(e) => Step(Exn(e), w)
        case Success(m) =>
          var s2 := Run(rest, bot, w.(services := m));
          if s2.outcome.Exn? then s2
          else
            var wb := WriteFromContext(cfg, s2.world.store, w.inbound, s2.world.services);
            Step(wb.outcome, s2.world.(store := wb.store, services := wb.services))
  }

  // ---------------------------------------------------------------------------
  // Reference definitions

  predicate BeforeAfterOnly(chain: seq<Middleware>) {
    forall i :: 0 <= i < |chain| ==> chain[i].BeforeAfter?
  }

  /** The before-texts, in registration order. */
  function Befores(chain: seq<Middleware>): seq<string>
    requires BeforeAfterOnly(chain)
  {
    seq(|chain|, i requires 0 <= i < |chain| => chain[i].beforeText)
  }

  /** The after-texts, in registration order. */
  function Afters(chain: seq<Middleware>): seq<string>
    requires BeforeAfterOnly(chain)
  {
    seq(|chain|, i requires 0 <= i < |chain| => chain[i].afterText)
  }

  function Reverse<T>(s: seq<T>): (r: seq<T>)
    ensures |r| == |s|
    ensures forall i :: 0 <= i < |s| ==> r[i] == s[|s| - 1 - i]
  {
    if s == [] then [] else Reverse(s[1..]) + [s[0]]
  }

  /** A bot that sends nothing and does not throw. */
  function Silent(a: Activity): BotLogic {
    BotLogic([], None)
  }

  // ---------------------------------------------------------------------------
  // Sending when every interceptor forwards

  /** The activity that reaches the adapter for a reply when every send interceptor
      calls `next`: the reply, carrying the id the last id-setting interceptor gave
      it. */
  function Forwarded(inbound: Activity, hooks: seq<Interceptor>, text: string): Activity {
    Reply(inbound, text).(id := FinalId(hooks, None))
  }

  function ForwardedAll(inbound: Activity, hooks: seq<Interceptor>, texts: seq<string>): seq<Activity>
    decreases |texts|
  {
    if texts == [] then [] else [Forwarded(inbound, hooks, texts[0])] + ForwardedAll(inbound, hooks, texts[1..])
  }

  /** The world after these texts were sent and every one reached the adapter. */
  function Sent(w: World, texts: seq<string>): World {
    w.(outbound := w.outbound + ForwardedAll(w.inbound, w.onSend, texts), responded := w.responded || texts != [])
  }

  lemma {:induction false} TextsAppend(a: seq<Activity>, b: seq<Activity>)
    ensures Texts(a + b) == Texts(a) + Texts(b)
    decreases |a|
  {
    if a != [] {
      TextsAppend(a[1..], b);
      assert (a + b)[1..] == a[1..] + b;
    }
  }

  /** What reaches the adapter carries exactly the texts that were sent, in order. */
  lemma {:induction false} ForwardedTexts(inbound: Activity, hooks: seq<Interceptor>, texts: seq<string>)
    ensures Texts(ForwardedAll(inbound, hooks, texts)) == texts
    decreases |texts|
  {
    if texts != [] {
      ForwardedTexts(inbound, hooks, texts[1..]);
      TextsAppend([Forwarded(inbound, hooks, texts[0])], ForwardedAll(inbound, hooks, texts[1..]));
      assert [texts[0]] + texts[1..] == texts;
    }
  }

  lemma {:induction false} ForwardedAllAppend(inbound: Activity, hooks: seq<Interceptor>, x: seq<string>, y: seq<string>)
    ensures ForwardedAll(inbound, hooks, x + y) == ForwardedAll(inbound, hooks, x) + ForwardedAll(inbound, hooks, y)
    decreases |x|
  {
    if x == [] {
      assert x + y == y;
    } else {
      assert (x + y)[1..] == x[1..] + y;
      ForwardedAllAppend(inbound, hooks, x[1..], y);
    }
  }

  lemma SentTexts(w: World, texts: seq<string>)
    ensures Texts(Sent(w, texts).outbound) == Texts(w.outbound) + texts
  {
    TextsAppend(w.outbound, ForwardedAll(w.inbound, w.onSend, texts));
    ForwardedTexts(w.inbound, w.onSend, texts);
  }

  /** Sending x and then y is sending x + y. */
  lemma SentTwice(w: World, x: seq<string>, y: seq<string>)
    ensures Sent(Sent(w, x), y) == Sent(w, x + y)
  {
    ForwardedAllAppend(w.inbound, w.onSend, x, y);
    assert x + y != [] <==> x != [] || y != [];
  }

  /** When every send interceptor calls `next`, a send succeeds and the reply
      reaches the adapter. */
  lemma SendForwarded(w: World, text: string)
    requires AllForward(w.onSend)
    ensures Send(w, text) == Step(Ok, Sent(w, [text]))
  {
    var a := Reply(w.inbound, text);
    SendDelivery(w.onSend, [a]);
    var b := [a][0 := a.(id := FinalId(w.onSend, a.id))];
    assert b == ForwardedAll(w.inbound, w.onSend, [text]);
    assert b[0].kind != Trace;
  }

  lemma {:induction false} SendAllForwarded(w: World, texts: seq<string>)
    requires AllForward(w.onSend)
    ensures SendAll(w, texts) == Step(Ok, Sent(w, texts))
    decreases |texts|
  {
    if texts != [] {
      SendForwarded(w, texts[0]);
      SendAllForwarded(Sent(w, [texts[0]]), texts[1..]);
      SentTwice(w, [texts[0]], texts[1..]);
      assert [texts[0]] + texts[1..] == texts;
    }
  }

  // ---------------------------------------------------------------------------
  // Properties of the chain

  /** The bracketing order: the befores in registration order, then what the
      innermost part sent, then the afters in reverse registration order. */
  function Bracketed(chain: seq<Middleware>, inner: seq<string>): seq<string>
    requires BeforeAfterOnly(chain)
  {
    Befores(chain) + inner + Reverse(Afters(chain))
  }

  /** Peeling the outermost handler off the bracketing order. */
  lemma BracketedCons(chain: seq<Middleware>, inner: seq<string>)
    requires BeforeAfterOnly(chain) && chain != []
    ensures Bracketed(chain, inner) == [chain[0].beforeText] + Bracketed(chain[1..], inner) + [chain[0].afterText]
  {
    var rest := chain[1..];
    assert Befores(chain) == [chain[0].beforeText] + Befores(rest);
    assert Reverse(Afters(chain)) == Reverse(Afters(rest)) + [chain[0].afterText];
  }

  /** One before/after handler around a rest of the chain that ended normally. */
  lemma BracketStep(b: string, a: string, rest: seq<Middleware>, bot: Bot, w: World, inner: seq<string>)
    requires AllForward(w.onSend)
    requires Run(rest, bot, Sent(w, [b])) == Step(Ok, Sent(Sent(w, [b]), inner))
    ensures Run([BeforeAfter(b, a)] + rest, bot, w) == Step(Ok, Sent(w, [b] + inner + [a]))
  {
    assert ([BeforeAfter(b, a)] + rest)[1..] == rest;
    SendForwarded(w, b);
    var w2 := Sent(Sent(w, [b]), inner);
    SendForwarded(w2, a);
    SentTwice(w, [b], inner);
    SentTwice(w, [b] + inner, [a]);
  }

  /** Bracketing: for handlers that each send a before-text, call `next` and send an
      after-text, the befores go out in registration order, then the bot's replies,
      then the afters in reverse registration order; nothing else about the turn
      changes. */
  lemma {:induction false} Bracketing(chain: seq<Middleware>, bot: Bot, w: World)
    requires BeforeAfterOnly(chain) && AllForward(w.onSend)
    requires bot(w.inbound).failure.None?
    ensures Run(chain, bot, w) == Step(Ok, Sent(w, Bracketed(chain, bot(w.inbound).replies)))
    decreases |chain|
  {
    var replies := bot(w.inbound).replies;
    if chain == [] {
      SendAllForwarded(w, replies);
      assert Bracketed(chain, replies) == replies;
    } else {
      var rest := chain[1..];
      var b, a := chain[0].beforeText, chain[0].afterText;
      Bracketing(rest, bot, Sent(w, [b]));
      BracketStep(b, a, rest, bot, w, Bracketed(rest, replies));
      BracketedCons(chain, replies);
      assert [BeforeAfter(b, a)] + rest == chain;
    }
  }

  /** The texts that go out in a bracketed turn. */
  lemma BracketingTexts(chain: seq<Middleware>, bot: Bot, w: World)
    requires BeforeAfterOnly(chain) && AllForward(w.onSend)
    requires bot(w.inbound).failure.None?
    ensures Run(chain, bot, w).outcome == Ok
    ensures Texts(Run(chain, bot, w).world.outbound) == Texts(w.outbound) + Bracketed(chain, bot(w.inbound).replies)
  {
    Bracketing(chain, bot, w);
    SentTexts(w, Bracketed(chain, bot(w.inbound).replies));
  }

  /** A bot exception that no handler catches surfaces as the outcome of the turn:
      every before-text and every reply sent before the throw went out, no
      after-text did. */
  lemma {:induction false} UncaughtBotException(chain: seq<Middleware>, bot: Bot, w: World)
    requires BeforeAfterOnly(chain) && AllForward(w.onSend)
    requires bot(w.inbound).failure.Some?
    ensures Run(chain, bot, w) == Step(Exn(Raised(bot(w.inbound).failure.value)), Sent(w, Befores(chain) + bot(w.inbound).replies))
    decreases |chain|
  {
    var replies := bot(w.inbound).replies;
    if chain == [] {
      SendAllForwarded(w, replies);
      assert Befores(chain) + replies == replies;
    } else {
      var rest := chain[1..];
      var b := chain[0].beforeText;
      SendForwarded(w, b);
      var w1 := Sent(w, [b]);
      UncaughtBotException(rest, bot, w1);
      SentTwice(w, [b], Befores(rest) + replies);
      assert Befores(chain) == [b] + Befores(rest);
      assert [b] + (Befores(rest) + replies) == Befores(chain) + replies;
    }
  }

  /** Short-circuit: a handler that does not call `next` hides every handler after
      it and the bot; the handlers before it complete as if the bot had done
      nothing. */
  lemma {:induction false} ShortCircuitHidesRest(pre: seq<Middleware>, post: seq<Middleware>, bot: Bot, w: World)
    ensures Run(pre + [ShortCircuit] + post, bot, w) == Run(pre, Silent, w)
    decreases |pre|
  {
    if pre == [] {
      assert (pre + [ShortCircuit] + post)[0] == ShortCircuit;
    } else {
      var chain := pre + [ShortCircuit] + post;
      assert chain[0] == pre[0];
      assert chain[1..] == pre[1..] + [ShortCircuit] + post;
      forall v: World
        ensures Run(chain[1..], bot, v) == Run(pre[1..], Silent, v)
      {
        ShortCircuitHidesRest(pre[1..], post, bot, v);
      }
    }
  }

  /** What a short-circuited turn sends: the befores and the afters of the handlers
      in front of the short-circuit, and nothing from the bot or the handlers
      behind it. */
  lemma ShortCircuitOutput(pre: seq<Middleware>, post: seq<Middleware>, bot: Bot, w: World)
    requires BeforeAfterOnly(pre) && AllForward(w.onSend)
    ensures var s := Run(pre + [ShortCircuit] + post, bot, w);
      && s.outcome == Ok
      && Texts(s.world.outbound) == Texts(w.outbound) + Bracketed(pre, [])
  {
    ShortCircuitHidesRest(pre, post, bot, w);
    BracketingTexts(pre, Silent, w);
  }

  /** No handler of the model registers send interceptors or replaces the inbound
      activity. */
  lemma {:induction false} RunKeepsHooks(chain: seq<Middleware>, bot: Bot, w: World)
    ensures Run(chain, bot, w).world.onSend == w.onSend
    ensures Run(chain, bot, w).world.inbound == w.inbound
    decreases |chain|
  {
    if chain == [] {
      SendsKeepHooks(w, bot(w.inbound).replies);
    } else {
      var rest := chain[1..];
      forall v: World ensures Run(rest, bot, v).world.onSend == v.onSend && Run(rest, bot, v).world.inbound == v.inbound {
        RunKeepsHooks(rest, bot, v);
      }
    }
  }

  lemma {:induction false} SendsKeepHooks(w: World, texts: seq<string>)
    ensures SendAll(w, texts).world.onSend == w.onSend && SendAll(w, texts).world.inbound == w.inbound
    decreases |texts|
  {
    if texts != [] {
      SendsKeepHooks(Send(w, texts[0]).world, texts[1..]);
    }
  }

  /** The texts of an optional send. */
  function OptionalText(t: Option<string>): seq<string> {
    if t.Some? then [t.value] else []
  }

  /** What a catching handler sends for how `next` ended. */
  function CaughtText(prefix: string, o: Outcome): seq<string> {
    if o.Exn? then [prefix + Runtime.Message(o.error)] else []
  }

  lemma SentNothing(w: World)
    ensures Sent(w, []) == w
  {
    assert w.outbound + [] == w.outbound;
  }

  lemma SendOptionalForwarded(w: World, t: Option<string>)
    requires AllForward(w.onSend)
    ensures SendOptional(w, t) == Step(Ok, Sent(w, OptionalText(t)))
  {
    if t.Some? {
      SendForwarded(w, t.value);
    } else {
      SentNothing(w);
    }
  }

  /** A handler that wraps `next` in a try/catch turns an exception from the rest of
      the chain into a `caughtPrefix + message` reply, sent after everything the
      rest of the chain sent, and then goes on to its after-text: the turn ends
      normally whatever the rest of the chain did. */
  lemma CatchAroundSwallows(before: Option<string>, prefix: string, after: Option<string>,
                            rest: seq<Middleware>, bot: Bot, w: World)
    requires AllForward(w.onSend)
    ensures var inner := Run(rest, bot, Sent(w, OptionalText(before)));
      Run([CatchAround(before, prefix, after)] + rest, bot, w)
        == Step(Ok, Sent(inner.world, CaughtText(prefix, inner.outcome) + OptionalText(after)))
  {
    var chain := [CatchAround(before, prefix, after)] + rest;
    assert chain[1..] == rest;
    SendOptionalForwarded(w, before);
    var w1 := Sent(w, OptionalText(before));
    RunKeepsHooks(rest, bot, w1);
    var inner := Run(rest, bot, w1);
    var caught := CaughtText(prefix, inner.outcome);
    if inner.outcome.Exn? {
      SendForwarded(inner.world, caught[0]);
    } else {
      SentNothing(inner.world);
    }
    var w3 := Sent(inner.world, caught);
    SendOptionalForwarded(w3, after);
    SentTwice(inner.world, caught, OptionalText(after));
  }

  /** A catching handler right around the bot: what the bot sent before throwing
      goes out first, then the caught message, then the handler's after-text. */
  lemma CatchAroundBot(before: Option<string>, prefix: string, after: Option<string>, bot: Bot, w: World)
    requires AllForward(w.onSend)
    ensures var logic := bot(w.inbound);
      Run([CatchAround(before, prefix, after)], bot, w)
        == Step(Ok, Sent(w, OptionalText(before) + logic.replies
                            + (if logic.failure.Some? then [prefix + logic.failure.value] else [])
                            + OptionalText(after)))
  {
    var logic := bot(w.inbound);
    var w1 := Sent(w, OptionalText(before));
    assert [CatchAround(before, prefix, after)] == [CatchAround(before, prefix, after)] + [];
    CatchAroundSwallows(before, prefix, after, [], bot, w);
    SendAllForwarded(w1, logic.replies);
    var caught := if logic.failure.Some? then [prefix + logic.failure.value] else [];
    assert CaughtText(prefix, Run([], bot, w1).outcome) == caught;
    SentTwice(w, OptionalText(before), logic.replies);
    SentTwice(w, OptionalText(before) + logic.replies, caught + OptionalText(after));
    assert OptionalText(before) + logic.replies + (caught + OptionalText(after))
        == OptionalText(before) + logic.replies + caught + OptionalText(after);
  }

  /** `BotState.OnTurn` has no `finally`: when the rest of the turn throws, nothing
      is written and the exception goes on up; otherwise the write comes after
      everything the rest of the turn did. */
  lemma LoadSaveWritesLast(cfg: StateConfig, rest: seq<Middleware>, bot: Bot, w: World)
    requires ReadToContext(cfg, w.store, w.inbound, w.services).Success?
    ensures var inner := Run(rest, bot, w.(services := ReadToContext(cfg, w.store, w.inbound, w.services).value));
      var s := Run([LoadSave(cfg)] + rest, bot, w);
      && (inner.outcome.Exn? ==> s == inner)
      && (inner.outcome.Ok? ==>
            var wb := WriteFromContext(cfg, inner.world.store, w.inbound, inner.world.services);
            s.outcome == wb.outcome && s.world.store == wb.store && s.world.outbound == inner.world.outbound)
  {
    assert ([LoadSave(cfg)] + rest)[1..] == rest;
  }

  /** A turn through a last-writer-wins state middleware whose inner handlers only
      bracket and whose bot does not throw ends normally and leaves the loaded state
      saved under the turn's key; a throwing bot leaves the store as it was. */
  lemma LastWriterWinsTurn(cfg: StateConfig, rest: seq<Middleware>, bot: Bot, w: World)
    requires cfg.settings.lastWriterWins && ObjectsOnly(w.store)
    requires !NullAt(w.store.memory, cfg.keyOf(w.inbound))
    requires cfg.propertyName !in w.services
    requires BeforeAfterOnly(rest) && AllForward(w.onSend)
    ensures var s := Run([LoadSave(cfg)] + rest, bot, w);
      var saved := SaveState(cfg, w.store, w.inbound, Some(LoadedState(cfg, w.store.memory, w.inbound)));
      && (bot(w.inbound).failure.None? ==> s.outcome == Ok && s.world.store == saved.store)
      && (bot(w.inbound).failure.Some? ==> s.outcome == Exn(Raised(bot(w.inbound).failure.value)) && s.world.store == w.store)
  {
    var m := ReadToContext(cfg, w.store, w.inbound, w.services).value;
    LoadSaveWritesLast(cfg, rest, bot, w);
    var w1 := w.(services := m);
    if bot(w.inbound).failure.None? {
      Bracketing(rest, bot, w1);
      WriteBackSavesLoadedState(cfg, w.store, w.inbound, w.services);
      var loaded := LoadedState(cfg, w.store.memory, w.inbound);
      assert loaded.kind != Primitive by {
        var key := cfg.keyOf(w.inbound);
        if Present(w.store.memory, key) && IsInstance(w.store.memory[key].value, cfg.stateType.name) {
          assert w.store.memory[key].Some?;
        }
      }
      LastWriterWinsNeverConflicts(cfg, w.store, w.inbound, Some(loaded));
    } else {
      UncaughtBotException(rest, bot, w1);
    }
  }
}
