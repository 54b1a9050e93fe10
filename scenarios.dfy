/** The behaviour the repository's tests pin down, replayed on the model: the turn
    context tests on the context and adapter objects, the bracketing and transcript
    tests on the chain, and a conflict sequence on the in-memory store. */
module Scenarios {
  import opened Wrappers
  import opened Runtime
  import opened Schema
  import opened Storage
  import opened TurnContexts
  import opened BotStates
  import opened Pipeline

  // ---------------------------------------------------------------------------
  // Fixtures

  /** `new Activity()`: no id and no text. Its type is null, which `Responded`
      treats like a message (anything but a trace), so it is modelled as one. */
  const BlankActivity: Activity := Activity(Message, None, "", "", "")

  /** The tests' `TestMessage.Message(id)`: a message with the given id. */
  function TestMessage(id: string): Activity {
    Activity(Message, Some(id), "test", "test", "convo1")
  }

  /** `Activity.CreateTraceActivity("trace")`. */
  const TraceActivity: Activity := Activity(Trace, None, "trace", "", "")

  /** A user message carrying the given text. */
  function UserSays(text: string): Activity {
    Activity(Message, Some("1"), text, "test", "convo1")
  }

  /** The start of a turn: nothing sent, no services, no send interceptors, an
      empty store. */
  function Fresh(inbound: Activity): World {
    World(inbound, false, [], map[], [], StoreState(map[], 0))
  }

  // ---------------------------------------------------------------------------
  // TurnContextTests

  /** A null adapter and then a null activity are rejected; a fresh context has not
      responded. */
  method ConstructorChecks() returns (nullAdapter: Option<Exception>, nullActivity: Option<Exception>, respondedAtStart: bool)
    ensures nullAdapter == Some(ArgumentNull("adapter"))
    ensures nullActivity == Some(ArgumentNull("activity"))
    ensures !respondedAtStart
  {
    var _, e1 := TurnContext.Create(null, Some(BlankActivity));
    var a := new Adapter();
    var _, e2 := TurnContext.Create(a, None);
    var c, _ := TurnContext.Create(a, Some(BlankActivity));
    nullAdapter, nullActivity, respondedAtStart := e1, e2, c.responded;
  }

  /** Services: Get of a null key throws, of an empty or unknown key gives null; Add
      then Get by key or by type name gives the value back. */
  method ServicesBehaviour() returns (nullKey: Result<Option<Value>, Exception>, emptyKey: Option<Value>,
                                      unknownKey: Option<Value>, byKey: Option<Value>, byType: Option<Value>)
    ensures nullKey == Failure(ArgumentNull("key"))
    ensures emptyKey.None? && unknownKey.None?
    ensures byKey == Some(Value("System.String", Primitive, "foo", None))
    ensures byType == byKey
  {
    var foo := Value("System.String", Primitive, "foo", None);
    var a := new Adapter();
    var c := new TurnContext(a, BlankActivity);
    nullKey := c.GetService(None, ObjectTypeName);
    var r := c.GetService(Some(""), ObjectTypeName);
    emptyKey := r.value;
    r := c.GetService(Some("test"), ObjectTypeName);
    unknownKey := r.value;
    var _ := c.AddService(Some("bar"), Some(foo));
    r := c.GetService(Some("bar"), "System.String");
    byKey := r.value;
    var b := new Adapter();
    var d := new TurnContext(b, BlankActivity);
    var _ := d.AddService(TypedKey("System.String"), Some(foo));
    r := d.GetService(TypedKey("System.String"), "System.String");
    byType := r.value;
  }

  /** Sending a message sets `Responded`; the response carries the message's id. */
  method SendAndSetResponded() returns (before: bool, after: bool, response: Option<ResourceResponse>)
    ensures !before && after
    ensures response == Some(ResourceResponse(Some("testtest")))
  {
    var a := new Adapter();
    var c := new TurnContext(a, BlankActivity);
    before := c.responded;
    var r := c.SendActivity(TestMessage("testtest"));
    after := c.responded;
    response := r.value;
  }

  /** A batch of two gives exactly two responses, in order, with the activities'
      ids. */
  method SendBatch() returns (responded: bool, responses: seq<ResourceResponse>)
    ensures responded
    ensures responses == [ResourceResponse(Some("message1")), ResourceResponse(Some("message2"))]
  {
    var a := new Adapter();
    var c := new TurnContext(a, BlankActivity);
    var batch := [TestMessage("message1"), TestMessage("message2")];
    SendDelivery([], batch);
    var r := c.SendActivities(batch);
    assert batch[0].kind != Trace;
    responded := c.responded;
    responses := r.value.value;
  }

  /** A trace does not set `Responded`; a message sent afterwards does. */
  method TraceDoesNotSetResponded() returns (afterTrace: bool, afterMessage: bool)
    ensures !afterTrace && afterMessage
  {
    var a := new Adapter();
    var c := new TurnContext(a, BlankActivity);
    var _ := c.SendActivity(TraceActivity);
    afterTrace := c.responded;
    var _ := c.SendActivity(TestMessage("1234"));
    afterMessage := c.responded;
  }

  /** Without interceptors the adapter receives the single activity with its id. */
  method SendOneActivity() returns (delivered: seq<Activity>)
    ensures delivered == [TestMessage("1234")]
  {
    var a := new Adapter();
    var c := new TurnContext(a, BlankActivity);
    var _ := c.SendActivity(TestMessage("1234"));
    delivered := a.sent;
  }

  /** A send interceptor that calls `next` runs once, sees the batch of one, and
      the adapter receives it. */
  method CallOnSendBeforeDelivery() returns (seen: seq<seq<Activity>>, delivered: seq<Activity>)
    ensures seen == [[TestMessage("1234")]] && |seen[0]| == 1
    ensures delivered == [TestMessage("1234")]
  {
    var a := new Adapter();
    var c := new TurnContext(a, BlankActivity);
    c.OnSendActivities(PassThrough);
    assert c.onSend == [PassThrough] && [PassThrough][1..] == [];
    SendDelivery([PassThrough], [TestMessage("1234")]);
    var _ := c.SendActivity(TestMessage("1234"));
    seen, delivered := c.sendSeen, a.sent;
  }

  /** A send interceptor that does not call `next` runs once, sees the batch of
      one, and keeps it from the adapter. */
  method AllowInterceptionOfDeliveryOnSend() returns (seen: seq<seq<Activity>>, delivered: seq<Activity>, response: Option<ResourceResponse>)
    ensures seen == [[TestMessage("1234")]] && |seen[0]| == 1
    ensures delivered == [] && response.None?
  {
    var a := new Adapter();
    var c := new TurnContext(a, BlankActivity);
    c.OnSendActivities(Drop);
    assert c.onSend == [Drop] && [Drop][1..] == [];
    var r := c.SendActivity(TestMessage("1234"));
    seen, delivered, response := c.sendSeen, a.sent, r.value;
  }

  /** A send interceptor handed the activity with id "1234" changes the id, and
      the adapter receives exactly that one activity with the changed id. */
  method InterceptAndMutateOnSend() returns (seen: seq<seq<Activity>>, delivered: seq<Activity>)
    ensures seen == [[TestMessage("1234")]]
    ensures delivered == [TestMessage("1234").(id := Some("changed"))]
    ensures |delivered| == 1 && delivered[0].id == Some("changed")
  {
    var a := new Adapter();
    var c := new TurnContext(a, BlankActivity);
    c.OnSendActivities(MutateId("changed"));
    assert c.onSend == [MutateId("changed")] && [MutateId("changed")][1..] == [];
    SendDelivery([MutateId("changed")], [TestMessage("1234")]);
    var _ := c.SendActivity(TestMessage("1234"));
    seen, delivered := c.sendSeen, a.sent;
  }

  /** An exception thrown by a send interceptor reaches the caller unchanged. */
  method ThrowExceptionInOnSend() returns (thrown: Result<Option<ResourceResponse>, Exception>)
    ensures thrown == Failure(Raised("test")) && Runtime.Message(thrown.error) == "test"
  {
    var a := new Adapter();
    var c := new TurnContext(a, BlankActivity);
    c.OnSendActivities(Throw("test"));
    assert c.onSend == [Throw("test")] && [Throw("test")][1..] == [];
    thrown := c.SendActivity(TestMessage("1234"));
  }

  /** Without interceptors the adapter updates the activity and answers with its id. */
  method UpdateOneActivityToAdapter() returns (updated: seq<Activity>, response: Option<ResourceResponse>)
    ensures updated == [TestMessage("test")] && response == Some(ResourceResponse(Some("test")))
  {
    var a := new Adapter();
    var c := new TurnContext(a, BlankActivity);
    var r := c.UpdateActivity(TestMessage("test"));
    updated, response := a.updated, r.value;
  }

  /** An update interceptor that calls `next` is called and lets the activity
      through. */
  method CallOnUpdateBeforeDelivery() returns (seen: seq<Activity>, updated: seq<Activity>)
    ensures seen == [TestMessage("1234")]
    ensures updated == [TestMessage("1234")]
  {
    var a := new Adapter();
    var c := new TurnContext(a, BlankActivity);
    c.OnUpdateActivity(PassThrough);
    assert c.onUpdate == [PassThrough] && [PassThrough][1..] == [];
    UpdateDelivery([PassThrough], TestMessage("1234"));
    var _ := c.UpdateActivity(TestMessage("1234"));
    seen, updated := c.updateSeen, a.updated;
  }

  /** An update interceptor that does not call `next` is called, and keeps the
      update from the adapter. */
  method InterceptOnUpdate() returns (seen: seq<Activity>, updated: seq<Activity>)
    ensures seen == [TestMessage("1234")]
    ensures updated == []
  {
    var a := new Adapter();
    var c := new TurnContext(a, BlankActivity);
    c.OnUpdateActivity(Drop);
    assert c.onUpdate == [Drop] && [Drop][1..] == [];
    var _ := c.UpdateActivity(TestMessage("1234"));
    seen, updated := c.updateSeen, a.updated;
  }

  /** An update interceptor that changes the id hands the adapter the changed id. */
  method InterceptAndMutateOnUpdate() returns (updatedIds: seq<Option<string>>)
    ensures updatedIds == [Some("mutated")]
  {
    var a := new Adapter();
    var c := new TurnContext(a, BlankActivity);
    c.OnUpdateActivity(MutateId("mutated"));
    assert c.onUpdate == [MutateId("mutated")] && [MutateId("mutated")][1..] == [];
    UpdateDelivery([MutateId("mutated")], TestMessage("1234"));
    var _ := c.UpdateActivity(TestMessage("1234"));
    updatedIds := [a.updated[0].id];
  }

  /** `DeleteActivity(id)` hands the adapter a reference to that id. */
  method DeleteOneActivityToAdapter() returns (deletedIds: seq<Option<string>>)
    ensures deletedIds == [Some("12345")]
  {
    var a := new Adapter();
    var c := new TurnContext(a, TestMessage("1234"));
    var _ := c.DeleteActivity("12345");
    deletedIds := [a.deleted[0].activityId];
  }

  /** `DeleteActivity(reference)` hands the adapter that reference. */
  method DeleteConversationReferenceToAdapter() returns (deletedIds: seq<Option<string>>)
    ensures deletedIds == [Some("12345")]
  {
    var a := new Adapter();
    var c := new TurnContext(a, TestMessage("1234"));
    var _ := c.DeleteReference(ConversationReference(Some("12345"), "", ""));
    deletedIds := [a.deleted[0].activityId];
  }

  /** A delete interceptor that does not call `next` is called with the reference
      to "1234", and keeps the delete from the adapter. */
  method InterceptOnDelete() returns (seen: seq<ConversationReference>, deleted: seq<ConversationReference>)
    ensures seen == [ReferenceOf(BlankActivity).(activityId := Some("1234"))]
    ensures deleted == []
  {
    var a := new Adapter();
    var c := new TurnContext(a, BlankActivity);
    c.OnDeleteActivity(Drop);
    assert c.onDelete == [Drop] && [Drop][1..] == [];
    var _ := c.DeleteActivity("1234");
    seen, deleted := c.deleteSeen, a.deleted;
  }

  /** A delete interceptor that changes the reference's id hands the adapter the
      changed id. */
  method InterceptAndMutateOnDelete() returns (deletedIds: seq<Option<string>>)
    ensures deletedIds == [Some("mutated")]
  {
    var a := new Adapter();
    var c := new TurnContext(a, BlankActivity);
    c.OnDeleteActivity(MutateId("mutated"));
    assert c.onDelete == [MutateId("mutated")] && [MutateId("mutated")][1..] == [];
    var ref := ReferenceOf(BlankActivity).(activityId := Some("1234"));
    DeleteDelivery([MutateId("mutated")], ref);
    var _ := c.DeleteActivity("1234");
    deletedIds := [a.deleted[0].activityId];
  }

  // ---------------------------------------------------------------------------
  // BotAdapterBracketingTest

  /** The echo bot of the bracketing test. */
  function Echo(a: Activity): BotLogic {
    BotLogic(["ECHO:" + a.text], None)
  }

  /** The bot of the exception test: echoes, then throws. */
  function EchoThenThrow(a: Activity): BotLogic {
    BotLogic(["ECHO:" + a.text], Some("Test Exception"))
  }

  lemma BracketingValidation()
    ensures var s := Run([BeforeAfter("BEFORE", "AFTER")], Echo, Fresh(UserSays("Hello")));
      s.outcome == Ok && Texts(s.world.outbound) == ["BEFORE", "ECHO:Hello", "AFTER"]
  {
    var chain := [BeforeAfter("BEFORE", "AFTER")];
    BracketingTexts(chain, Echo, Fresh(UserSays("Hello")));
    assert Befores(chain) == ["BEFORE"];
    assert Reverse(Afters(chain)) == ["AFTER"];
    assert Bracketed(chain, ["ECHO:Hello"]) == ["BEFORE", "ECHO:Hello", "AFTER"];
    assert "ECHO:" + "Hello" == "ECHO:Hello";
  }

  lemma CaughtBotException()
    ensures var s := Run([CatchAround(Some("BEFORE"), "CAUGHT:", Some("AFTER"))], EchoThenThrow, Fresh(UserSays("Hello")));
      s.outcome == Ok && Texts(s.world.outbound) == ["BEFORE", "ECHO:Hello", "CAUGHT:Test Exception", "AFTER"]
  {
    var w := Fresh(UserSays("Hello"));
    var all := ["BEFORE"] + ["ECHO:" + "Hello"] + ["CAUGHT:" + "Test Exception"] + ["AFTER"];
    assert "ECHO:" + "Hello" == "ECHO:Hello";
    assert "CAUGHT:" + "Test Exception" == "CAUGHT:Test Exception";
    assert all == ["BEFORE", "ECHO:Hello", "CAUGHT:Test Exception", "AFTER"];
    CatchAroundBot(Some("BEFORE"), "CAUGHT:", Some("AFTER"), EchoThenThrow, w);
    SentTexts(w, all);
  }

  // ---------------------------------------------------------------------------
  // CoreTests: [BeforeAfterMiddleware, CatchExceptionMiddleware]

  const TranscriptChain: seq<Middleware> :=
    [BeforeAfter("before message", "after message"), CatchAround(None, "Caught: ", None)]

  function TranscriptBot(a: Activity): BotLogic {
    if a.text == "use middleware" then BotLogic(["using middleware"], None)
    else if a.text == "catch exception" then BotLogic(["generating exception"], Some("exception to catch"))
    else BotLogic([], None)
  }

  /** A turn through the inner catching handler: what the bot sent, then the caught
      message when it threw; the turn itself never fails. */
  lemma InnerCatch(w: World)
    requires AllForward(w.onSend)
    ensures var logic := TranscriptBot(w.inbound);
      Run(TranscriptChain[1..], TranscriptBot, w)
        == Step(Ok, Sent(w, logic.replies + (if logic.failure.Some? then ["Caught: " + logic.failure.value] else [])))
  {
    var logic := TranscriptBot(w.inbound);
    assert TranscriptChain[1..] == [CatchAround(None, "Caught: ", None)] + [];
    CatchAroundSwallows(None, "Caught: ", None, [], TranscriptBot, w);
    SentNothing(w);
    SendAllForwarded(w, logic.replies);
    var caught := if logic.failure.Some? then ["Caught: " + logic.failure.value] else [];
    SentTwice(w, logic.replies, caught);
    assert caught + [] == caught;
  }

  /** Every turn of the transcript: "before message" first, "after message" last, and
      whatever the inner part sent in between. */
  lemma TranscriptTurn(text: string)
    ensures var w := Fresh(UserSays(text));
      var logic := TranscriptBot(w.inbound);
      var s := Run(TranscriptChain, TranscriptBot, w);
      && s.outcome == Ok
      && Texts(s.world.outbound) ==
           ["before message"] + logic.replies
           + (if logic.failure.Some? then ["Caught: " + logic.failure.value] else [])
           + ["after message"]
  {
    var w := Fresh(UserSays(text));
    var logic := TranscriptBot(w.inbound);
    var caught := if logic.failure.Some? then ["Caught: " + logic.failure.value] else [];
    SendForwarded(w, "before message");
    var w1 := Sent(w, ["before message"]);
    InnerCatch(w1);
    var w2 := Sent(w1, logic.replies + caught);
    SendForwarded(w2, "after message");
    SentTwice(w, ["before message"], logic.replies + caught);
    SentTwice(w, ["before message"] + (logic.replies + caught), ["after message"]);
    var all := ["before message"] + (logic.replies + caught) + ["after message"];
    SentTexts(w, all);
    assert all == ["before message"] + logic.replies + caught + ["after message"];
  }

  lemma TranscriptUseMiddleware()
    ensures Texts(Run(TranscriptChain, TranscriptBot, Fresh(UserSays("use middleware"))).world.outbound)
         == ["before message", "using middleware", "after message"]
  {
    TranscriptTurn("use middleware");
  }

  lemma TranscriptCatchException()
    ensures var s := Run(TranscriptChain, TranscriptBot, Fresh(UserSays("catch exception")));
      s.outcome == Ok
      && Texts(s.world.outbound) == ["before message", "generating exception", "Caught: exception to catch", "after message"]
  {
    var w := Fresh(UserSays("catch exception"));
    assert w.inbound.text == "catch exception" && "catch exception" != "use middleware";
    assert TranscriptBot(w.inbound) == BotLogic(["generating exception"], Some("exception to catch"));
    assert "Caught: " + "exception to catch" == "Caught: exception to catch";
    TranscriptTurn("catch exception");
  }

  lemma TranscriptNoMatch()
    ensures Texts(Run(TranscriptChain, TranscriptBot, Fresh(UserSays("hi"))).world.outbound)
         == ["before message", "after message"]
  {
    var w := Fresh(UserSays("hi"));
    assert w.inbound.text == "hi";
    assert "hi" != "use middleware" && "hi" != "catch exception";
    assert TranscriptBot(w.inbound) == BotLogic([], None);
    TranscriptTurn("hi");
    var none: seq<string> := [];
    assert ["before message"] + none + none + ["after message"] == ["before message", "after message"];
  }

  // ---------------------------------------------------------------------------
  // MemoryStorage: stamping and conflicts

  /** A new store item is stamped "0"; written back with "0" it succeeds and is
      stamped "1"; written again with the stale "0" it is rejected, naming both
      eTags, and the stored copy keeps "1". */
  method StaleWriteRejected() returns (first: Outcome, second: Outcome, third: Outcome, finalTag: Option<string>)
    ensures first == Ok && second == Ok
    ensures third == Exn(ETagConflict(Some("0"), "1"))
    ensures finalTag == Some("1")
  {
    var store := new MemoryStorage(None);
    var item := Value("Counter", StoreItemObject, "{}", None);
    first := store.Write([Change("k", Some(item))]);
    assert [Change("k", Some(item))][1..] == [];
    assert store.memory["k"] == Some(item.(eTag := Some("0")));
    second := store.Write([Change("k", Some(item.(eTag := Some("0"))))]);
    assert [Change("k", Some(item.(eTag := Some("0"))))][1..] == [];
    assert store.memory["k"] == Some(item.(eTag := Some("1")));
    third := store.Write([Change("k", Some(item.(eTag := Some("0"))))]);
    finalTag := store.memory["k"].value.eTag;
  }
}
