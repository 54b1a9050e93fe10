/** The turn context: the inbound activity, the `Responded` flag, the turn services,
    and the three interceptor chains that run in front of the adapter's send,
    update and delete. */
module TurnContexts {
  import opened Wrappers
  import opened Runtime
  import opened Schema

  /** What an interceptor registered with `OnSendActivities`, `OnUpdateActivity` or
      `OnDeleteActivity` does: call `next` unchanged, set the id of what it was
      given and then call `next`, return without calling `next`, or throw. */
  datatype Interceptor = PassThrough | MutateId(id: string) | Drop | Throw(message: string)

  /** How an interceptor chain ends: the (possibly mutated) payload reaches the
      adapter, or an interceptor returned without calling `next`, or one threw. */
  datatype Delivery<P> = Delivered(payload: P) | Dropped | Threw(error: Exception)

  /** The interceptor chain over a payload: the first registered interceptor runs
      first and its `next` runs the rest; the adapter sits at the bottom. setId is
      how an interceptor's id change lands on the payload (None when it throws). */
  function Intercept<P>(hooks: seq<Interceptor>, p: P, setId: (P, string) -> Option<P>): Delivery<P>
    decreases |hooks|
  {
    if hooks == [] then Delivered(p)
    else match hooks[0]
      case PassThrough => Intercept(hooks[1..], p, setId)
      case MutateId(id) =>
        (match setId(p, id)
         case None => Threw(IndexOutOfRange)
         case Some(p') => Intercept(hooks[1..], p', setId))
      case Drop => Dropped
      case Throw(m) => Threw(Raised(m))
  }

  /** What the interceptors that ran were handed, in order: each one receives the
      payload as the interceptors before it left it, and the next one runs only
      when it called `next` without throwing. */
  function Calls<P>(hooks: seq<Interceptor>, p: P, setId: (P, string) -> Option<P>): (calls: seq<P>)
    ensures |calls| <= |hooks|
    ensures hooks != [] ==> |calls| >= 1 && calls[0] == p
    decreases |hooks|
  {
    if hooks == [] then []
    else
      var later := match hooks[0]
        case PassThrough => Calls(hooks[1..], p, setId)
        case MutateId(id) => (if setId(p, id).Some? then Calls(hooks[1..], setId(p, id).value, setId) else [])
        case Drop => []
        case Throw(_) => [];
      [p] + later
  }

  /** An interceptor that calls `next`. */
  predicate Forwards(h: Interceptor) {
    h.PassThrough? || h.MutateId?
  }

  predicate AllForward(hooks: seq<Interceptor>) {
    forall i :: 0 <= i < |hooks| ==> Forwards(hooks[i])
  }

  /** The id a payload ends up with: that of the last id-setting interceptor, or
      the one it started with. */
  function FinalId(hooks: seq<Interceptor>, start: Option<string>): Option<string>
    decreases |hooks|
  {
    if hooks == [] then start
    else FinalId(hooks[1..], if hooks[0].MutateId? then Some(hooks[0].id) else start)
  }

  /** `activities[0].Id = id`, which throws on an empty batch. */
  function SetFirstId(batch: seq<Activity>, id: string): Option<seq<Activity>> {
    if batch == [] then None else Some(batch[0 := batch[0].(id := Some(id))])
  }

  /** `activity.Id = id`. */
  function SetActivityId(a: Activity, id: string): Option<Activity> {
    Some(a.(id := Some(id)))
  }

  /** `convRef.ActivityId = id`. */
  function SetReferenceId(r: ConversationReference, id: string): Option<ConversationReference> {
    Some(r.(activityId := Some(id)))
  }

  function SendThrough(hooks: seq<Interceptor>, batch: seq<Activity>): Delivery<seq<Activity>> {
    Intercept(hooks, batch, SetFirstId)
  }

  function UpdateThrough(hooks: seq<Interceptor>, a: Activity): Delivery<Activity> {
    Intercept(hooks, a, SetActivityId)
  }

  function DeleteThrough(hooks: seq<Interceptor>, r: ConversationReference): Delivery<ConversationReference> {
    Intercept(hooks, r, SetReferenceId)
  }

  /** `Responded` after a delivery: set once anything other than a trace went out,
      never reset. */
  predicate RespondedAfter(responded: bool, delivered: seq<Activity>) {
    responded || exists i :: 0 <= i < |delivered| && delivered[i].kind != Trace
  }

  // ---------------------------------------------------------------------------
  // Properties of the interceptor chains

  /** An interceptor that does not call `next` ends the chain: the interceptors
      registered after it never run and the adapter is not reached. */
  lemma {:induction false} StopperEndsChain<P>(pre: seq<Interceptor>, h: Interceptor, post: seq<Interceptor>, p: P, setId: (P, string) -> Option<P>)
    requires !Forwards(h)
    ensures Intercept(pre + [h] + post, p, setId) == Intercept(pre + [h], p, setId)
    ensures !Intercept(pre + [h] + post, p, setId).Delivered?
    decreases |pre|
  {
    if pre == [] {
      assert ([h] + post)[0] == h && [h][0] == h;
    } else {
      assert (pre + [h] + post)[0] == pre[0] && (pre + [h])[0] == pre[0];
      assert (pre + [h] + post)[1..] == pre[1..] + [h] + post;
      assert (pre + [h])[1..] == pre[1..] + [h];
      match pre[0]
      case PassThrough => StopperEndsChain(pre[1..], h, post, p, setId);
      case MutateId(id) =>
        if setId(p, id).Some? {
          StopperEndsChain(pre[1..], h, post, setId(p, id).value, setId);
        }
      case Drop =>
      case Throw(_) =>
    }
  }

  /** Behind interceptors that only pass through, a short-circuiting interceptor
      yields "nothing sent" and a throwing one throws its own exception unchanged,
      whatever comes after it. */
  lemma {:induction false} StopperOutcome<P>(pre: seq<Interceptor>, h: Interceptor, post: seq<Interceptor>, p: P, setId: (P, string) -> Option<P>)
    requires forall i :: 0 <= i < |pre| ==> pre[i].PassThrough?
    requires h.Drop? || h.Throw?
    ensures Intercept(pre + [h] + post, p, setId) == if h.Drop? then Dropped else Threw(Raised(h.message))
    decreases |pre|
  {
    StopperEndsChain(pre, h, post, p, setId);
    if pre == [] {
      assert [h][0] == h && [h][1..] == [];
    } else {
      assert (pre + [h])[0] == pre[0];
      assert (pre + [h])[1..] == pre[1..] + [h];
      StopperOutcome(pre[1..], h, [], p, setId);
      assert pre[1..] + [h] + [] == pre[1..] + [h];
    }
  }

  /** Interceptor k runs exactly when the k interceptors registered before it pass
      the payload on, and it receives the payload as they left it. */
  lemma {:induction false} CallsReachedBy<P>(hooks: seq<Interceptor>, p: P, setId: (P, string) -> Option<P>, k: nat)
    requires k < |hooks|
    ensures k < |Calls(hooks, p, setId)| <==> Intercept(hooks[..k], p, setId).Delivered?
    ensures k < |Calls(hooks, p, setId)| ==> Calls(hooks, p, setId)[k] == Intercept(hooks[..k], p, setId).payload
    decreases k
  {
    if k > 0 {
      var rest := hooks[1..];
      assert hooks[..k][0] == hooks[0];
      assert hooks[..k][1..] == rest[..k - 1];
      match hooks[0]
      case PassThrough =>
        CallsReachedBy(rest, p, setId, k - 1);
      case MutateId(id) =>
        if setId(p, id).Some? {
          CallsReachedBy(rest, setId(p, id).value, setId, k - 1);
        }
      case Drop =>
      case Throw(_) =>
    }
  }

  /** The batch a send interceptor is handed differs from the batch sent at most in
      the id of its first activity. */
  predicate SameBatchButFirstId(b: seq<Activity>, batch: seq<Activity>) {
    && |b| == |batch|
    && (batch != [] ==> b[1..] == batch[1..] && b[0] == batch[0].(id := b[0].id))
  }

  /** Every send interceptor that runs sees the whole batch: the same activities,
      in the same order, with only the first one's id possibly set by an earlier
      interceptor. */
  lemma {:induction false} SendCallsSeeBatch(hooks: seq<Interceptor>, batch: seq<Activity>)
    ensures var c := Calls(hooks, batch, SetFirstId);
      forall i :: 0 <= i < |c| ==> SameBatchButFirstId(c[i], batch)
    decreases |hooks|
  {
    if hooks != [] {
      var c := Calls(hooks, batch, SetFirstId);
      var b' := batch;
      if hooks[0].MutateId? && SetFirstId(batch, hooks[0].id).Some? {
        b' := SetFirstId(batch, hooks[0].id).value;
      }
      SendCallsSeeBatch(hooks[1..], b');
      assert SameBatchButFirstId(b', batch);
      forall i | 0 <= i < |c| ensures SameBatchButFirstId(c[i], batch) {
        if i > 0 {
          assert c[i] == Calls(hooks[1..], b', SetFirstId)[i - 1];
        }
      }
    }
  }

  /** A non-empty send batch reaches the adapter exactly when every interceptor
      calls `next`; it then arrives with its first activity's id changed by the
      last id-setting interceptor and everything else as sent. */
  lemma {:induction false} SendDelivery(hooks: seq<Interceptor>, batch: seq<Activity>)
    requires batch != []
    ensures SendThrough(hooks, batch).Delivered? <==> AllForward(hooks)
    ensures AllForward(hooks) ==>
      SendThrough(hooks, batch) == Delivered(batch[0 := batch[0].(id := FinalId(hooks, batch[0].id))])
    decreases |hooks|
  {
    if hooks == [] {
      assert batch[0 := batch[0].(id := batch[0].id)] == batch;
    } else {
      var rest := hooks[1..];
      AllForwardCons(hooks);
      match hooks[0]
      case PassThrough => SendDelivery(rest, batch);
      case MutateId(id) =>
        var b' := batch[0 := batch[0].(id := Some(id))];
        SendDelivery(rest, b');
        assert b'[0 := b'[0].(id := FinalId(rest, b'[0].id))] == batch[0 := batch[0].(id := FinalId(hooks, batch[0].id))];
      case Drop =>
      case Throw(m) =>
    }
  }

  /** Head/tail view of AllForward. */
  lemma AllForwardCons(hooks: seq<Interceptor>)
    requires hooks != []
    ensures AllForward(hooks) <==> Forwards(hooks[0]) && AllForward(hooks[1..])
  {
    var rest := hooks[1..];
    if Forwards(hooks[0]) && AllForward(rest) {
      forall i | 0 <= i < |hooks| ensures Forwards(hooks[i]) {
        if i > 0 { assert hooks[i] == rest[i - 1]; }
      }
    }
    if AllForward(hooks) {
      forall i | 0 <= i < |rest| ensures Forwards(rest[i]) {
        assert rest[i] == hooks[i + 1];
      }
    }
  }

  /** An update reaches the adapter exactly when every interceptor calls `next`;
      the adapter then sees the id the last id-setting interceptor wrote. */
  lemma {:induction false} UpdateDelivery(hooks: seq<Interceptor>, a: Activity)
    ensures UpdateThrough(hooks, a).Delivered? <==> AllForward(hooks)
    ensures AllForward(hooks) ==> UpdateThrough(hooks, a) == Delivered(a.(id := FinalId(hooks, a.id)))
    decreases |hooks|
  {
    if hooks != [] {
      AllForwardCons(hooks);
      match hooks[0]
      case PassThrough => UpdateDelivery(hooks[1..], a);
      case MutateId(id) => UpdateDelivery(hooks[1..], a.(id := Some(id)));
      case Drop =>
      case Throw(m) =>
    }
  }

  /** A delete reaches the adapter exactly when every interceptor calls `next`;
      the adapter then sees the ActivityId the last id-setting interceptor wrote. */
  lemma {:induction false} DeleteDelivery(hooks: seq<Interceptor>, r: ConversationReference)
    ensures DeleteThrough(hooks, r).Delivered? <==> AllForward(hooks)
    ensures AllForward(hooks) ==> DeleteThrough(hooks, r) == Delivered(r.(activityId := FinalId(hooks, r.activityId)))
    decreases |hooks|
  {
    if hooks != [] {
      AllForwardCons(hooks);
      match hooks[0]
      case PassThrough => DeleteDelivery(hooks[1..], r);
      case MutateId(id) => DeleteDelivery(hooks[1..], r.(activityId := Some(id)));
      case Drop =>
      case Throw(m) =>
    }
  }

  /** Trace activities never set `Responded`; anything else does, and it stays set. */
  lemma RespondedRule(responded: bool, delivered: seq<Activity>)
    ensures responded ==> RespondedAfter(responded, delivered)
    ensures (forall i :: 0 <= i < |delivered| ==> delivered[i].kind == Trace) ==> RespondedAfter(responded, delivered) == responded
    ensures (exists i :: 0 <= i < |delivered| && delivered[i].kind != Trace) ==> RespondedAfter(responded, delivered)
  {
  }

  // ---------------------------------------------------------------------------
  // Turn services

  /** `Services.Add(key, service)`: a null key or service throws, and so does a key
      already present (dictionary `Add`). */
  function ServicesAdd(services: map<string, Value>, key: Option<string>, service: Option<Value>): Result<map<string, Value>, Exception> {
    if key.None? then Failure(ArgumentNull("key"))
    else if service.None? then Failure(ArgumentNull("service"))
    else if key.value in services then Failure(DuplicateKey(key.value))
    else Success(services[key.value := service.value])
  }

  /** `Services.Get<T>(key)`: a null key throws; an unknown key, or a value that is
      not a T, gives null. */
  function ServicesGet(services: map<string, Value>, key: Option<string>, typeName: string): Result<Option<Value>, Exception> {
    if key.None? then Failure(ArgumentNull("key"))
    else if key.value in services && IsInstance(services[key.value], typeName) then Success(Some(services[key.value]))
    else Success(None)
  }

  /** Add then Get under the same key returns the added value, and leaves every
      other key as it was. */
  lemma AddThenGet(services: map<string, Value>, key: string, v: Value, typeName: string, other: string)
    requires key !in services && IsInstance(v, typeName) && other != key
    ensures ServicesAdd(services, Some(key), Some(v)).Success?
    ensures var m := ServicesAdd(services, Some(key), Some(v)).value;
      && ServicesGet(m, Some(key), typeName) == Success(Some(v))
      && ServicesGet(m, Some(other), typeName) == ServicesGet(services, Some(other), typeName)
  {
  }

  /** Get of a null key throws; Get of an absent key, the empty key included, is null. */
  lemma GetEdgeCases(services: map<string, Value>, key: string, typeName: string)
    requires key !in services
    ensures ServicesGet(services, None, typeName) == Failure(ArgumentNull("key"))
    ensures ServicesGet(services, Some(key), typeName) == Success(None)
  {
  }

  /** The generic `Add<T>(service)` / `Get<T>()` use T's name as the key. */
  function TypedKey(typeName: string): Option<string> {
    Some(typeName)
  }

  lemma TypedAddThenGet(services: map<string, Value>, typeName: string, v: Value)
    requires typeName !in services && IsInstance(v, typeName)
    ensures ServicesAdd(services, TypedKey(typeName), Some(v)).Success?
    ensures ServicesGet(ServicesAdd(services, TypedKey(typeName), Some(v)).value, TypedKey(typeName), typeName) == Success(Some(v))
  {
  }

  // ---------------------------------------------------------------------------
  // The adapter and the context

  /** The adapter at the bottom of the delivery chains: it records what reached it
      and answers each activity with a response carrying that activity's id. */
  class Adapter {
    var sent: seq<Activity>
    var updated: seq<Activity>
    var deleted: seq<ConversationReference>

    constructor ()
      ensures sent == [] && updated == [] && deleted == []
    {
      sent, updated, deleted := [], [], [];
    }

    method SendActivities(batch: seq<Activity>) returns (responses: seq<ResourceResponse>)
      modifies this`sent
      ensures sent == old(sent) + batch
      ensures |responses| == |batch|
      ensures forall i :: 0 <= i < |batch| ==> responses[i].id == batch[i].id
    {
      sent := sent + batch;
      responses := [];
      var i := 0;
      while i < |batch|
        invariant 0 <= i <= |batch|
        invariant |responses| == i
        invariant forall j :: 0 <= j < i ==> responses[j].id == batch[j].id
      {
        responses := responses + [ResourceResponse(batch[i].id)];
        i := i + 1;
      }
    }

    method UpdateActivity(a: Activity) returns (response: ResourceResponse)
      modifies this`updated
      ensures updated == old(updated) + [a]
      ensures response.id == a.id
    {
      updated := updated + [a];
      response := ResourceResponse(a.id);
    }

    method DeleteActivity(r: ConversationReference)
      modifies this`deleted
      ensures deleted == old(deleted) + [r]
    {
      deleted := deleted + [r];
    }
  }

  class TurnContext {
    const adapter: Adapter
    const activity: Activity
    var responded: bool
    var services: map<string, Value>
    var onSend: seq<Interceptor>
    var onUpdate: seq<Interceptor>
    var onDelete: seq<Interceptor>
    /** What each interceptor invocation was handed, in order: the effect an
        interceptor's own code can observe (a call counter, a "was called" flag). */
    var sendSeen: seq<seq<Activity>>
    var updateSeen: seq<Activity>
    var deleteSeen: seq<ConversationReference>

    /** A fresh context has not responded, has no services and no interceptors. */
    constructor (adapter: Adapter, activity: Activity)
      ensures this.adapter == adapter && this.activity == activity
      ensures !responded && services == map[]
      ensures onSend == [] && onUpdate == [] && onDelete == []
      ensures sendSeen == [] && updateSeen == [] && deleteSeen == []
    {
      this.adapter := adapter;
      this.activity := activity;
      responded := false;
      services := map[];
      onSend, onUpdate, onDelete := [], [], [];
      sendSeen, updateSeen, deleteSeen := [], [], [];
    }

    /** `new TurnContext(adapter, activity)`, which rejects a null adapter and then a
        null activity. */
    static method Create(adapter: Adapter?, activity: Option<Activity>) returns (c: TurnContext?, error: Option<Exception>)
      ensures adapter == null ==> c == null && error == Some(ArgumentNull("adapter"))
      ensures adapter != null && activity.None? ==> c == null && error == Some(ArgumentNull("activity"))
      ensures adapter != null && activity.Some? ==>
        && error.None? && c != null && fresh(c)
        && c.adapter == adapter && c.activity == activity.value
        && !c.responded && c.services == map[] && c.onSend == [] && c.onUpdate == [] && c.onDelete == []
        && c.sendSeen == [] && c.updateSeen == [] && c.deleteSeen == []
    {
      if adapter == null {
        return null, Some(ArgumentNull("adapter"));
      }
      if activity.None? {
        return null, Some(ArgumentNull("activity"));
      }
      c := new TurnContext(adapter, activity.value);
      error := None;
    }

    method OnSendActivities(h: Interceptor)
      modifies this`onSend
      ensures onSend == old(onSend) + [h]
    {
      onSend := onSend + [h];
    }

    method OnUpdateActivity(h: Interceptor)
      modifies this`onUpdate
      ensures onUpdate == old(onUpdate) + [h]
    {
      onUpdate := onUpdate + [h];
    }

    method OnDeleteActivity(h: Interceptor)
      modifies this`onDelete
      ensures onDelete == old(onDelete) + [h]
    {
      onDelete := onDelete + [h];
    }

    /** `SendActivities(batch)`: runs the send interceptors over the batch; when they
        all call `next`, the adapter receives the batch as they left it, one
        response per activity comes back in order, and `Responded` is set if
        anything other than a trace went out. A short-circuit sends nothing and
        returns null; an interceptor's exception reaches the caller unchanged. */
    method SendActivities(batch: seq<Activity>) returns (r: Result<Option<seq<ResourceResponse>>, Exception>)
      modifies this`responded, this`sendSeen, adapter`sent
      ensures sendSeen == old(sendSeen) + Calls(onSend, batch, SetFirstId)
      ensures match SendThrough(onSend, batch)
        case Delivered(b) =>
          && adapter.sent == old(adapter.sent) + b
          && responded == RespondedAfter(old(responded), b)
          && r.Success? && r.value.Some? && |r.value.value| == |b|
          && (forall i :: 0 <= i < |b| ==> r.value.value[i].id == b[i].id)
        case Dropped => adapter.sent == old(adapter.sent) && responded == old(responded) && r == Success(None)
        case Threw(e) => adapter.sent == old(adapter.sent) && responded == old(responded) && r == Failure(e)
    {
      sendSeen := sendSeen + Calls(onSend, batch, SetFirstId);
      match SendThrough(onSend, batch)
      case Delivered(b) =>
        var responses := adapter.SendActivities(b);
        responded := responded || exists i :: 0 <= i < |b| && b[i].kind != Trace;
        r := Success(Some(responses));
      case Dropped =>
        r := Success(None);
      case Threw(e) =>
        r := Failure(e);
    }

    /** `SendActivity(activity)`: a batch of one; the first response, or null when
        nothing was sent. */
    method SendActivity(a: Activity) returns (r: Result<Option<ResourceResponse>, Exception>)
      modifies this`responded, this`sendSeen, adapter`sent
      ensures sendSeen == old(sendSeen) + Calls(onSend, [a], SetFirstId)
      ensures match SendThrough(onSend, [a])
        case Delivered(b) =>
          && adapter.sent == old(adapter.sent) + b
          && responded == RespondedAfter(old(responded), b)
          && |b| == 1 && r == Success(Some(ResourceResponse(b[0].id)))
        case Dropped => adapter.sent == old(adapter.sent) && responded == old(responded) && r == Success(None)
        case Threw(e) => adapter.sent == old(adapter.sent) && responded == old(responded) && r == Failure(e)
    {
      var rs := SendActivities([a]);
      if SendThrough(onSend, [a]).Delivered? {
        SendDelivery(onSend, [a]);
      }
      match rs
      case Failure(e) => r := Failure(e);
      case Success(responses) =>
        if responses.None? || |responses.value| == 0 {
          r := Success(None);
        } else {
          r := Success(Some(responses.value[0]));
        }
    }

    /** `UpdateActivity(activity)`: runs the update interceptors; when they all call
        `next` the adapter updates the activity as they left it. */
    method UpdateActivity(a: Activity) returns (r: Result<Option<ResourceResponse>, Exception>)
      modifies this`updateSeen, adapter`updated
      ensures updateSeen == old(updateSeen) + Calls(onUpdate, a, SetActivityId)
      ensures match UpdateThrough(onUpdate, a)
        case Delivered(a') => adapter.updated == old(adapter.updated) + [a'] && r == Success(Some(ResourceResponse(a'.id)))
        case Dropped => adapter.updated == old(adapter.updated) && r == Success(None)
        case Threw(e) => adapter.updated == old(adapter.updated) && r == Failure(e)
    {
      updateSeen := updateSeen + Calls(onUpdate, a, SetActivityId);
      match UpdateThrough(onUpdate, a)
      case Delivered(a') =>
        var response := adapter.UpdateActivity(a');
        r := Success(Some(response));
      case Dropped =>
        r := Success(None);
      case Threw(e) =>
        r := Failure(e);
    }

    /** `DeleteActivity(reference)`: runs the delete interceptors; when they all call
        `next` the adapter deletes the reference as they left it. */
    method DeleteReference(ref: ConversationReference) returns (r: Outcome)
      modifies this`deleteSeen, adapter`deleted
      ensures deleteSeen == old(deleteSeen) + Calls(onDelete, ref, SetReferenceId)
      ensures match DeleteThrough(onDelete, ref)
        case Delivered(ref') => adapter.deleted == old(adapter.deleted) + [ref'] && r == Ok
        case Dropped => adapter.deleted == old(adapter.deleted) && r == Ok
        case Threw(e) => adapter.deleted == old(adapter.deleted) && r == Exn(e)
    {
      deleteSeen := deleteSeen + Calls(onDelete, ref, SetReferenceId);
      match DeleteThrough(onDelete, ref)
      case Delivered(ref') =>
        adapter.DeleteActivity(ref');
        r := Ok;
      case Dropped =>
        r := Ok;
      case Threw(e) =>
        r := Exn(e);
    }

    /** `DeleteActivity(activityId)`: the reference of the inbound activity, pointed
        at the given id. */
    method DeleteActivity(activityId: string) returns (r: Outcome)
      modifies this`deleteSeen, adapter`deleted
      ensures var ref := ReferenceOf(activity).(activityId := Some(activityId));
        deleteSeen == old(deleteSeen) + Calls(onDelete, ref, SetReferenceId)
      ensures var ref := ReferenceOf(activity).(activityId := Some(activityId));
        match DeleteThrough(onDelete, ref)
        case Delivered(ref') => adapter.deleted == old(adapter.deleted) + [ref'] && r == Ok
        case Dropped => adapter.deleted == old(adapter.deleted) && r == Ok
        case Threw(e) => adapter.deleted == old(adapter.deleted) && r == Exn(e)
    {
      var ref := ReferenceOf(activity).(activityId := Some(activityId));
      r := DeleteReference(ref);
    }

    method AddService(key: Option<string>, service: Option<Value>) returns (r: Outcome)
      modifies this`services
      ensures match ServicesAdd(old(services), key, service)
        case Success(m) => services == m && r == Ok
        case Failure(e) => services == old(services) && r == Exn(e)
    {
      match ServicesAdd(services, key, service)
      case Success(m) =>
        services := m;
        r := Ok;
      case Failure(e) =>
        r := Exn(e);
    }

    /** `Services.Get<T>(key)` for the type named typeName. */
    method GetService(key: Option<string>, typeName: string) returns (r: Result<Option<Value>, Exception>)
      ensures r == ServicesGet(services, key, typeName)
      ensures key.None? ==> r == Failure(ArgumentNull("key"))
      ensures key.Some? && key.value in services && services[key.value].typeName == typeName ==> r == Success(Some(services[key.value]))
    {
      r := ServicesGet(services, key, typeName);
    }
  }
}
