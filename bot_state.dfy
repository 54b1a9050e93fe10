/** Turn-scoped state (BotState.cs): a state object loaded from storage under a key
    derived from the turn, attached to the turn services under a property name,
    and written back afterwards, with last-writer-wins forcing the eTag to "*". */
module BotStates {
  import opened Wrappers
  import opened Runtime
  import opened Schema
  import opened Decimal
  import opened Storage
  import opened TurnContexts

  /** `StateSettings`; a missing settings object means last-writer-wins. */
  datatype StateSettings = StateSettings(lastWriterWins: bool)

  const DefaultSettings: StateSettings := StateSettings(true)

  /** The state type TState: its runtime name, whether it implements `IStoreItem`,
      and the body `new TState()` starts with. */
  datatype StateType = StateType(name: string, isStoreItem: bool, defaultBody: Body)

  /** `new TState()`: the default body and no eTag. */
  function NewState(t: StateType): Value {
    Value(t.name, if t.isStoreItem then StoreItemObject else PlainObject, t.defaultBody, None)
  }

  /** The key delegate: a key derived from the turn's inbound activity. */
  type KeyDelegate = Activity -> string

  /** What a BotState is configured with, apart from its storage. */
  datatype StateConfig = StateConfig(propertyName: string, keyOf: KeyDelegate, settings: StateSettings, stateType: StateType)

  /** The constructor's argument checks, in their order. */
  function ConstructorCheck(storageGiven: bool, propertyName: Option<string>, keyDelegate: Option<KeyDelegate>): Option<Exception> {
    if !storageGiven then Some(ArgumentNull("storage"))
    else if propertyName.None? then Some(ArgumentNull("propertyName"))
    else if keyDelegate.None? then Some(ArgumentNull("keyDelegate"))
    else None
  }

  /** `settings ?? new StateSettings()`. */
  function ResolveSettings(settings: Option<StateSettings>): StateSettings {
    if settings.Some? then settings.value else DefaultSettings
  }

  /** `Read`: the record stored under the turn's key when it is a TState, otherwise
      a fresh default. */
  function LoadedState(cfg: StateConfig, mem: map<string, Record>, a: Activity): Value {
    var key := cfg.keyOf(a);
    if Present(mem, key) && IsInstance(mem[key].value, cfg.stateType.name) then mem[key].value
    else NewState(cfg.stateType)
  }

  /** What last-writer-wins does to a state object: a store item gets the eTag "*". */
  function WithWildcardETag(v: Value): Value {
    if v.kind == StoreItemObject then v.(eTag := Some("*")) else v
  }

  /** The object `Write` hands to storage, and what the caller's object becomes: a
      null state is replaced by a fresh TState, and under last-writer-wins a store
      item's eTag is set to "*". */
  function Prepared(cfg: StateConfig, state: Option<Value>): Value {
    var s := if state.Some? then state.value else NewState(cfg.stateType);
    if cfg.settings.lastWriterWins then WithWildcardETag(s) else s
  }

  datatype SaveResult = SaveResult(outcome: Outcome, store: StoreState, callerState: Value)

  /** `Write(context, state)`: one change, under the turn's key, sent to storage. */
  function SaveState(cfg: StateConfig, st: StoreState, a: Activity, state: Option<Value>): SaveResult {
    var s := Prepared(cfg, state);
    var w := WriteAll(st, [Change(cfg.keyOf(a), Some(s))]);
    SaveResult(w.outcome, w.state, s)
  }

  /** `ReadToContextService`: the loaded state is added to the services under the
      property name. */
  function ReadToContext(cfg: StateConfig, st: StoreState, a: Activity, services: map<string, Value>): Result<map<string, Value>, Exception> {
    ServicesAdd(services, Some(cfg.propertyName), Some(LoadedState(cfg, st.memory, a)))
  }

  datatype WriteBack = WriteBack(outcome: Outcome, store: StoreState, services: map<string, Value>)

  /** `WriteFromContextService`: the TState found under the property name (or null)
      is written; the object in the services is the caller's object, so the eTag
      change last-writer-wins makes to it shows there. */
  function WriteFromContext(cfg: StateConfig, st: StoreState, a: Activity, services: map<string, Value>): WriteBack {
    var got := ServicesGet(services, Some(cfg.propertyName), cfg.stateType.name).value;
    var saved := SaveState(cfg, st, a, got);
    WriteBack(saved.outcome, saved.store, if got.Some? then services[cfg.propertyName := saved.callerState] else services)
  }

  // ---------------------------------------------------------------------------
  // Properties

  /** The constructor rejects a null storage, then a null property name, then a
      null key delegate, and accepts everything else; missing settings default to
      last-writer-wins. */
  lemma ConstructorValidation(storageGiven: bool, propertyName: Option<string>, keyDelegate: Option<KeyDelegate>, settings: Option<StateSettings>)
    ensures ConstructorCheck(storageGiven, propertyName, keyDelegate).None?
        <==> storageGiven && propertyName.Some? && keyDelegate.Some?
    ensures !storageGiven ==> ConstructorCheck(storageGiven, propertyName, keyDelegate) == Some(ArgumentNull("storage"))
    ensures settings.None? ==> ResolveSettings(settings).lastWriterWins
  {
  }

  /** A loaded state is always a TState: the stored one, or a fresh default that
      carries no eTag. */
  lemma LoadedStateIsState(cfg: StateConfig, mem: map<string, Record>, a: Activity)
    ensures IsInstance(LoadedState(cfg, mem, a), cfg.stateType.name)
    ensures var key := cfg.keyOf(a);
      !Present(mem, key) || !IsInstance(mem[key].value, cfg.stateType.name) ==> LoadedState(cfg, mem, a).eTag.None?
  {
  }

  /** Under last-writer-wins a save never conflicts: a store item goes out with the
      eTag "*" and any other object is not checked. Only a null record left under
      the key by the constructor's dictionary can still make it fail. */
  lemma LastWriterWinsNeverConflicts(cfg: StateConfig, st: StoreState, a: Activity, state: Option<Value>)
    requires cfg.settings.lastWriterWins
    requires !NullAt(st.memory, cfg.keyOf(a))
    requires state.Some? ==> state.value.kind != Primitive
    ensures SaveState(cfg, st, a, state).outcome == Ok
    ensures state.Some? && state.value.kind == StoreItemObject ==> SaveState(cfg, st, a, state).callerState.eTag == Some("*")
  {
    var key := cfg.keyOf(a);
    var s := Prepared(cfg, state);
    if s.kind == StoreItemObject {
      NoConflictCases(st, key, s);
    } else {
      PlainObjectWrite(st, key, s);
    }
  }

  /** Without last-writer-wins the state's own eTag is sent unchanged; the save
      fails exactly when the store's conflict rule says so, the conflict reaches
      the caller as it is, and the store is then unchanged. */
  lemma StrictSavePassesETag(cfg: StateConfig, st: StoreState, a: Activity, s: Value)
    requires !cfg.settings.lastWriterWins
    requires !NullAt(st.memory, cfg.keyOf(a)) && s.kind == StoreItemObject
    ensures SaveState(cfg, st, a, Some(s)).callerState == s
    ensures var key := cfg.keyOf(a); var r := SaveState(cfg, st, a, Some(s));
      && (r.outcome.Exn? <==> Conflicts(StoredETag(st.memory, key), s.eTag))
      && (r.outcome.Exn? ==> r.store == st && r.outcome.error == ETagConflict(s.eTag, StoredETag(st.memory, key).value))
  {
    StoreItemWrite(st, cfg.keyOf(a), s);
  }

  /** Loading after a successful save yields what was saved, with the eTag the store
      assigned when it is a store item. */
  lemma LoadAfterSave(cfg: StateConfig, st: StoreState, a: Activity, state: Option<Value>)
    requires SaveState(cfg, st, a, state).outcome.Ok?
    requires IsInstance(Prepared(cfg, state), cfg.stateType.name)
    ensures LoadedState(cfg, SaveState(cfg, st, a, state).store.memory, a) == StoredCopy(Prepared(cfg, state), st.counter)
  {
    var s := Prepared(cfg, state);
    WriteThenRead(st, cfg.keyOf(a), s);
    var after := SaveState(cfg, st, a, state).store;
    ReadSingleKey(after.memory, cfg.keyOf(a));
    assert map[cfg.keyOf(a) := StoredCopy(s, st.counter)][cfg.keyOf(a)] == StoredCopy(s, st.counter);
  }

  /** Two saves of the same loaded store-item state, the second one stale: under
      last-writer-wins both succeed; otherwise the second one fails with a conflict
      naming the stale eTag and the one the first save assigned. */
  lemma StaleSecondSave(cfg: StateConfig, st: StoreState, a: Activity)
    requires WellStamped(st)
    requires cfg.stateType.isStoreItem
    requires var key := cfg.keyOf(a);
      Present(st.memory, key) && st.memory[key].value.kind == StoreItemObject
      && IsInstance(st.memory[key].value, cfg.stateType.name)
    ensures var s0 := LoadedState(cfg, st.memory, a);
      var first := SaveState(cfg, st, a, Some(s0));
      var second := SaveState(cfg, first.store, a, Some(s0));
      && first.outcome == Ok
      && (cfg.settings.lastWriterWins ==> second.outcome == Ok)
      && (!cfg.settings.lastWriterWins ==>
            second.outcome == Exn(ETagConflict(s0.eTag, NatToString(st.counter))))
  {
    var key := cfg.keyOf(a);
    var s0 := LoadedState(cfg, st.memory, a);
    assert s0 == st.memory[key].value;
    var t := s0.eTag;
    assert IssuedTag(t, st.counter);
    var first := SaveState(cfg, st, a, Some(s0));
    if cfg.settings.lastWriterWins {
      LastWriterWinsNeverConflicts(cfg, st, a, Some(s0));
      StoreItemWrite(st, key, Prepared(cfg, Some(s0)));
      LastWriterWinsNeverConflicts(cfg, first.store, a, Some(s0));
    } else {
      assert Prepared(cfg, Some(s0)) == s0;
      StoreItemWrite(st, key, s0);
      assert first.outcome == Ok;
      var stamp := NatToString(st.counter);
      assert first.store.memory[key] == Some(s0.(eTag := Some(stamp)));
      DecimalRoundTrip(st.counter);
      assert t != Some(stamp);
      StoreItemWrite(first.store, key, s0);
      assert StoredETag(first.store.memory, key) == Some(stamp);
    }
  }

  /** What `OnTurn` writes back is the state it loaded, fetched from the services by
      the same property name. */
  lemma WriteBackSavesLoadedState(cfg: StateConfig, st: StoreState, a: Activity, services: map<string, Value>)
    requires ReadToContext(cfg, st, a, services).Success?
    ensures var m := ReadToContext(cfg, st, a, services).value;
      var s := LoadedState(cfg, st.memory, a);
      var saved := SaveState(cfg, st, a, Some(s));
      WriteFromContext(cfg, st, a, m) == WriteBack(saved.outcome, saved.store, m[cfg.propertyName := saved.callerState])
  {
    LoadedStateIsState(cfg, st.memory, a);
  }

  // ---------------------------------------------------------------------------
  // The middleware object

  class BotState {
    const storage: MemoryStorage
    const config: StateConfig

    constructor (storage: MemoryStorage, config: StateConfig)
      ensures this.storage == storage && this.config == config
    {
      this.storage := storage;
      this.config := config;
    }

    /** `new BotState<TState>(storage, propertyName, keyDelegate, settings)`. */
    static method Create(storage: MemoryStorage?, propertyName: Option<string>, keyDelegate: Option<KeyDelegate>,
                         settings: Option<StateSettings>, stateType: StateType)
      returns (b: BotState?, error: Option<Exception>)
      ensures error == ConstructorCheck(storage != null, propertyName, keyDelegate)
      ensures error.Some? <==> b == null
      ensures error.None? ==>
        && b != null && fresh(b) && b.storage == storage
        && b.config.propertyName == propertyName.value && b.config.keyOf == keyDelegate.value
        && b.config.settings == ResolveSettings(settings) && b.config.stateType == stateType
    {
      error := ConstructorCheck(storage != null, propertyName, keyDelegate);
      if error.Some? {
        return null, error;
      }
      b := new BotState(storage, StateConfig(propertyName.value, keyDelegate.value, ResolveSettings(settings), stateType));
    }

    /** `Read(context)`: reads the single derived key and keeps the entry only when it
        is a TState. A single-key read cannot fail. */
    method Read(ctx: TurnContext) returns (r: Result<Value, Exception>)
      ensures r == Success(LoadedState(config, storage.memory, ctx.activity))
    {
      var key := config.keyOf(ctx.activity);
      var items := storage.Read([key]);
      ReadSingleKey(storage.memory, key);
      match items
      case Failure(e) =>
        r := Failure(e);
      case Success(m) =>
        var state := if key in m && IsInstance(m[key], config.stateType.name) then m[key] else NewState(config.stateType);
        r := Success(state);
    }

    /** `ReadToContextService(context)`. */
    method ReadToContextService(ctx: TurnContext) returns (r: Outcome)
      modifies ctx`services
      ensures match ReadToContext(config, storage.State(), ctx.activity, old(ctx.services))
        case Success(m) => ctx.services == m && r == Ok
        case Failure(e) => ctx.services == old(ctx.services) && r == Exn(e)
    {
      var state := Read(ctx);
      r := ctx.AddService(Some(config.propertyName), Some(state.value));
    }

    /** `Write(context, state)`: builds the one-entry change set, forces store items
        to "*" under last-writer-wins, and writes. Returns the caller's object as the
        write left it. */
    method Write(ctx: TurnContext, state: Option<Value>) returns (r: Outcome, callerState: Value)
      modifies storage
      ensures var saved := SaveState(config, old(storage.State()), ctx.activity, state);
        storage.State() == saved.store && r == saved.outcome && callerState == saved.callerState
    {
      var s := if state.None? then NewState(config.stateType) else state.value;
      var key := config.keyOf(ctx.activity);
      var changes := [Change(key, Some(s))];
      if config.settings.lastWriterWins {
        var i := 0;
        while i < |changes|
          invariant 0 <= i <= |changes| == 1
          invariant changes[0].key == key
          invariant changes[0].value == Some(if i == 0 then s else WithWildcardETag(s))
        {
          var item := changes[i].value.value;
          if item.kind == StoreItemObject {
            changes := changes[i := Change(changes[i].key, Some(item.(eTag := Some("*"))))];
          }
          i := i + 1;
        }
      }
      assert changes == [Change(key, Some(Prepared(config, state)))];
      callerState := changes[0].value.value;
      r := storage.Write(changes);
    }

    /** `WriteFromContextService(context)`. */
    method WriteFromContextService(ctx: TurnContext) returns (r: Outcome)
      modifies storage, ctx`services
      ensures var wb := WriteFromContext(config, old(storage.State()), ctx.activity, old(ctx.services));
        storage.State() == wb.store && ctx.services == wb.services && r == wb.outcome
    {
      var got := ctx.GetService(Some(config.propertyName), config.stateType.name);
      var state := got.value;
      var callerState;
      r, callerState := Write(ctx, state);
      if state.Some? {
        // the services hold the very object Write changed
        ctx.services := ctx.services[config.propertyName := callerState];
      }
    }
  }
}
