/**
 * The thunks of client/app/actions/index.js as imperative methods. Each one reads the
 * session snapshot it is given (`getState()`), builds its commands step by step and performs
 * its effects in order on an `EffectLog`, which stands for the `sendCommand`, `dispatch`,
 * `history.push`, request and settings capabilities. The methods that choose among several
 * effect lists are proved to append exactly the effects their `ActionEffects` function gives;
 * the one-effect methods state the one effect they append.
 */
module Actions {
  import opened Wrappers
  import opened JsValues
  import opened Protocol
  import opened ActionEffects

  /** The ordered record of every external effect performed so far. */
  class EffectLog {
    var effects: seq<Effect>

    constructor ()
      ensures effects == []
    {
      effects := [];
    }

    /** Performs one effect: a send, a dispatch, a navigation or a request. */
    method Perform(e: Effect)
      modifies this
      ensures effects == old(effects) + [e]
    {
      effects := effects + [e];
    }
  }

  /** Effects appended in three steps are the three parts appended at once. */
  lemma Regroup(log: seq<Effect>, a: seq<Effect>, b: seq<Effect>, c: seq<Effect>)
    ensures log + a + b + c == log + (a + b + c)
  {
  }

  /** The payload of `joinRoom`: the preset identity fields, then at most one credential. */
  method JoinCommandPayload(state: Snapshot, password: Option<string>) returns (joinCommandPayload: Payload)
    ensures joinCommandPayload == IdentityFields(state) + CredentialField(state, password)
  {
    joinCommandPayload := map[];
    if Present(state.presetUsername) {
      joinCommandPayload := joinCommandPayload["username" := Str(state.presetUsername.value)];
    }
    assert joinCommandPayload == PresetField("username", state.presetUsername);
    if Present(state.presetEmail) {
      joinCommandPayload := joinCommandPayload["email" := Str(state.presetEmail.value)];
    }
    assert joinCommandPayload == PresetField("username", state.presetUsername) + PresetField("email", state.presetEmail);
    if IsInteger(state.presetAvatar) {
      joinCommandPayload := joinCommandPayload["avatar" := state.presetAvatar];
    }
    assert joinCommandPayload == IdentityFields(state);
    ghost var identity := joinCommandPayload;
    if Present(password) {
      joinCommandPayload := joinCommandPayload["password" := Str(password.value)];
    } else if Present(state.userToken) {
      joinCommandPayload := joinCommandPayload["token" := Str(state.userToken.value)];
    }
    assert joinCommandPayload == identity + CredentialField(state, password);
  }

  /** `joinRoom(roomId, password)` */
  method JoinRoom(out: EffectLog, env: Env, state: Snapshot, roomId: Option<string>, password: Option<string>)
    modifies out
    ensures out.effects == old(out.effects) + JoinRoomEffects(env, state, roomId, password)
  {
    var normalizedRoomId := if Present(roomId) then ToLower(roomId.value) else env.uuid;
    var joinCommandPayload := JoinCommandPayload(state, password);

    var joinCommand := Command("joinRoom", Some(normalizedRoomId), None, joinCommandPayload);
    if Present(state.presetUserId) {
      joinCommand := joinCommand.(userId := state.presetUserId);
    }

    assert joinCommand == JoinCommand(state, CanonicalRoomId(env, roomId), password);
    out.Perform(SendCommand(joinCommand));
  }

  /** `locationChanged(pathname)` */
  method LocationChanged(out: EffectLog, env: Env, state: Snapshot, pathname: string)
    modifies out
    ensures out.effects == old(out.effects) + LocationChangedEffects(env, state, pathname)
  {
    if IsRoomIdGivenInPathname(env, pathname) && !Present(state.roomId) {
      JoinRoom(out, env, state, Some(pathname[1..]), None);
    } else if pathname == "" || (|pathname| < 2 && Present(state.userId) && Present(state.roomId)) {
      out.Perform(SendCommand(LEAVE_ROOM_COMMAND));
    }
    out.Perform(Dispatch(Action.LocationChanged(pathname)));
  }

  /** `onSocketConnect()` */
  method OnSocketConnect(out: EffectLog, env: Env, state: Snapshot)
    modifies out
    ensures out.effects == old(out.effects) + OnSocketConnectEffects(env, state)
  {
    var roomId := state.roomId;
    if Present(roomId) {
      JoinRoom(out, env, state, roomId, None);
    }
  }

  /** `fetchCurrentRoom` (request side only) */
  method FetchCurrentRoom(out: EffectLog, state: Snapshot)
    modifies out
    ensures out.effects == old(out.effects) + FetchCurrentRoomEffects(state)
  {
    if !Present(state.roomId) {
      return;
    }
    out.Perform(GetRoom(RoomRequest(state.roomId.value, state.userToken)));
  }

  /** `tryToRecoverOnRejection(event)` */
  method TryToRecoverOnRejection(out: EffectLog, state: Snapshot, event: Event)
    modifies out
    ensures out.effects == old(out.effects) + RecoveryEffects(state, event)
  {
    if event.payload.None? || event.payload.value.command.None? {
      return;
    }
    var failedCommandName := event.payload.value.command.value.name;
    if failedCommandName == Some("giveStoryEstimate") ||
       failedCommandName == Some("clearStoryEstimate") ||
       failedCommandName == Some("newEstimationRound") ||
       failedCommandName == Some("reveal") ||
       failedCommandName == Some("kick")
    {
      FetchCurrentRoom(out, state);
    }
  }

  /**
   * `eventReceived(event)`; `state` is the snapshot read by the recovery controller, after
   * the two dispatches.
   */
  method EventReceived(out: EffectLog, env: Env, state: Snapshot, event: Event)
    modifies out
    ensures out.effects == old(out.effects) + EventReceivedEffects(env, state, event)
  {
    if !(event.name in env.eventActionTypes && env.eventActionTypes[event.name] != "") {
      // unknown incoming event type: logged, nothing dispatched
      return;
    }
    var matchingType := env.eventActionTypes[event.name];
    ghost var routed := RoutedActions(event, matchingType);
    ghost var navigation := JoinNavigation(event);
    ghost var recovery := if IsRejectionType(env, matchingType) then RecoveryEffects(state, event) else [];
    assert EventReceivedEffects(env, state, event) == routed + navigation + recovery;
    ghost var before := out.effects;

    out.Perform(Dispatch(Action.EventReceived(event.name, event.correlationId)));
    out.Perform(Dispatch(EventAction(event, matchingType)));
    assert out.effects == before + routed;

    if event.name == "joinedRoom" {
      out.Perform(PushPath("/" + AsString(event.roomId)));
    }
    assert out.effects == before + routed + navigation;

    ghost var afterRouting := out.effects;
    if "commandRejected" in env.eventActionTypes && matchingType == env.eventActionTypes["commandRejected"] {
      TryToRecoverOnRejection(out, state, event);
    }
    assert out.effects == afterRouting + recovery;
    Regroup(before, routed, navigation, recovery);
  }

  /** `selectStory(storyId)` */
  method SelectStory(out: EffectLog, state: Snapshot, storyId: string)
    modifies out
    ensures out.effects == old(out.effects) + SelectStoryEffects(state, storyId)
  {
    if state.selectedStory == Some(storyId) {
      return;
    }
    out.Perform(SendCommand(Command("selectStory", None, None, map["storyId" := Str(storyId)])));
  }

  /** `selectNextStory()` */
  method SelectNextStory(out: EffectLog, env: Env, state: Snapshot)
    modifies out
    ensures out.effects == old(out.effects) + SelectNextStoryEffects(env, state)
  {
    var nextStoryId := env.findNextStoryIdToEstimate(state);
    if Present(nextStoryId) {
      out.Perform(SendCommand(Command("selectStory", None, None, map["storyId" := Str(nextStoryId.value)])));
    }
  }

  /** `giveStoryEstimate(storyId, value)` */
  method GiveStoryEstimate(out: EffectLog, state: Snapshot, storyId: string, value: Value)
    modifies out
    ensures out.effects == old(out.effects) + [SendCommand(EstimateCommand(state, storyId, value))]
  {
    var payload: Payload := map["value" := value, "storyId" := Str(storyId)];
    var name: string;

    if state.estimations.Some? &&
       storyId in state.estimations.value &&
       OwnEstimate(state, storyId) == value
    {
      name := "clearStoryEstimate";
      payload := payload - {"value"};
      assert payload == map["storyId" := Str(storyId)];
    } else {
      name := "giveStoryEstimate";
    }

    assert Command(name, None, None, payload) == EstimateCommand(state, storyId, value);
    out.Perform(SendCommand(Command(name, None, None, payload)));
  }

  /**
   * The one-command emitters `addStory`, `changeStory`, `trashStory`, `restoreStory`,
   * `deleteStory`, `newEstimationRound`, `reveal`, `setUsername`, `setEmail`, `setAvatar`,
   * `toggleExcluded`, `toggleAutoReveal`, `kick`, `setCardConfig` and `setPassword`.
   */
  method SendIntent(out: EffectLog, intent: Intent)
    modifies out
    ensures out.effects == old(out.effects) + [SendCommand(IntentCommand(intent))]
  {
    out.Perform(SendCommand(IntentCommand(intent)));
  }

  /** `leaveRoom()`: navigates to the landing page; `locationChanged` sends the command. */
  method LeaveRoom(out: EffectLog)
    modifies out
    ensures out.effects == old(out.effects) + LEAVE_ROOM_EFFECTS
  {
    out.Perform(PushPath("/"));
  }

  /** `importCsvFile(file)`: issues the file read; the command follows its completion. */
  method ImportCsvFile(out: EffectLog, file: Value)
    modifies out
    ensures out.effects == old(out.effects) + [ReadDroppedFile(file)]
  {
    out.Perform(ReadDroppedFile(file));
  }

  /** `fetchStatus()`: issues the app-status request. */
  method FetchStatus(out: EffectLog)
    modifies out
    ensures out.effects == old(out.effects) + [GetAppStatus]
  {
    out.Perform(GetAppStatus);
  }

  /** `setLanguage(language)`: persists the language, then returns its action. */
  method SetLanguageAction(out: EffectLog, language: string) returns (action: Action)
    modifies out
    ensures out.effects == old(out.effects) + [WriteSetting(SetPresetLanguage(language))]
    ensures action == SetLanguage(language)
  {
    out.Perform(WriteSetting(SetPresetLanguage(language)));
    action := SetLanguage(language);
  }

  /** `hideNewUserHints()`: persists the dismissal, then returns its action. */
  method HideNewUserHintsAction(out: EffectLog) returns (action: Action)
    modifies out
    ensures out.effects == old(out.effects) + [WriteSetting(SetHideNewUserHints(true))]
    ensures action == HideNewUserHints
  {
    out.Perform(WriteSetting(SetHideNewUserHints(true)));
    action := HideNewUserHints;
  }
}
