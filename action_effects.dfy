/**
 * What each thunk of client/app/actions/index.js does, as the ordered list of effects it
 * performs on a given session snapshot: commands sent, actions dispatched, paths pushed,
 * room refetches and other requests issued. The methods of module `Actions` perform these
 * effects step by step; the functions here are their specification.
 */
module ActionEffects {
  import opened Wrappers
  import opened JsValues
  import opened Protocol

  // ---------------------------------------------------------------- joining

  /** `roomId ? roomId.toLowerCase() : uuid()` */
  function CanonicalRoomId(env: Env, roomId: Option<string>): (r: string)
    ensures Present(roomId) ==> r == ToLower(roomId.value) && IsLower(r)
    ensures !Present(roomId) ==> r == env.uuid
  {
    ToLowerIsLower(if Present(roomId) then roomId.value else "");
    if Present(roomId) then ToLower(roomId.value) else env.uuid
  }

  /** A payload field holding the preset string, set only when the preset is truthy. */
  function PresetField(key: string, preset: Option<string>): (p: Payload)
    ensures key in p <==> Present(preset)
    ensures p.Keys <= {key}
    ensures key in p ==> p[key] == Str(preset.value)
  {
    if Present(preset) then map[key := Str(preset.value)] else map[]
  }

  /** The avatar field, set only when the preset avatar is an integer. */
  function AvatarField(avatar: Value): (p: Payload)
    ensures "avatar" in p <==> IsInteger(avatar)
    ensures p.Keys <= {"avatar"}
    ensures "avatar" in p ==> p["avatar"] == avatar
  {
    if IsInteger(avatar) then map["avatar" := avatar] else map[]
  }

  /** The preset identity fields of a join: `username`, `email` and `avatar`. */
  function IdentityFields(state: Snapshot): (p: Payload)
    ensures p.Keys <= {"username", "email", "avatar"}
    ensures "username" in p <==> Present(state.presetUsername)
    ensures "username" in p ==> p["username"] == Str(state.presetUsername.value)
    ensures "email" in p <==> Present(state.presetEmail)
    ensures "email" in p ==> p["email"] == Str(state.presetEmail.value)
    ensures "avatar" in p <==> IsInteger(state.presetAvatar)
    ensures "avatar" in p ==> p["avatar"] == state.presetAvatar
  {
    PresetField("username", state.presetUsername) + PresetField("email", state.presetEmail) + AvatarField(state.presetAvatar)
  }

  /** The credential of a join: a clear-text password wins; the stored token is sent only without one. */
  function CredentialField(state: Snapshot, password: Option<string>): (p: Payload)
    ensures p.Keys <= {"password", "token"}
    ensures !("password" in p && "token" in p)
    ensures "password" in p <==> Present(password)
    ensures "password" in p ==> p["password"] == Str(password.value)
    ensures "token" in p <==> !Present(password) && Present(state.userToken)
    ensures "token" in p ==> p["token"] == Str(state.userToken.value)
  {
    if Present(password) then PresetField("password", password) else PresetField("token", state.userToken)
  }

  /** The `joinRoom` command for an already canonical room id. */
  function JoinCommand(state: Snapshot, roomId: string, password: Option<string>): (c: Command)
    ensures c.name == "joinRoom" && c.roomId == Some(roomId)
    ensures c.userId.Some? <==> Present(state.presetUserId)
    ensures c.userId.Some? ==> c.userId == state.presetUserId
    ensures c.payload.Keys == IdentityFields(state).Keys + CredentialField(state, password).Keys
    ensures forall k :: k in IdentityFields(state) ==> c.payload[k] == IdentityFields(state)[k]
    ensures forall k :: k in CredentialField(state, password) ==> c.payload[k] == CredentialField(state, password)[k]
  {
    Command("joinRoom", Some(roomId), if Present(state.presetUserId) then state.presetUserId else None,
            IdentityFields(state) + CredentialField(state, password))
  }

  /** `joinRoom(roomId, password)`: exactly one `joinRoom` command, for the canonical id. */
  function JoinRoomEffects(env: Env, state: Snapshot, roomId: Option<string>, password: Option<string>): (r: seq<Effect>)
    ensures |r| == 1 && r[0].SendCommand?
    ensures Sent(r) == [r[0].command] && Dispatched(r) == [] && Pushed(r) == [] && RoomRequests(r) == []
    ensures r[0].command == JoinCommand(state, CanonicalRoomId(env, roomId), password)
    ensures Present(roomId) ==> r[0].command.roomId == Some(ToLower(roomId.value))
    ensures !Present(roomId) ==> r[0].command.roomId == Some(env.uuid)
  {
    [SendCommand(JoinCommand(state, CanonicalRoomId(env, roomId), password))]
  }

  /** A join never carries both a clear-text password and a token. */
  lemma JoinNeverSendsPasswordAndToken(env: Env, state: Snapshot, roomId: Option<string>, password: Option<string>)
    ensures forall c :: c in Sent(JoinRoomEffects(env, state, roomId, password)) ==>
      c.name == "joinRoom" && !("password" in c.payload && "token" in c.payload)
  {
  }

  /** Once a room id is lower-case, joining it again targets the very same id. */
  lemma RejoinKeepsRoomId(env: Env, state: Snapshot, password: Option<string>)
    requires Present(state.roomId) && IsLower(state.roomId.value)
    ensures JoinRoomEffects(env, state, state.roomId, password)[0].command.roomId == state.roomId
  {
    ToLowerKeepsLower(state.roomId.value);
  }

  /** Two room ids that differ only in letter case join the same room. */
  lemma JoinIgnoresCase(env: Env, state: Snapshot, a: string, b: string)
    requires a != "" && ToLower(a) == ToLower(b)
    ensures JoinRoomEffects(env, state, Some(a), None) == JoinRoomEffects(env, state, Some(b), None)
  {
    assert |b| == |a|;
  }

  // ---------------------------------------------------------------- navigation

  /** `isRoomIdGivenInPathname`: a path `/<id>` whose id is not the app-status page. */
  predicate IsRoomIdGivenInPathname(env: Env, pathname: string): (b: bool)
    // a path of at most one character never names a room
    ensures |pathname| <= 1 ==> !b
    // the id it names is non-empty, so joining it never falls back to a generated id
    ensures b ==> Present(Some(pathname[1..]))
    // the app-status page is never taken for a room
    ensures b ==> pathname[1..] != env.appStatusIdentifier
    // any longer path naming something else is a room
    ensures |pathname| >= 2 && pathname[1..] != env.appStatusIdentifier ==> b
  {
    pathname != "" && |pathname| > 1 && pathname[1..] != env.appStatusIdentifier
  }

  /** Whether `locationChanged(pathname)` joins the room named by the path. */
  predicate JoinsOnLocation(env: Env, state: Snapshot, pathname: string)
  {
    IsRoomIdGivenInPathname(env, pathname) && !Present(state.roomId)
  }

  /** Whether `locationChanged(pathname)` leaves the current room instead. */
  predicate LeavesOnLocation(env: Env, state: Snapshot, pathname: string)
  {
    !JoinsOnLocation(env, state, pathname) &&
    (pathname == "" || (|pathname| < 2 && Present(state.userId) && Present(state.roomId)))
  }

  const LEAVE_ROOM_COMMAND := Command("leaveRoom", None, None, map[])

  /** `locationChanged(pathname)` */
  function LocationChangedEffects(env: Env, state: Snapshot, pathname: string): (r: seq<Effect>)
    ensures |r| >= 1 && r[|r| - 1] == Dispatch(LocationChanged(pathname))
    ensures Dispatched(r) == [LocationChanged(pathname)]
    ensures Pushed(r) == [] && RoomRequests(r) == []
    // sends and dispatches only: no navigation, request or settings write
    ensures forall e :: e in r ==> e.SendCommand? || e.Dispatch?
    ensures JoinsOnLocation(env, state, pathname) ==>
      Sent(r) == [JoinCommand(state, ToLower(pathname[1..]), None)]
    ensures LeavesOnLocation(env, state, pathname) ==> Sent(r) == [LEAVE_ROOM_COMMAND]
    ensures !JoinsOnLocation(env, state, pathname) && !LeavesOnLocation(env, state, pathname) ==> Sent(r) == []
  {
    var membership :=
      if JoinsOnLocation(env, state, pathname) then JoinRoomEffects(env, state, Some(pathname[1..]), None)
      else if LeavesOnLocation(env, state, pathname) then [SendCommand(LEAVE_ROOM_COMMAND)]
      else [];
    FiltersAppend(membership, [Dispatch(LocationChanged(pathname))]);
    membership + [Dispatch(LocationChanged(pathname))]
  }

  /** A path naming a room, arriving while in no room, is exactly `joinRoom` of its id. */
  lemma LocationJoinIsJoinRoom(env: Env, state: Snapshot, pathname: string)
    requires JoinsOnLocation(env, state, pathname)
    ensures LocationChangedEffects(env, state, pathname) ==
      JoinRoomEffects(env, state, Some(pathname[1..]), None) + [Dispatch(LocationChanged(pathname))]
  {
  }

  /** `onSocketConnect()`: rejoin the known room, if any. */
  function OnSocketConnectEffects(env: Env, state: Snapshot): (r: seq<Effect>)
    ensures r != [] <==> Present(state.roomId)
    ensures Present(state.roomId) ==> r == JoinRoomEffects(env, state, state.roomId, None)
  {
    if Present(state.roomId) then JoinRoomEffects(env, state, state.roomId, None) else []
  }

  /** A reconnect with a known, lower-case room id rejoins that room and sends nothing else. */
  lemma ReconnectRejoinsSameRoom(env: Env, state: Snapshot)
    requires Present(state.roomId) && IsLower(state.roomId.value)
    ensures |Sent(OnSocketConnectEffects(env, state))| == 1
    ensures Sent(OnSocketConnectEffects(env, state))[0].name == "joinRoom"
    ensures Sent(OnSocketConnectEffects(env, state))[0].roomId == state.roomId
  {
    RejoinKeepsRoomId(env, state, None);
  }

  /** `leaveRoom()`: only navigates to the landing page. */
  const LEAVE_ROOM_EFFECTS: seq<Effect> := [PushPath("/")]

  /**
   * Leaving is indirect: `leaveRoom()` sends nothing itself, and the location change to "/"
   * it causes sends `leaveRoom` exactly when both an identity and a room are known.
   */
  lemma LeavingGoesThroughLocation(env: Env, state: Snapshot)
    ensures Sent(LEAVE_ROOM_EFFECTS) == [] && Pushed(LEAVE_ROOM_EFFECTS) == ["/"]
    ensures Sent(LocationChangedEffects(env, state, "/")) ==
      if Present(state.userId) && Present(state.roomId) then [LEAVE_ROOM_COMMAND] else []
  {
    assert !IsRoomIdGivenInPathname(env, "/");
  }

  // ---------------------------------------------------------------- event routing and recovery

  /** `EVENT_ACTION_TYPES[name]` is set (and truthy). */
  predicate IsKnownEvent(env: Env, name: string)
  {
    name in env.eventActionTypes && env.eventActionTypes[name] != ""
  }

  /** `matchingType === EVENT_ACTION_TYPES.commandRejected` */
  predicate IsRejectionType(env: Env, matchingType: string)
  {
    "commandRejected" in env.eventActionTypes && env.eventActionTypes["commandRejected"] == matchingType
  }

  /** The command families whose rejection suggests that the client's room state has drifted. */
  const RECOVERABLE_COMMANDS: set<string> :=
    {"giveStoryEstimate", "clearStoryEstimate", "newEstimationRound", "reveal", "kick"}

  /** The rejection names a failed command of a recoverable family. */
  predicate IsRecoverable(event: Event)
  {
    event.payload.Some? && event.payload.value.command.Some? &&
    event.payload.value.command.value.name.Some? &&
    event.payload.value.command.value.name.value in RECOVERABLE_COMMANDS
  }

  /** `fetchCurrentRoom` (request side): refetch the known room with the stored token. */
  function FetchCurrentRoomEffects(state: Snapshot): (r: seq<Effect>)
    ensures r != [] <==> Present(state.roomId)
    ensures r != [] ==> r == [GetRoom(RoomRequest(state.roomId.value, state.userToken))]
  {
    if !Present(state.roomId) then [] else [GetRoom(RoomRequest(state.roomId.value, state.userToken))]
  }

  /** `tryToRecoverOnRejection(event)`, on the snapshot read when it runs. */
  function RecoveryEffects(state: Snapshot, event: Event): (r: seq<Effect>)
    ensures |r| <= 1
    ensures r != [] <==> IsRecoverable(event) && Present(state.roomId)
    ensures r != [] ==> r == [GetRoom(RoomRequest(state.roomId.value, state.userToken))]
  {
    if event.payload.None? || event.payload.value.command.None? then []
    else
      var failedCommandName := event.payload.value.command.value.name;
      if failedCommandName.Some? && failedCommandName.value in RECOVERABLE_COMMANDS then FetchCurrentRoomEffects(state)
      else []
  }

  /** The two notifications of a known event: the generic one, then the typed one. */
  function RoutedActions(event: Event, matchingType: string): seq<Effect>
  {
    [Dispatch(EventReceived(event.name, event.correlationId)), Dispatch(EventAction(event, matchingType))]
  }

  /** A confirmed join moves the address bar to `/<roomId>`. */
  function JoinNavigation(event: Event): seq<Effect>
  {
    if event.name == "joinedRoom" then [PushPath("/" + AsString(event.roomId))] else []
  }

  /** What the two notifications of a known event contribute to each effect kind. */
  lemma RoutedActionsFilters(event: Event, matchingType: string)
    ensures Dispatched(RoutedActions(event, matchingType)) ==
      [EventReceived(event.name, event.correlationId), EventAction(event, matchingType)]
    ensures Sent(RoutedActions(event, matchingType)) == []
    ensures Pushed(RoutedActions(event, matchingType)) == []
    ensures RoomRequests(RoutedActions(event, matchingType)) == []
  {
    var generic := Dispatch(EventReceived(event.name, event.correlationId));
    var typed := Dispatch(EventAction(event, matchingType));
    assert RoutedActions(event, matchingType) == [generic] + [typed];
    FiltersAppend([generic], [typed]);
  }

  /** What the navigation step contributes to each effect kind: at most the one path. */
  lemma JoinNavigationFilters(event: Event)
    ensures Pushed(JoinNavigation(event)) == if event.name == "joinedRoom" then ["/" + AsString(event.roomId)] else []
    ensures Sent(JoinNavigation(event)) == []
    ensures Dispatched(JoinNavigation(event)) == []
    ensures RoomRequests(JoinNavigation(event)) == []
  {
  }

  /** What the recovery step contributes to each effect kind: requests only. */
  lemma RecoveryEffectsFilters(state: Snapshot, event: Event)
    ensures Sent(RecoveryEffects(state, event)) == []
    ensures Dispatched(RecoveryEffects(state, event)) == []
    ensures Pushed(RecoveryEffects(state, event)) == []
    ensures RoomRequests(RecoveryEffects(state, event)) ==
      if RecoveryEffects(state, event) == [] then [] else [RoomRequest(state.roomId.value, state.userToken)]
  {
  }

  /**
   * `eventReceived(event)`. `state` is the snapshot the recovery controller reads, that is
   * the one after the two dispatches. An unknown event has no effect at all; a known one
   * first dispatches the generic and then the typed notification, and performs at most a
   * navigation and a refetch after them.
   */
  function EventReceivedEffects(env: Env, state: Snapshot, event: Event): (r: seq<Effect>)
    ensures !IsKnownEvent(env, event.name) ==> r == []
    ensures IsKnownEvent(env, event.name) ==>
      2 <= |r| <= 4 &&
      r[0] == Dispatch(EventReceived(event.name, event.correlationId)) &&
      r[1] == Dispatch(EventAction(event, env.eventActionTypes[event.name]))
    // only dispatches, the navigation and the refetch: no send, file read, status request or settings write
    ensures forall e :: e in r ==> e.Dispatch? || e.PushPath? || e.GetRoom?
    // the navigation comes before the refetch
    ensures forall i, j :: 0 <= i < j < |r| && r[i].GetRoom? ==> !r[j].PushPath?
  {
    if !IsKnownEvent(env, event.name) then []
    else
      var matchingType := env.eventActionTypes[event.name];
      RoutedActions(event, matchingType) + JoinNavigation(event) +
      if IsRejectionType(env, matchingType) then RecoveryEffects(state, event) else []
  }

  /** A known event dispatches exactly its two notifications, in order; an unknown one dispatches nothing. */
  lemma EventDispatches(env: Env, state: Snapshot, event: Event)
    ensures Dispatched(EventReceivedEffects(env, state, event)) ==
      if IsKnownEvent(env, event.name)
      then [EventReceived(event.name, event.correlationId), EventAction(event, env.eventActionTypes[event.name])]
      else []
  {
    if IsKnownEvent(env, event.name) {
      var matchingType := env.eventActionTypes[event.name];
      var routed := RoutedActions(event, matchingType);
      var recovery := if IsRejectionType(env, matchingType) then RecoveryEffects(state, event) else [];
      assert Dispatched(EventReceivedEffects(env, state, event)) == Dispatched(routed) by {
        assert EventReceivedEffects(env, state, event) == routed + JoinNavigation(event) + recovery;
        JoinNavigationFilters(event);
        RecoveryEffectsFilters(state, event);
        DispatchedAppend(routed, JoinNavigation(event));
        DispatchedAppend(routed + JoinNavigation(event), recovery);
      }
      RoutedActionsFilters(event, matchingType);
    }
  }

  /** The router never sends a command, whatever the event. */
  lemma EventSendsNothing(env: Env, state: Snapshot, event: Event)
    ensures Sent(EventReceivedEffects(env, state, event)) == []
  {
    if IsKnownEvent(env, event.name) {
      var matchingType := env.eventActionTypes[event.name];
      var routed := RoutedActions(event, matchingType);
      var recovery := if IsRejectionType(env, matchingType) then RecoveryEffects(state, event) else [];
      assert EventReceivedEffects(env, state, event) == routed + JoinNavigation(event) + recovery;
      FiltersAppend3(routed, JoinNavigation(event), recovery);
      RoutedActionsFilters(event, matchingType);
      JoinNavigationFilters(event);
      RecoveryEffectsFilters(state, event);
    }
  }

  /** The router navigates exactly once, to `/<roomId>`, for a known `joinedRoom` event, and otherwise never. */
  lemma EventNavigation(env: Env, state: Snapshot, event: Event)
    ensures Pushed(EventReceivedEffects(env, state, event)) ==
      if IsKnownEvent(env, event.name) && event.name == "joinedRoom" then ["/" + AsString(event.roomId)] else []
  {
    if IsKnownEvent(env, event.name) {
      var matchingType := env.eventActionTypes[event.name];
      var routed := RoutedActions(event, matchingType);
      var recovery := if IsRejectionType(env, matchingType) then RecoveryEffects(state, event) else [];
      assert EventReceivedEffects(env, state, event) == routed + JoinNavigation(event) + recovery;
      FiltersAppend3(routed, JoinNavigation(event), recovery);
      RoutedActionsFilters(event, matchingType);
      JoinNavigationFilters(event);
      RecoveryEffectsFilters(state, event);
      assert Pushed(routed) + Pushed(JoinNavigation(event)) + Pushed(recovery) == Pushed(JoinNavigation(event));
    }
  }

  /**
   * The router refetches the room at most once, exactly for a recoverable rejection while a
   * room is known, and then with the stored token.
   */
  lemma EventRecovery(env: Env, state: Snapshot, event: Event)
    ensures |RoomRequests(EventReceivedEffects(env, state, event))| <= 1
    ensures RoomRequests(EventReceivedEffects(env, state, event)) != [] <==>
      IsKnownEvent(env, event.name) && IsRejectionType(env, env.eventActionTypes[event.name]) &&
      IsRecoverable(event) && Present(state.roomId)
    ensures RoomRequests(EventReceivedEffects(env, state, event)) != [] ==>
      RoomRequests(EventReceivedEffects(env, state, event)) == [RoomRequest(state.roomId.value, state.userToken)]
  {
    if IsKnownEvent(env, event.name) {
      var matchingType := env.eventActionTypes[event.name];
      var routed := RoutedActions(event, matchingType);
      var recovery := if IsRejectionType(env, matchingType) then RecoveryEffects(state, event) else [];
      assert EventReceivedEffects(env, state, event) == routed + JoinNavigation(event) + recovery;
      FiltersAppend3(routed, JoinNavigation(event), recovery);
      RoutedActionsFilters(event, matchingType);
      JoinNavigationFilters(event);
      RecoveryEffectsFilters(state, event);
    }
  }

  /** A `commandRejected` event reporting that the command named `failed` was refused. */
  function Rejection(failed: string, correlationId: Option<string>, roomId: Option<string>): Event
  {
    Event("commandRejected", correlationId, roomId, Some(EventPayload(Some(RejectedCommand(Some(failed))))))
  }

  /** A rejected `reveal` refetches the known room exactly once, with the stored token. */
  lemma RejectedRevealRefetches(env: Env, state: Snapshot, correlationId: Option<string>, roomId: Option<string>)
    requires IsKnownEvent(env, "commandRejected") && Present(state.roomId)
    ensures RoomRequests(EventReceivedEffects(env, state, Rejection("reveal", correlationId, roomId))) ==
      [RoomRequest(state.roomId.value, state.userToken)]
  {
    var event := Rejection("reveal", correlationId, roomId);
    assert IsRecoverable(event);
    assert IsRejectionType(env, env.eventActionTypes[event.name]);
    EventRecovery(env, state, event);
  }

  /** A rejected `setUsername` never refetches: the user sees the error and nothing drifted. */
  lemma RejectedUsernameDoesNotRefetch(env: Env, state: Snapshot, correlationId: Option<string>, roomId: Option<string>)
    ensures RoomRequests(EventReceivedEffects(env, state, Rejection("setUsername", correlationId, roomId))) == []
  {
    var event := Rejection("setUsername", correlationId, roomId);
    assert !IsRecoverable(event);
    EventRecovery(env, state, event);
  }

  // ---------------------------------------------------------------- stories and estimates

  /** `selectStory` for `storyId`. */
  function SelectStoryCommand(storyId: string): Command
  {
    Command("selectStory", None, None, map["storyId" := Str(storyId)])
  }

  /** `selectStory(storyId)`: nothing when the story is already selected. */
  function SelectStoryEffects(state: Snapshot, storyId: string): (r: seq<Effect>)
    ensures r == [] <==> state.selectedStory == Some(storyId)
    ensures r != [] ==> r == [SendCommand(SelectStoryCommand(storyId))]
  {
    if state.selectedStory == Some(storyId) then [] else [SendCommand(SelectStoryCommand(storyId))]
  }

  /** `selectNextStory()`: selects what `findNextStoryIdToEstimate` proposes, if anything. */
  function SelectNextStoryEffects(env: Env, state: Snapshot): (r: seq<Effect>)
    ensures r != [] <==> Present(env.findNextStoryIdToEstimate(state))
    ensures r != [] ==> r == [SendCommand(SelectStoryCommand(env.findNextStoryIdToEstimate(state).value))]
  {
    var nextStoryId := env.findNextStoryIdToEstimate(state);
    if Present(nextStoryId) then [SendCommand(SelectStoryCommand(nextStoryId.value))] else []
  }

  /** `state.estimations[storyId][state.userId]`, `undefined` when any step is missing. */
  function OwnEstimate(state: Snapshot, storyId: string): (v: Value)
    ensures state.estimations.None? ==> v == Undefined
    ensures state.estimations.Some? && storyId !in state.estimations.value ==> v == Undefined
    ensures (state.estimations.Some? && storyId in state.estimations.value &&
             AsString(state.userId) in state.estimations.value[storyId]) ==>
      v == state.estimations.value[storyId][AsString(state.userId)]
    ensures v != Undefined ==>
      state.estimations.Some? && storyId in state.estimations.value &&
      AsString(state.userId) in state.estimations.value[storyId]
  {
    if state.estimations.Some? && storyId in state.estimations.value then
      var perUser := state.estimations.value[storyId];
      var key := AsString(state.userId);
      if key in perUser then perUser[key] else Undefined
    else Undefined
  }

  /**
   * The test of `giveStoryEstimate`: the snapshot has estimations for `storyId`, and the
   * calling user's entry there is strictly equal to `value` (a missing entry reads as `undefined`).
   */
  predicate HoldsEstimate(state: Snapshot, storyId: string, value: Value): (b: bool)
    ensures b ==> state.estimations.Some? && storyId in state.estimations.value
    ensures b && AsString(state.userId) in state.estimations.value[storyId] ==>
      state.estimations.value[storyId][AsString(state.userId)] == value
    ensures (state.estimations.Some? && storyId in state.estimations.value &&
             AsString(state.userId) in state.estimations.value[storyId] &&
             state.estimations.value[storyId][AsString(state.userId)] == value) ==> b
    ensures state.estimations.None? ==> !b
    // `undefined === undefined`: with no entry from the user, only `undefined` is held
    ensures (state.estimations.Some? && storyId in state.estimations.value &&
             AsString(state.userId) !in state.estimations.value[storyId]) ==> (b <==> value == Undefined)
  {
    state.estimations.Some? && storyId in state.estimations.value && OwnEstimate(state, storyId) == value
  }

  /** `giveStoryEstimate(storyId, value)`: the same value again retracts the estimate. */
  function EstimateCommand(state: Snapshot, storyId: string, value: Value): (c: Command)
    ensures c.roomId == None && c.userId == None
    ensures c.name == "clearStoryEstimate" <==> HoldsEstimate(state, storyId, value)
    ensures c.name == "giveStoryEstimate" <==> !HoldsEstimate(state, storyId, value)
    ensures HoldsEstimate(state, storyId, value) ==> c.payload == map["storyId" := Str(storyId)]
    ensures !HoldsEstimate(state, storyId, value) ==> c.payload == map["value" := value, "storyId" := Str(storyId)]
  {
    if HoldsEstimate(state, storyId, value)
    then Command("clearStoryEstimate", None, None, map["storyId" := Str(storyId)])
    else Command("giveStoryEstimate", None, None, map["value" := value, "storyId" := Str(storyId)])
  }

  /**
   * A snapshot in which the calling user's estimate `value` for `storyId` has been recorded.
   * Recording estimates belongs to the session reducer, which this model leaves out; this
   * function only supplies the later snapshot that `EstimateToggles` speaks about.
   */
  function WithOwnEstimate(state: Snapshot, storyId: string, value: Value): (s: Snapshot)
    ensures s.estimations.Some? && storyId in s.estimations.value
    ensures OwnEstimate(s, storyId) == value
    // nothing but the estimations changes
    ensures s.(estimations := state.estimations) == state
    // the other stories' estimations, and the other users' estimates of this story, are kept
    ensures state.estimations.Some? ==> forall id :: id in state.estimations.value && id != storyId ==>
      id in s.estimations.value && s.estimations.value[id] == state.estimations.value[id]
    ensures state.estimations.Some? && storyId in state.estimations.value ==>
      forall u :: u in state.estimations.value[storyId] && u != AsString(state.userId) ==>
        u in s.estimations.value[storyId] && s.estimations.value[storyId][u] == state.estimations.value[storyId][u]
  {
    var all := if state.estimations.Some? then state.estimations.value else map[];
    var perUser := if storyId in all then all[storyId] else map[];
    state.(estimations := Some(all[storyId := perUser[AsString(state.userId) := value]]))
  }

  /**
   * The estimate control is a toggle: clicking a value gives it, and once the snapshot records
   * it, clicking the same value again retracts it. The retraction does not carry the value.
   */
  lemma EstimateToggles(state: Snapshot, storyId: string, value: Value)
    requires !HoldsEstimate(state, storyId, value)
    ensures EstimateCommand(state, storyId, value).name == "giveStoryEstimate"
    ensures EstimateCommand(state, storyId, value).payload["value"] == value
    ensures EstimateCommand(WithOwnEstimate(state, storyId, value), storyId, value).name == "clearStoryEstimate"
    ensures "value" !in EstimateCommand(WithOwnEstimate(state, storyId, value), storyId, value).payload
  {
  }

  // ---------------------------------------------------------------- one-command emitters

  /** The user intents that each become exactly one command with their arguments as payload. */
  datatype Intent =
    | AddStory(title: Value, description: Value)
    | ChangeStory(storyId: Value, title: Value, description: Value)
    | TrashStory(storyId: Value)
    | RestoreStory(storyId: Value)
    | DeleteStory(storyId: Value)
    | NewEstimationRound(storyId: Value)
    | Reveal(storyId: Value)
    | SetUsername(username: Value)
    | SetEmail(email: Value)
    | SetAvatar(avatar: Value)
    | ToggleExcluded
    | ToggleAutoReveal
    | Kick(userId: Value)
    | SetCardConfig(cardConfig: Value)
    | SetPassword(password: Value)

  /** The command an intent is sent as. */
  function IntentCommand(intent: Intent): (c: Command)
    ensures c.roomId == None && c.userId == None
  {
    match intent
    case AddStory(title, description) => Command("addStory", None, None, map["title" := title, "description" := description])
    case ChangeStory(storyId, title, description) =>
      Command("changeStory", None, None, map["storyId" := storyId, "title" := title, "description" := description])
    case TrashStory(storyId) => Command("trashStory", None, None, map["storyId" := storyId])
    case RestoreStory(storyId) => Command("restoreStory", None, None, map["storyId" := storyId])
    case DeleteStory(storyId) => Command("deleteStory", None, None, map["storyId" := storyId])
    case NewEstimationRound(storyId) => Command("newEstimationRound", None, None, map["storyId" := storyId])
    case Reveal(storyId) => Command("reveal", None, None, map["storyId" := storyId])
    case SetUsername(username) => Command("setUsername", None, None, map["username" := username])
    case SetEmail(email) => Command("setEmail", None, None, map["email" := email])
    case SetAvatar(avatar) => Command("setAvatar", None, None, map["avatar" := avatar])
    case ToggleExcluded => Command("toggleExclude", None, None, map[])
    case ToggleAutoReveal => Command("toggleAutoReveal", None, None, map[])
    case Kick(userId) => Command("kick", None, None, map["userId" := userId])
    case SetCardConfig(cardConfig) => Command("setCardConfig", None, None, map["cardConfig" := cardConfig])
    case SetPassword(password) => Command("setPassword", None, None, map["password" := password])
  }

  /**
   * Reads an intent back from a command: its name selects the intent, and its payload must
   * hold exactly that intent's fields, which give the arguments.
   */
  function DecodeIntent(c: Command): Option<Intent>
  {
    var p := c.payload;
    match c.name
    case "addStory" =>
      if p.Keys == {"title", "description"} then Some(AddStory(p["title"], p["description"])) else None
    case "changeStory" =>
      if p.Keys == {"storyId", "title", "description"}
      then Some(ChangeStory(p["storyId"], p["title"], p["description"])) else None
    case "trashStory" => if p.Keys == {"storyId"} then Some(TrashStory(p["storyId"])) else None
    case "restoreStory" => if p.Keys == {"storyId"} then Some(RestoreStory(p["storyId"])) else None
    case "deleteStory" => if p.Keys == {"storyId"} then Some(DeleteStory(p["storyId"])) else None
    case "newEstimationRound" => if p.Keys == {"storyId"} then Some(NewEstimationRound(p["storyId"])) else None
    case "reveal" => if p.Keys == {"storyId"} then Some(Reveal(p["storyId"])) else None
    case "setUsername" => if p.Keys == {"username"} then Some(SetUsername(p["username"])) else None
    case "setEmail" => if p.Keys == {"email"} then Some(SetEmail(p["email"])) else None
    case "setAvatar" => if p.Keys == {"avatar"} then Some(SetAvatar(p["avatar"])) else None
    case "toggleExclude" => if p.Keys == {} then Some(ToggleExcluded) else None
    case "toggleAutoReveal" => if p.Keys == {} then Some(ToggleAutoReveal) else None
    case "kick" => if p.Keys == {"userId"} then Some(Kick(p["userId"])) else None
    case "setCardConfig" => if p.Keys == {"cardConfig"} then Some(SetCardConfig(p["cardConfig"])) else None
    case "setPassword" => if p.Keys == {"password"} then Some(SetPassword(p["password"])) else None
    case _ => None
  }

  /** Every intent is sent verbatim: its command determines the intent and all its arguments. */
  lemma IntentRoundTrip(intent: Intent)
    ensures DecodeIntent(IntentCommand(intent)) == Some(intent)
  {
  }

  /** Hence two different intents never produce the same command. */
  lemma IntentCommandInjective(a: Intent, b: Intent)
    requires IntentCommand(a) == IntentCommand(b)
    ensures a == b
  {
    IntentRoundTrip(a);
    IntentRoundTrip(b);
  }
}
