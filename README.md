# Poinz client synchronisation core, in Dafny

This project models two parts of the Poinz planning-poker web client.

1. The thunks of `client/app/actions/index.js`. They turn user intent into commands for the
   server, route incoming events to typed redux actions, recover from rejected commands by
   refetching the room, and keep room membership in step with the address bar.
2. The view-state reducer of `client/app/state/ui/uiReducer.js`. It drives the sidebar, the
   backlog panel, the applause and unseen-error flags, the language and the pathname.

Layout:

- `wrappers.dfy`, module `Wrappers`: `Option`. `None` stands for an absent or `undefined` field.
- `js_values.dfy`, module `JsValues`: the JavaScript values the thunks inspect, truthiness,
  `Number.isInteger` and `toLowerCase`.
- `protocol.dfy`, module `Protocol`: the session snapshot that `getState()` returns, commands,
  events, dispatched actions, settings writes and the ordered `Effect` log. `Env` holds the collaborators the
  model does not interpret: the `EVENT_ACTION_TYPES` table, `APP_STATUS_IDENTIFIER`, the id
  `uuid()` returns and `findNextStoryIdToEstimate`.
- `action_effects.dfy`, module `ActionEffects`: for each thunk, a function giving the ordered
  effects it performs on a snapshot, plus the lemmas about them.
- `actions.dfy`, module `Actions`: the thunks as imperative methods. Each builds its payload
  step by step and performs its effects on an `EffectLog` object. The log stands for
  `sendCommand`, `dispatch`, `history.push`, the request functions and the settings writes.
  The methods that choose among several effect lists are proved to append exactly the effects
  their `ActionEffects` function gives. The one-effect methods (`GiveStoryEstimate`, whose
  branch only chooses the command, `SendIntent`, `LeaveRoom`, `ImportCsvFile`, `FetchStatus`,
  `SetLanguageAction`, `HideNewUserHintsAction`) state the one effect they append.
- `view_state.dfy`, module `ViewState`: `uiReducer` as a total function. It returns the next
  state and the settings writes it makes. It also holds the mutual-exclusion invariant of the
  backlog panel and the sidebar.
- `scenarios.dfy`, module `Scenarios`: end-to-end consequences of the model on concrete rooms and snapshots.

Consequences of the code worth knowing:

- Leaving the room returns `uiInitialState`, which is computed once at module load
  (`uiReducer.js:21-40`). So a language or hint dismissal chosen later is not kept
  (`ViewState.LeavingForgetsLaterSettings`).
- Toggling the same sidebar key twice restores the sidebar only when it started closed or on
  that key. From another key it ends closed (`ViewState.SidebarToggleTwice`).
- The two source files come from different revisions of the repository. `index.js` creates
  `TOGGLE_SIDEBAR` actions and dispatches events as `{event, type}`. `uiReducer.js` switches on
  `SIDEBAR_TOGGLED` and reads `action.ourJoin`. So the reducer gets its own action type,
  `ViewState.UiAction`, and the model does not connect the two action types.

## Model

| member | source | states |
|---|---|---|
| `JsValues.ToLower` | client/app/actions/index.js:104 | `toLowerCase` keeps the length and lower-cases every character |
| `JsValues.ToLowerIsLower` | client/app/actions/index.js:104 | a canonical room id never contains an upper-case letter |
| `JsValues.ToLowerKeepsLower` | client/app/actions/index.js:104 | an id that is already lower-case is unchanged |
| `JsValues.ToLowerIdempotent` | client/app/actions/index.js:104 | canonicalising twice is canonicalising once |
| `ActionEffects.CanonicalRoomId` | client/app/actions/index.js:104 | a truthy room id is lower-cased; otherwise the generated uuid is used |
| `ActionEffects.PresetField` | client/app/actions/index.js:109-114 | a preset becomes a payload field exactly when it is truthy, with its value |
| `ActionEffects.AvatarField` | client/app/actions/index.js:115-117 | `avatar` is set iff the preset avatar is an integer, and then holds it |
| `ActionEffects.IdentityFields` | client/app/actions/index.js:109-117 | only `username`, `email` and `avatar` can be set. `username`/`email` are present iff their presets are truthy, and then hold them. `avatar` is present iff `presetAvatar` is an integer |
| `ActionEffects.CredentialField` | client/app/actions/index.js:118-124 | a truthy password is sent and then no token. Otherwise `token` is present iff a token is stored. Never both |
| `ActionEffects.JoinCommand` | client/app/actions/index.js:126-134 | `joinRoom` for the given id. The payload is exactly the identity fields plus the credential. `userId` is set iff `presetUserId` is truthy |
| `ActionEffects.JoinRoomEffects` | client/app/actions/index.js:103-137 | `joinRoom` sends exactly one command and nothing else. Its room id is the lower-cased argument, or the uuid when none is given |
| `ActionEffects.JoinNeverSendsPasswordAndToken` | client/app/actions/index.js:118-124 | no join command carries both `password` and `token` |
| `ActionEffects.RejoinKeepsRoomId` | client/app/actions/index.js:55-63 | rejoining a lower-case room id targets that same id |
| `ActionEffects.JoinIgnoresCase` | client/app/actions/index.js:103-104 | ids that differ only in case produce the same join |
| `ActionEffects.IsRoomIdGivenInPathname` | client/app/actions/index.js:31-32 | a path of at most one character never names a room. A longer path names a room exactly when its id is not the app-status page, and that id is non-empty |
| `ActionEffects.LocationChangedEffects` | client/app/actions/index.js:31-53 | `locationChanged` only sends and dispatches (no navigation, request or settings write), and ends with its one dispatch, `LOCATION_CHANGED`. It joins the path's room when the path names one, is not the app-status page and no room is set. Otherwise it sends `leaveRoom` exactly when the path is empty, or shorter than 2 while user and room are both set; else it sends nothing |
| `ActionEffects.LocationJoinIsJoinRoom` | client/app/actions/index.js:40-41 | the join that a location change triggers is exactly `joinRoom(pathname.substring(1))` |
| `ActionEffects.OnSocketConnectEffects` | client/app/actions/index.js:55-63 | a reconnect rejoins exactly when a room id is known, and has no effect otherwise |
| `ActionEffects.ReconnectRejoinsSameRoom` | client/app/actions/index.js:55-63 | a reconnect with a lower-case room sends one `joinRoom` for that room |
| `ActionEffects.LeavingGoesThroughLocation` | client/app/actions/index.js:269-273 | `leaveRoom` only pushes `/`. The location change to `/` sends `leaveRoom` iff user and room are both known |
| `ActionEffects.FetchCurrentRoomEffects` | client/app/actions/index.js:374-387 | a refetch is requested iff a room id is known, with that id and the stored token |
| `ActionEffects.RecoveryEffects` | client/app/actions/index.js:356-372 | at most one effect. There is one iff the failed command is one of the five recoverable names and a room id is known, and it is the room request with the state's id and token |
| `ActionEffects.RoutedActionsFilters` | client/app/actions/index.js:76-87 | the two notifications are exactly the generic `EVENT_RECEIVED` with name and correlation id, then `{event, type}`. They send, push and request nothing |
| `ActionEffects.JoinNavigationFilters` | client/app/actions/index.js:89-91 | the navigation step pushes `'/' + roomId` iff the event is `joinedRoom`, and does nothing else |
| `ActionEffects.RecoveryEffectsFilters` | client/app/actions/index.js:356-387 | the recovery step only requests: it sends, dispatches and pushes nothing |
| `ActionEffects.EventReceivedEffects` | client/app/actions/index.js:69-96 | an unknown event (no truthy type in the table) has no effect at all. A known one performs two to four effects: first the generic `EVENT_RECEIVED` notification, then `{event, type}`. Only dispatches, the navigation and the refetch occur, and the navigation comes before the refetch. What follows is stated by `EventDispatches`, `EventSendsNothing`, `EventNavigation` and `EventRecovery` |
| `ActionEffects.EventDispatches` | client/app/actions/index.js:69-87 | a known event dispatches exactly its two notifications, in order. An unknown one dispatches nothing |
| `ActionEffects.EventSendsNothing` | client/app/actions/index.js:69-96 | the router never sends a command |
| `ActionEffects.EventNavigation` | client/app/actions/index.js:89-91 | the router pushes `'/' + roomId` once iff the event is a known `joinedRoom`, and otherwise pushes nothing |
| `ActionEffects.EventRecovery` | client/app/actions/index.js:93-95 | the router refetches at most once. It refetches exactly for a rejection whose failed command is recoverable while a room is set, using the state's room id and token |
| `ActionEffects.RejectedRevealRefetches` | client/app/actions/index.js:93-95 | a rejected `reveal` refetches the current room exactly once |
| `ActionEffects.RejectedUsernameDoesNotRefetch` | client/app/actions/index.js:363-371 | a rejected `setUsername` never refetches |
| `ActionEffects.SelectStoryEffects` | client/app/actions/index.js:149-161 | nothing is sent iff the story is already selected; otherwise exactly one `selectStory` with `{storyId}` |
| `ActionEffects.SelectNextStoryEffects` | client/app/actions/index.js:163-175 | `selectStory` for the proposed story is sent iff one is proposed |
| `ActionEffects.OwnEstimate` | client/app/actions/index.js:188-190 | reads the user's estimate of the story, `undefined` when there are no estimations, none for the story or none from the user |
| `ActionEffects.HoldsEstimate` | client/app/actions/index.js:187-191 | holds exactly when the estimations for the story exist and the user's entry strictly equals the value: a recorded entry must equal the value. When the story has no entry from the user, it holds iff the value is `undefined`. It never holds without estimations |
| `ActionEffects.EstimateCommand` | client/app/actions/index.js:177-199 | `clearStoryEstimate` with only `{storyId}` iff the snapshot already holds this value as the user's estimate; otherwise `giveStoryEstimate` with `{value, storyId}` |
| `ActionEffects.EstimateToggles` | client/app/actions/index.js:177-199 | a new value is given, and giving the same value again once it is recorded retracts it, without a `value` field |
| `ActionEffects.IntentCommand` | client/app/actions/index.js:139-329 | the one-command emitters address neither a room nor a user |
| `ActionEffects.IntentRoundTrip` | client/app/actions/index.js:139-329 | each one-command emitter packages its arguments verbatim: the command's name selects the intent, its payload holds exactly that intent's fields and no other, and those fields give back the arguments |
| `ActionEffects.IntentCommandInjective` | client/app/actions/index.js:139-329 | two different intents never produce the same command |
| `Actions.JoinCommandPayload` | client/app/actions/index.js:106-124 | the step-by-step payload construction yields exactly the identity fields plus the credential |
| `Actions.JoinRoom` | client/app/actions/index.js:103-137 | sends exactly `JoinRoomEffects` |
| `Actions.LocationChanged` | client/app/actions/index.js:37-53 | performs exactly `LocationChangedEffects` |
| `Actions.OnSocketConnect` | client/app/actions/index.js:55-63 | performs exactly `OnSocketConnectEffects` |
| `Actions.EventReceived` | client/app/actions/index.js:69-96 | performs exactly `EventReceivedEffects` |
| `Actions.TryToRecoverOnRejection` | client/app/actions/index.js:356-372 | performs exactly `RecoveryEffects` |
| `Actions.FetchCurrentRoom` | client/app/actions/index.js:374-387 | performs exactly `FetchCurrentRoomEffects` |
| `Actions.SelectStory` | client/app/actions/index.js:149-161 | performs exactly `SelectStoryEffects` |
| `Actions.SelectNextStory` | client/app/actions/index.js:163-175 | performs exactly `SelectNextStoryEffects` |
| `Actions.GiveStoryEstimate` | client/app/actions/index.js:177-199 | building the payload with `value` and deleting it sends exactly `EstimateCommand` |
| `Actions.SendIntent` | client/app/actions/index.js:139-329 | each one-command emitter sends exactly its `IntentCommand` |
| `Actions.LeaveRoom` | client/app/actions/index.js:269-273 | pushes `/` and does nothing else |
| `Actions.ImportCsvFile` | client/app/actions/index.js:331-332 | issues the file read and nothing else |
| `Actions.FetchStatus` | client/app/actions/index.js:342-343 | issues the app-status request and nothing else |
| `Actions.SetLanguageAction` | client/app/actions/index.js:397-400 | persists the language once and returns `SET_LANGUAGE` |
| `Actions.HideNewUserHintsAction` | client/app/actions/index.js:401-404 | persists the dismissal once and returns `HIDE_NEW_USER_HINTS` |
| `Scenarios.OpeningRoomPathJoins` | client/app/actions/index.js:37-41 | opening `/abc123` with no room sends one `joinRoom` for `abc123` with an empty payload |
| `Scenarios.JoinedRoomNavigates` | client/app/actions/index.js:89-91 | any known `joinedRoom` event for room `abc123` pushes exactly `/abc123` |
| `Scenarios.RetractRecordedEstimate` | client/app/actions/index.js:187-193 | with `{S1: {U1: 5}}` recorded for `U1`, estimating 5 sends `clearStoryEstimate` with `{storyId: 'S1'}` |
| `ViewState.UiInitialState` | client/app/state/ui/uiReducer.js:20-40 | everything is closed and cleared, and the hint flag is the stored one. The language is the stored one when truthy, else `en`; the pathname is absent; the exclusion invariant holds |
| `ViewState.UiReducer` | client/app/state/ui/uiReducer.js:49-124 | per case, the fields that may change and their new values, all others unchanged. Only `LANGUAGE_SET` and `NEW_USER_HINTS_HIDDEN` write settings. Both toggles establish backlog/sidebar exclusion and every case preserves it. Unknown actions, a `joinedRoom` that is not ours, and another user's `leftRoom` leave the state unchanged. Our own `leftRoom` returns `uiInitialState` |
| `ViewState.ReduceKeepsExclusive` | client/app/state/ui/uiReducer.js:74-98 | any sequence of actions, each with its own user id, preserves backlog/sidebar exclusion |
| `ViewState.NeverBacklogBesideSidebar` | client/app/state/ui/uiReducer.js:31-40 | from the initial state the backlog is never shown beside a sidebar |
| `ViewState.SidebarToggleTwice` | client/app/state/ui/uiReducer.js:74-88 | after two toggles with one key, the sidebar shows that key if it started on it, else it is closed. So the round trip restores the sidebar iff it started closed or on that key |
| `ViewState.SidebarThenBacklog` | client/app/state/ui/uiReducer.js:74-98 | from any state where the exclusion holds, toggling HELP and then the backlog leaves the backlog shown and no sidebar, whether HELP was opened or closed |
| `ViewState.LeavingForgetsLaterSettings` | client/app/state/ui/uiReducer.js:58-64 | after a language change and a hint dismissal, our own `leftRoom` restores the load-time language and hint flag |

## Left out

- Async completions are not modelled; the model records only the issued request and its arguments. This covers `getRoom(...).then` dispatching `ROOM_STATE_FETCHED`, the `importStories` command sent after `readDroppedFile` resolves, and `getAppStatus().then` dispatching `STATUS_FETCHED`. A stale refetch resolving after a newer one is concurrency and is left out too.
- `log.error` for an unknown event is not modelled; only its outcome is: no effect at all.
- `uuid()`, `findNextStoryIdToEstimate`, the contents of `EVENT_ACTION_TYPES` and `APP_STATUS_IDENTIFIER` are opaque fields of `Protocol.Env`.
- `translatorFactory`, the i18n tables and the settings-store internals are opaque. A translator is a `ViewState.Translator` handle, and `setLanguage` is a function in `ViewState.Boot`. The reducer never changes `setLanguage`, so it lives in `Boot` rather than in the state.
- `getState()` is a `Snapshot` parameter. `eventReceived` reads it only in the recovery step, after its two dispatches. The model takes that later snapshot and does not model how the dispatches change it.
- The session-state reducer and its selectors are not part of this model. `ActionEffects.WithOwnEstimate` only supplies the snapshot with a recorded estimate that `ActionEffects.EstimateToggles` speaks about. It is not a model of any source line.
- `JsValues.ToLower`: maps only ASCII `A`-`Z`, not the full Unicode case mapping of `toLowerCase`.
- JavaScript numbers are reals. NaN, the infinities and negative zero are not modelled. Objects and arrays are opaque references.
- A lookup in `EVENT_ACTION_TYPES` that reaches inherited object properties (such as `toString`) is not modelled.
- Room ids, story ids, user ids and pathnames have string types, so a non-string id (which would make `toLowerCase` throw) and an undefined pathname are not modelled. The lower-case room-id invariant of the snapshot is a premise of the lemmas that need it, not part of the `Snapshot` type.
- `uiReducer`'s default argument `state = uiInitialState` is not modelled: the model always gets an explicit state.
- The plain UI action creators (`toggleBacklog`, `showTrash`, `hideTrash`, `highlightStory`, `editStory`, `cancelEditStory`, `toggleMarkForKick`, `toggleSidebar`) are the constructors of `Protocol.Action` and have no member of their own.
