/**
 * The messages and records the client's synchronisation layer exchanges: the session
 * snapshot it reads, the commands it sends, the events it receives, the actions it
 * dispatches, and the ordered log of external effects a thunk produces.
 */
module Protocol {
  import opened Wrappers
  import opened JsValues

  /** Truthiness of a field that holds a string or is absent: present and non-empty. */
  predicate Present(s: Option<string>)
  {
    s.Some? && s.value != ""
  }

  /** `String(k)`: the text JavaScript uses for `k` as a property name or in `'/' + k`. */
  function AsString(k: Option<string>): string
  {
    match k
    case Some(s) => s
    case None => "undefined"
  }

  /** A command payload: the fields of a plain object. */
  type Payload = map<string, Value>

  /** `{name, roomId?, userId?, payload}`; `None` means the field is not set on the object. */
  datatype Command = Command(name: string, roomId: Option<string>, userId: Option<string>, payload: Payload)

  /** `event.payload.command` of a rejection: the command the server refused. */
  datatype RejectedCommand = RejectedCommand(name: Option<string>)

  datatype EventPayload = EventPayload(command: Option<RejectedCommand>)

  /** An incoming event `{name, correlationId, roomId, payload}`. */
  datatype Event = Event(name: string, correlationId: Option<string>, roomId: Option<string>, payload: Option<EventPayload>)

  /** The part of the redux state (`getState()`) the thunks read. */
  datatype Snapshot = Snapshot(
    roomId: Option<string>,
    userId: Option<string>,
    userToken: Option<string>,
    presetUsername: Option<string>,
    presetEmail: Option<string>,
    presetAvatar: Value,
    presetUserId: Option<string>,
    selectedStory: Option<string>,
    estimations: Option<map<string, map<string, Value>>>)

  /**
   * The redux actions the thunks dispatch. The pure UI action creators of
   * client/app/actions/index.js are the constructors from `ToggleBacklog` on.
   */
  datatype Action =
    | EventReceived(eventName: string, correlationId: Option<string>)
    | EventAction(event: Event, matchingType: string)
    | LocationChanged(pathname: string)
    | ToggleBacklog
    | ShowTrash
    | HideTrash
    | HighlightStory(storyId: string)
    | EditStory(storyId: string)
    | CancelEditStory(storyId: string)
    | ToggleMarkForKick(userId: string)
    | SetLanguage(language: string)
    | HideNewUserHints
    | ToggleSidebar(sidebarKey: string)

  /** `getRoom(roomId, userToken)`: a request for the room's full state. */
  datatype RoomRequest = RoomRequest(roomId: string, userToken: Option<string>)

  /** A write to the persistent client settings (`clientSettingsStore`). */
  datatype SettingsWrite = SetPresetLanguage(language: string) | SetHideNewUserHints(hidden: bool)

  /** One externally visible effect, in the order the thunk performs it. */
  datatype Effect =
    | SendCommand(command: Command)
    | Dispatch(action: Action)
    | PushPath(path: string)
    | GetRoom(request: RoomRequest)
    | ReadDroppedFile(file: Value)
    | GetAppStatus
    | WriteSetting(write: SettingsWrite)

  /**
   * The collaborators the thunks consult and that this model does not interpret:
   * the `EVENT_ACTION_TYPES` table, `appConfig.APP_STATUS_IDENTIFIER`, the id `uuid()`
   * returns when it is called, and `findNextStoryIdToEstimate`.
   */
  datatype Env = Env(
    eventActionTypes: map<string, string>,
    appStatusIdentifier: string,
    uuid: string,
    findNextStoryIdToEstimate: Snapshot -> Option<string>)

  /** The commands handed to `sendCommand` by one effect. */
  function SentOf(e: Effect): seq<Command>
  {
    if e.SendCommand? then [e.command] else []
  }

  /** The commands handed to `sendCommand`, in order. */
  function Sent(effects: seq<Effect>): (r: seq<Command>)
  {
    if effects == [] then [] else SentOf(effects[0]) + Sent(effects[1..])
  }

  /** The commands sent of two consecutive effect lists are those of the first, then those of the second. */
  lemma {:induction false} SentAppend(a: seq<Effect>, b: seq<Effect>)
    ensures Sent(a + b) == Sent(a) + Sent(b)
  {
    if a == [] {
      assert a + b == b;
    } else {
      var ab := a + b;
      assert ab[0] == a[0];
      assert ab[1..] == a[1..] + b;
      assert Sent(ab) == SentOf(a[0]) + Sent(a[1..] + b);
      SentAppend(a[1..], b);
      assert SentOf(a[0]) + (Sent(a[1..]) + Sent(b)) == (SentOf(a[0]) + Sent(a[1..])) + Sent(b);
    }
  }

  /** The actions handed to `dispatch` by one effect. */
  function DispatchedOf(e: Effect): seq<Action>
  {
    if e.Dispatch? then [e.action] else []
  }

  /** The actions handed to `dispatch`, in order. */
  function Dispatched(effects: seq<Effect>): (r: seq<Action>)
  {
    if effects == [] then [] else DispatchedOf(effects[0]) + Dispatched(effects[1..])
  }

  /** The actions dispatched of two consecutive effect lists are those of the first, then those of the second. */
  lemma {:induction false} DispatchedAppend(a: seq<Effect>, b: seq<Effect>)
    ensures Dispatched(a + b) == Dispatched(a) + Dispatched(b)
  {
    if a == [] {
      assert a + b == b;
    } else {
      var ab := a + b;
      assert ab[0] == a[0];
      assert ab[1..] == a[1..] + b;
      assert Dispatched(ab) == DispatchedOf(a[0]) + Dispatched(a[1..] + b);
      DispatchedAppend(a[1..], b);
      assert DispatchedOf(a[0]) + (Dispatched(a[1..]) + Dispatched(b)) == (DispatchedOf(a[0]) + Dispatched(a[1..])) + Dispatched(b);
    }
  }

  /** The paths handed to `history.push` by one effect. */
  function PushedOf(e: Effect): seq<string>
  {
    if e.PushPath? then [e.path] else []
  }

  /** The paths handed to `history.push`, in order. */
  function Pushed(effects: seq<Effect>): (r: seq<string>)
  {
    if effects == [] then [] else PushedOf(effects[0]) + Pushed(effects[1..])
  }

  /** The paths pushed of two consecutive effect lists are those of the first, then those of the second. */
  lemma {:induction false} PushedAppend(a: seq<Effect>, b: seq<Effect>)
    ensures Pushed(a + b) == Pushed(a) + Pushed(b)
  {
    if a == [] {
      assert a + b == b;
    } else {
      var ab := a + b;
      assert ab[0] == a[0];
      assert ab[1..] == a[1..] + b;
      assert Pushed(ab) == PushedOf(a[0]) + Pushed(a[1..] + b);
      PushedAppend(a[1..], b);
      assert PushedOf(a[0]) + (Pushed(a[1..]) + Pushed(b)) == (PushedOf(a[0]) + Pushed(a[1..])) + Pushed(b);
    }
  }

  /** The room refetches requested by one effect. */
  function RoomRequestsOf(e: Effect): seq<RoomRequest>
  {
    if e.GetRoom? then [e.request] else []
  }

  /** The room refetches requested, in order. */
  function RoomRequests(effects: seq<Effect>): (r: seq<RoomRequest>)
  {
    if effects == [] then [] else RoomRequestsOf(effects[0]) + RoomRequests(effects[1..])
  }

  /** The room refetches of two consecutive effect lists are those of the first, then those of the second. */
  lemma {:induction false} RoomRequestsAppend(a: seq<Effect>, b: seq<Effect>)
    ensures RoomRequests(a + b) == RoomRequests(a) + RoomRequests(b)
  {
    if a == [] {
      assert a + b == b;
    } else {
      var ab := a + b;
      assert ab[0] == a[0];
      assert ab[1..] == a[1..] + b;
      assert RoomRequests(ab) == RoomRequestsOf(a[0]) + RoomRequests(a[1..] + b);
      RoomRequestsAppend(a[1..], b);
      assert RoomRequestsOf(a[0]) + (RoomRequests(a[1..]) + RoomRequests(b)) == (RoomRequestsOf(a[0]) + RoomRequests(a[1..])) + RoomRequests(b);
    }
  }

  lemma FiltersAppend(a: seq<Effect>, b: seq<Effect>)
    ensures Sent(a + b) == Sent(a) + Sent(b)
    ensures Dispatched(a + b) == Dispatched(a) + Dispatched(b)
    ensures Pushed(a + b) == Pushed(a) + Pushed(b)
    ensures RoomRequests(a + b) == RoomRequests(a) + RoomRequests(b)
  {
    SentAppend(a, b);
    DispatchedAppend(a, b);
    PushedAppend(a, b);
    RoomRequestsAppend(a, b);
  }

  /** Each effect kind of three consecutive effect lists is that of the first, then the second, then the third. */
  lemma FiltersAppend3(a: seq<Effect>, b: seq<Effect>, c: seq<Effect>)
    ensures Sent(a + b + c) == Sent(a) + Sent(b) + Sent(c)
    ensures Dispatched(a + b + c) == Dispatched(a) + Dispatched(b) + Dispatched(c)
    ensures Pushed(a + b + c) == Pushed(a) + Pushed(b) + Pushed(c)
    ensures RoomRequests(a + b + c) == RoomRequests(a) + RoomRequests(b) + RoomRequests(c)
  {
    FiltersAppend(a, b);
    FiltersAppend(a + b, c);
  }
}
