/**
 * Whole-flow consequences of the model: joining through the address bar, and the estimate
 * toggle on a concrete snapshot.
 */
module Scenarios {
  import opened Wrappers
  import opened JsValues
  import opened Protocol
  import opened ActionEffects

  /** A snapshot with no room, no identity and no presets. */
  const EMPTY_SNAPSHOT := Snapshot(None, None, None, None, None, Undefined, None, None, None)

  /** Opening `/abc123` with no room set sends exactly one `joinRoom` for `abc123`. */
  lemma OpeningRoomPathJoins(env: Env)
    requires env.appStatusIdentifier != "abc123"
    ensures Sent(LocationChangedEffects(env, EMPTY_SNAPSHOT, "/abc123")) ==
      [Command("joinRoom", Some("abc123"), None, map[])]
  {
    assert "/abc123"[1..] == "abc123";
    assert JoinsOnLocation(env, EMPTY_SNAPSHOT, "/abc123");
    assert IsLower("abc123");
    ToLowerKeepsLower("abc123");
    var join := JoinCommand(EMPTY_SNAPSHOT, "abc123", None);
    assert join.payload.Keys == {};
  }

  /** Any confirming `joinedRoom` event for room `abc123` moves the address bar to `/abc123`. */
  lemma JoinedRoomNavigates(env: Env, state: Snapshot, event: Event)
    requires IsKnownEvent(env, "joinedRoom")
    requires event.name == "joinedRoom" && event.roomId == Some("abc123")
    ensures Pushed(EventReceivedEffects(env, state, event)) == ["/abc123"]
  {
    assert "/" + "abc123" == "/abc123";
    EventNavigation(env, state, event);
    assert Pushed(EventReceivedEffects(env, state, event)) == ["/" + AsString(event.roomId)];
  }

  /** With `{S1: {U1: 5}}` recorded for user `U1`, estimating 5 on `S1` retracts the estimate. */
  lemma RetractRecordedEstimate()
    ensures var state := EMPTY_SNAPSHOT.(userId := Some("U1"), estimations := Some(map["S1" := map["U1" := Number(5.0)]]));
      EstimateCommand(state, "S1", Number(5.0)) == Command("clearStoryEstimate", None, None, map["storyId" := Str("S1")])
  {
  }
}
