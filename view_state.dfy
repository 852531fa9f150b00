/**
 * The view-state reducer of client/app/state/ui/uiReducer.js: a total function from the
 * current UI state, an action and the local user's id to the next UI state. Its two writes
 * to the persistent client settings are returned as a list instead of being performed.
 */
module ViewState {
  import opened Wrappers
  import Protocol

  const SIDEBAR_HELP := "HELP"
  const SIDEBAR_SETTINGS := "SETTINGS"
  const SIDEBAR_ACTIONLOG := "ACTIONLOG"
  const DEFAULT_LANGUAGE := "en"

  /** An opaque handle on a translation function; only its identity matters. */
  datatype Translator = Translator(handle: nat)

  /** What the persistent client settings held when the module was loaded. */
  datatype StoredSettings = StoredSettings(presetLanguage: Option<string>, hideNewUserHints: bool)

  /**
   * Everything fixed when the module is loaded: the stored settings, the translator
   * `translatorFactory` produced for the initial language, and its `setLanguage`.
   */
  datatype Boot = Boot(stored: StoredSettings, translator: Translator, setLanguage: string -> Translator)

  /** The "ui" part of the redux state. `pathname` is absent until the first location change. */
  datatype UiState = UiState(
    backlogShown: bool,
    sidebar: Option<string>,
    applause: bool,
    unseenError: bool,
    newUserHintHidden: bool,
    language: string,
    translator: Translator,
    pathname: Option<string>)

  /** The actions the reducer distinguishes; every other action type is `Unrecognised`. */
  datatype UiAction =
    | JoinedRoom(ourJoin: bool)
    | LeftRoom(eventUserId: Option<string>)
    | StorySelected
    | ConsensusAchieved
    | NewEstimationRoundStarted
    | SidebarToggled(sidebarKey: Option<string>)
    | BacklogSidebarToggled
    | LanguageSet(language: string)
    | NewUserHintsHidden
    | LocationChanged(pathname: string)
    | CommandRejected
    | Unrecognised(actionType: string)

  /** The result of one reduction: the next state and the settings it persisted. */
  datatype Step = Step(state: UiState, writes: seq<Protocol.SettingsWrite>)

  /** The fields of `UiState`, to state which ones a case may change. */
  datatype UiField =
    | BacklogShownField | SidebarField | ApplauseField | UnseenErrorField
    | NewUserHintHiddenField | LanguageField | TranslatorField | PathnameField

  /** `b` agrees with `a` on every field outside `fields`. */
  predicate ChangesOnly(a: UiState, b: UiState, fields: set<UiField>)
  {
    (BacklogShownField !in fields ==> b.backlogShown == a.backlogShown) &&
    (SidebarField !in fields ==> b.sidebar == a.sidebar) &&
    (ApplauseField !in fields ==> b.applause == a.applause) &&
    (UnseenErrorField !in fields ==> b.unseenError == a.unseenError) &&
    (NewUserHintHiddenField !in fields ==> b.newUserHintHidden == a.newUserHintHidden) &&
    (LanguageField !in fields ==> b.language == a.language) &&
    (TranslatorField !in fields ==> b.translator == a.translator) &&
    (PathnameField !in fields ==> b.pathname == a.pathname)
  }

  /** The backlog panel and a sidebar are never shown together. */
  predicate Exclusive(s: UiState)
  {
    !(s.backlogShown && s.sidebar.Some?)
  }

  /** `uiInitialState` */
  function UiInitialState(boot: Boot): (s: UiState)
    ensures !s.backlogShown && s.sidebar == None && !s.applause && !s.unseenError
    ensures s.newUserHintHidden == boot.stored.hideNewUserHints
    ensures s.language != "" && s.translator == boot.translator && s.pathname == None
    ensures boot.stored.presetLanguage.Some? && boot.stored.presetLanguage.value != "" ==>
      s.language == boot.stored.presetLanguage.value
    ensures !(boot.stored.presetLanguage.Some? && boot.stored.presetLanguage.value != "") ==>
      s.language == DEFAULT_LANGUAGE
    ensures Exclusive(s)
  {
    var userLanguage := boot.stored.presetLanguage;
    UiState(
      backlogShown := false,
      sidebar := None,
      applause := false,
      unseenError := false,
      newUserHintHidden := boot.stored.hideNewUserHints,
      language := if userLanguage.Some? && userLanguage.value != "" then userLanguage.value else DEFAULT_LANGUAGE,
      translator := boot.translator,
      pathname := None)
  }

  /** `uiReducer(state, action, ownUserId)` */
  function UiReducer(boot: Boot, state: UiState, action: UiAction, ownUserId: Option<string>): (r: Step)
    // persistent settings are written by exactly two cases
    ensures r.writes ==
      match action
      case LanguageSet(language) => [Protocol.SetPresetLanguage(language)]
      case NewUserHintsHidden => [Protocol.SetHideNewUserHints(true)]
      case _ => []
    // the backlog panel and the sidebar exclude each other
    ensures action.SidebarToggled? || action.BacklogSidebarToggled? ==> Exclusive(r.state)
    ensures Exclusive(state) ==> Exclusive(r.state)
    // per case: the fields that may change and their new values
    ensures match action
      // room membership
      case JoinedRoom(ourJoin) =>
        if ourJoin then ChangesOnly(state, r.state, {UnseenErrorField}) && !r.state.unseenError
        else r.state == state
      case LeftRoom(eventUserId) =>
        if eventUserId == ownUserId then r.state == UiInitialState(boot) else r.state == state
      // applause
      case StorySelected => ChangesOnly(state, r.state, {ApplauseField}) && !r.state.applause
      case NewEstimationRoundStarted => ChangesOnly(state, r.state, {ApplauseField}) && !r.state.applause
      case ConsensusAchieved => ChangesOnly(state, r.state, {ApplauseField}) && r.state.applause
      // sidebar and backlog
      case SidebarToggled(sidebarKey) =>
        if state.sidebar == sidebarKey then ChangesOnly(state, r.state, {SidebarField}) && r.state.sidebar == None
        else
          ChangesOnly(state, r.state, {SidebarField, BacklogShownField, UnseenErrorField}) &&
          r.state.sidebar == sidebarKey && !r.state.backlogShown &&
          r.state.unseenError == (state.unseenError && sidebarKey != Some(SIDEBAR_ACTIONLOG))
      case BacklogSidebarToggled =>
        r.state.backlogShown == !state.backlogShown &&
        if state.backlogShown then ChangesOnly(state, r.state, {BacklogShownField})
        else ChangesOnly(state, r.state, {BacklogShownField, SidebarField}) && r.state.sidebar == None
      // settings and location
      case LanguageSet(language) =>
        ChangesOnly(state, r.state, {LanguageField, TranslatorField}) &&
        r.state.language == language && r.state.translator == boot.setLanguage(language)
      case NewUserHintsHidden => ChangesOnly(state, r.state, {NewUserHintHiddenField}) && r.state.newUserHintHidden
      case LocationChanged(pathname) => ChangesOnly(state, r.state, {PathnameField}) && r.state.pathname == Some(pathname)
      // errors
      case CommandRejected => ChangesOnly(state, r.state, {UnseenErrorField}) && r.state.unseenError
      case Unrecognised(_) => r.state == state
  {
    match action
    case JoinedRoom(ourJoin) =>
      if ourJoin then Step(state.(unseenError := false), []) else Step(state, [])
    case LeftRoom(eventUserId) =>
      if eventUserId == ownUserId then Step(UiInitialState(boot), []) else Step(state, [])
    case StorySelected => Step(state.(applause := false), [])
    case ConsensusAchieved => Step(state.(applause := true), [])
    case NewEstimationRoundStarted => Step(state.(applause := false), [])
    case SidebarToggled(sidebarKey) =>
      if state.sidebar == sidebarKey then Step(state.(sidebar := None), [])
      else
        Step(state.(
          sidebar := sidebarKey,
          backlogShown := false,
          unseenError := if sidebarKey == Some(SIDEBAR_ACTIONLOG) then false else state.unseenError), [])
    case BacklogSidebarToggled =>
      var showBacklog := !state.backlogShown;
      if showBacklog then Step(state.(backlogShown := true, sidebar := None), [])
      else Step(state.(backlogShown := false), [])
    case LanguageSet(language) =>
      var newTranslatorFunction := boot.setLanguage(language);
      Step(state.(language := language, translator := newTranslatorFunction), [Protocol.SetPresetLanguage(language)])
    case NewUserHintsHidden => Step(state.(newUserHintHidden := true), [Protocol.SetHideNewUserHints(true)])
    case LocationChanged(pathname) => Step(state.(pathname := Some(pathname)), [])
    case CommandRejected => Step(state.(unseenError := true), [])
    case Unrecognised(_) => Step(state, [])
  }

  /**
   * The state after the store has reduced `steps` one after the other. The store passes the
   * local user's id as it is when each action arrives, so every step carries its own id.
   */
  function Reduce(boot: Boot, state: UiState, steps: seq<(UiAction, Option<string>)>): UiState
    decreases |steps|
  {
    if steps == [] then state
    else Reduce(boot, UiReducer(boot, state, steps[0].0, steps[0].1).state, steps[1..])
  }

  /** Any sequence of actions, whatever the user ids, keeps backlog/sidebar exclusion once it holds. */
  lemma {:induction false} ReduceKeepsExclusive(boot: Boot, state: UiState, steps: seq<(UiAction, Option<string>)>)
    requires Exclusive(state)
    ensures Exclusive(Reduce(boot, state, steps))
    decreases |steps|
  {
    if steps != [] {
      ReduceKeepsExclusive(boot, UiReducer(boot, state, steps[0].0, steps[0].1).state, steps[1..]);
    }
  }

  /** From the initial state on, no sequence of actions ever shows the backlog beside a sidebar. */
  lemma NeverBacklogBesideSidebar(boot: Boot, steps: seq<(UiAction, Option<string>)>)
    ensures Exclusive(Reduce(boot, UiInitialState(boot), steps))
  {
    ReduceKeepsExclusive(boot, UiInitialState(boot), steps);
  }

  /**
   * Toggling the same sidebar key twice: the sidebar ends up as it was when it was closed or
   * showed that key, and closed otherwise. So the round trip restores the sidebar exactly when
   * it started closed or on that key.
   */
  lemma SidebarToggleTwice(boot: Boot, state: UiState, key: Option<string>, ownUserId: Option<string>)
    ensures var once := UiReducer(boot, state, SidebarToggled(key), ownUserId).state;
      var twice := UiReducer(boot, once, SidebarToggled(key), ownUserId).state;
      twice.sidebar == (if state.sidebar == key then key else None) &&
      (twice.sidebar == state.sidebar <==> state.sidebar == None || state.sidebar == key)
  {
  }

  /**
   * Toggling the HELP sidebar and then the backlog leaves only the backlog shown, whether HELP
   * was opened or closed by the first toggle.
   */
  lemma SidebarThenBacklog(boot: Boot, state: UiState, ownUserId: Option<string>)
    requires Exclusive(state)
    ensures var help := UiReducer(boot, state, SidebarToggled(Some(SIDEBAR_HELP)), ownUserId).state;
      var backlog := UiReducer(boot, help, BacklogSidebarToggled, ownUserId).state;
      backlog.sidebar == None && backlog.backlogShown
  {
  }

  /**
   * Leaving the room resets to the state computed when the module was loaded: a language
   * chosen since then, and a dismissal of the new-user hints, are not kept in the UI state.
   */
  lemma LeavingForgetsLaterSettings(boot: Boot, state: UiState, language: string, ownUserId: Option<string>)
    ensures var chosen := UiReducer(boot, state, LanguageSet(language), ownUserId).state;
      var hidden := UiReducer(boot, chosen, NewUserHintsHidden, ownUserId).state;
      var left := UiReducer(boot, hidden, LeftRoom(ownUserId), ownUserId).state;
      left.language == UiInitialState(boot).language &&
      left.newUserHintHidden == boot.stored.hideNewUserHints
  {
  }
}
