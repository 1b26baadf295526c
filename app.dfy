/** The analysis session controller: the signed-in user, the region tier, the auth view,
    the per-document analysis state, the in-memory history and the browser's key-value
    store, with the event handlers that update them and the choice of screen they lead to. */
module App {
  import opened Wrappers
  import opened Types
  import opened JsBuiltins
  import AnalysisView

  // ---------------------------------------------------------------------------
  // Persistence

  const UserKey := "prescription_user"
  const HistoryKeyPrefix := "prescription_history_"

  /** The key a user's history is stored under; it never collides with the user key,
      and different ids give different keys. */
  function HistoryKey(userId: string): (k: string)
    ensures k != UserKey
    ensures |k| == |HistoryKeyPrefix| + |userId| && k[|HistoryKeyPrefix|..] == userId
  {
    HistoryKeyPrefix + userId
  }

  lemma HistoryKeyInjective(a: string, b: string)
    requires HistoryKey(a) == HistoryKey(b)
    ensures a == b
  {
    assert a == HistoryKey(a)[|HistoryKeyPrefix|..];
  }

  /** What a stored string holds, as far as the app's parsing tells values apart. */
  datatype Value =
    | Blank                                        // the empty string: falsy, never parsed
    | Malformed                                    // text that JSON.parse rejects
    | UserRecord(user: User)                       // a serialised user (its id may be empty)
    | HistoryRecord(entries: seq<MedicalAnalysis>) // a serialised list of analyses
    | OtherJson                                    // any other JSON: null, a number, an object without id

  type Store = map<string, Value>

  /** What startup takes from the store: the user to sign in and the history to load. */
  datatype Restoration = Restoration(user: Option<User>, history: Option<seq<MedicalAnalysis>>)

  /** A user is restored iff the user key holds a user record whose id is non-empty; that
      user's history is loaded iff its key holds a list. A history key holding blank or
      malformed text loads nothing (and the user stays restored). */
  function Restore(store: Store): (r: Restoration)
    ensures r.user.Some? <==> UserKey in store && store[UserKey].UserRecord? && store[UserKey].user.id != ""
    ensures r.user.Some? ==> store[UserKey] == UserRecord(r.user.value)
    ensures r.history.Some? <==>
      r.user.Some? && HistoryKey(r.user.value.id) in store && store[HistoryKey(r.user.value.id)].HistoryRecord?
    ensures r.history.Some? ==> store[HistoryKey(r.user.value.id)] == HistoryRecord(r.history.value)
  {
    if UserKey in store && store[UserKey].UserRecord? && store[UserKey].user.id != "" then
      var u := store[UserKey].user;
      var key := HistoryKey(u.id);
      Restoration(Some(u), if key in store && store[key].HistoryRecord? then Some(store[key].entries) else None)
    else
      Restoration(None, None)
  }

  /** The in-memory session agrees with the store: no user means no history; a signed-in
      user is the one stored under the user key; a non-empty history is the one stored
      under that user's history key. */
  predicate Consistent(user: Option<User>, history: seq<MedicalAnalysis>, store: Store)
  {
    && (user.None? ==> history == [])
    && (user.Some? ==> UserKey in store && store[UserKey] == UserRecord(user.value))
    && (user.Some? && history != [] ==>
          HistoryKey(user.value.id) in store && store[HistoryKey(user.value.id)] == HistoryRecord(history))
  }

  /** Reloading a consistent session with a user brings back that user iff the id is
      non-empty, and then the same history, as long as an empty in-memory history does not sit
      beside a non-empty list stored under the user's key. */
  lemma ReloadRestoresSession(user: Option<User>, history: seq<MedicalAnalysis>, store: Store)
    requires Consistent(user, history, store)
    requires user.Some?
    requires history == [] && HistoryKey(user.value.id) in store ==>
      !(store[HistoryKey(user.value.id)].HistoryRecord? && store[HistoryKey(user.value.id)].entries != [])
    ensures Restore(store).user == (if user.value.id != "" then user else None)
    ensures user.value.id != "" ==> Restore(store).history.GetOr([]) == history
  {
  }

  /** After logout removes the user key, a reload restores nobody, while every user's
      stored history is still there. */
  lemma LogoutForgetsUserButKeepsHistories(store: Store, id: string)
    ensures Restore(store - {UserKey}) == Restoration(None, None)
    ensures HistoryKey(id) in store ==>
      HistoryKey(id) in store - {UserKey} && (store - {UserKey})[HistoryKey(id)] == store[HistoryKey(id)]
  {
  }

  /** Signing in writes a record that a reload restores iff the generated id is non-empty. */
  lemma SignedInUserIsRestored(store: Store, u: User)
    ensures Restore(store[UserKey := UserRecord(u)]).user == (if u.id != "" then Some(u) else None)
  {
  }

  // ---------------------------------------------------------------------------
  // Signing in

  /** What the sign-in and sign-up forms submit (the login form leaves the name empty). */
  datatype AuthInput = AuthInput(name: string, email: string, password: string)

  /** The user built on sign-in: the generated id, the email, the current region tier, and
      the given name, or, when that is empty, the part of the email before its first '@'. */
  function NewUser(input: AuthInput, id: string, tier: CityTier): (u: User)
    ensures u.id == id && u.email == input.email && u.cityTier == Some(tier)
    ensures input.name != "" ==> u.name == input.name
    ensures input.name == "" ==>
      && u.name <= input.email
      && '@' !in u.name
      && (|u.name| == |input.email| || input.email[|u.name|] == '@')
  {
    User(id, if input.name != "" then input.name else FirstField(input.email, '@'), input.email, Some(tier))
  }

  /** With an empty name, an email `local@domain` whose local part holds no '@' gives that
      local part as the name. */
  lemma NameFromEmail(local: string, domain: string, id: string, tier: CityTier, password: string)
    requires '@' !in local
    ensures NewUser(AuthInput("", local + ['@'] + domain, password), id, tier).name == local
  {
    SplitJoined(local, '@', domain);
  }

  // ---------------------------------------------------------------------------
  // Analysis

  const AnalysisFailedMessage :=
    "We couldn't analyze the document. Please ensure the image is clear and try again."

  /** What is sent to the remote service: the data-URL payload (absent when the preview has
      no comma), the file's MIME type and the region tier label. */
  datatype AnalysisRequest = AnalysisRequest(base64Data: Option<string>, mimeType: string, regionHint: string)

  /** The remote analysis either yields a record or fails; an empty reply, unparsable JSON
      and transport errors are all the same failure here. */
  datatype ServiceOutcome = Success(analysis: MedicalAnalysis) | Failure

  /** A string is truthy in JavaScript iff it is present and non-empty. */
  predicate Truthy(s: Option<string>)
  {
    s.Some? && s.value != ""
  }

  /** The request an analysis sends from the given state, or none when the handler returns
      early because the preview is missing or empty or no file is selected. */
  function RequestFor(state: AnalysisState, tier: CityTier): (r: Option<AnalysisRequest>)
    ensures r.None? <==> !Truthy(state.preview) || state.file.None?
    ensures r.Some? ==> r.value.mimeType == state.file.value.mimeType && r.value.regionHint == CityTierLabel(tier)
    ensures r.Some? ==> (r.value.base64Data.Some? <==> ',' in state.preview.value)
    ensures r.Some? ==> r.value.base64Data == SecondField(state.preview.value, ',')
  {
    if !Truthy(state.preview) || state.file.None? then None
    else Some(AnalysisRequest(SecondField(state.preview.value, ','), state.file.value.mimeType, CityTierLabel(tier)))
  }

  /** For a data URL `header,rest` whose header holds no comma, the payload sent is the
      part of `rest` up to its next comma, which is all of `rest` when it has none. */
  lemma {:induction false} DataUrlPayloadIsSent(header: string, rest: string, file: FileRef, tier: CityTier, s: AnalysisState)
    requires ',' !in header
    requires s.file == Some(file) && s.preview == Some(header + [','] + rest)
    ensures RequestFor(s, tier) == Some(AnalysisRequest(Some(FirstField(rest, ',')), file.mimeType, CityTierLabel(tier)))
    ensures ',' !in rest ==> RequestFor(s, tier).value.base64Data == Some(rest)
  {
    SplitJoined(header, ',', rest);
    if ',' !in rest {
      FirstFieldUnique(rest, ',', rest);
    }
  }

  /** The result of a successful analysis, stamped with a locally made id and timestamp;
      everything else is the service's record unchanged. */
  function Enrich(a: MedicalAnalysis, id: string, now: int): (r: MedicalAnalysis)
    ensures r.id == Some(id) && r.timestamp == Some(now)
    ensures r.(id := a.id, timestamp := a.timestamp) == a
  {
    a.(id := Some(id), timestamp := Some(now))
  }

  // ---------------------------------------------------------------------------
  // Which screen is shown

  datatype AuthView = LandingView | LoginView | SignupView

  /** One entry of the history list: its label, its summary, and whether it is highlighted. */
  datatype HistoryRow = HistoryRow(typeLabel: string, summary: string, highlighted: bool)

  /** The main panel of the signed-in screen. */
  datatype Panel =
    | Scanning
    | ResultPanel(analysis: MedicalAnalysis)
    | UploaderPanel(file: Option<FileRef>, showRunButton: bool, errorBanner: Option<string>)

  datatype Screen =
    | LoadingScreen
    | AuthScreen(form: AuthView)
    | LandingScreen
    | Dashboard(tier: CityTier, historyRows: seq<HistoryRow>, panel: Panel)

  /** A history entry is highlighted when its id equals the shown result's id; a missing id
      (no result shown, or a result without one) compares equal to an entry's missing id, and
      a shown result with an id highlights no entry that lacks one. */
  function Highlighted(result: Option<MedicalAnalysis>, h: MedicalAnalysis): (b: bool)
    ensures b <==> (result.Some? && result.value.id == h.id) || (h.id.None? && (result.None? || result.value.id.None?))
  {
    (if result.Some? then result.value.id else None) == h.id
  }

  function HistoryRowOf(result: Option<MedicalAnalysis>, h: MedicalAnalysis): HistoryRow
  {
    HistoryRow(AnalysisView.TypeLabel(h.documentType), h.summary, Highlighted(result, h))
  }

  /** Right after a successful analysis with a user signed in, the new entry heads the
      history and, when no older entry shares its id, it is the only highlighted row. */
  lemma OnlyNewResultHighlighted(r: MedicalAnalysis, older: seq<MedicalAnalysis>)
    requires r.id.Some?
    requires forall i :: 0 <= i < |older| ==> older[i].id != r.id
    ensures forall i :: 0 <= i < |older| + 1 ==>
      (HistoryRowOf(Some(r), ([r] + older)[i]).highlighted <==> i == 0)
  {
    forall i | 0 <= i < |older| + 1
      ensures HistoryRowOf(Some(r), ([r] + older)[i]).highlighted <==> i == 0
    {
      if i > 0 {
        assert ([r] + older)[i] == older[i - 1];
      }
    }
  }

  /** The screen: a spinner while startup runs; without a user, the auth form or the landing
      page; with one, the dashboard, whose panel is the scanning notice while analyzing, else
      the result when there is one, else the uploader (with its run button iff a file is
      selected and its error banner iff the error text is non-empty). */
  function ScreenOf(
    isAuthLoading: bool, user: Option<User>, authView: AuthView, cityTier: CityTier,
    state: AnalysisState, history: seq<MedicalAnalysis>): (s: Screen)
    ensures s.LoadingScreen? <==> isAuthLoading
    ensures s.AuthScreen? <==> !isAuthLoading && user.None? && authView != LandingView
    ensures s.AuthScreen? ==> s.form == authView
    ensures s.LandingScreen? <==> !isAuthLoading && user.None? && authView == LandingView
    ensures s.Dashboard? <==> !isAuthLoading && user.Some?
    ensures s.Dashboard? ==> s.tier == cityTier
    ensures s.Dashboard? ==> (s.panel.Scanning? <==> state.isAnalyzing)
    ensures s.Dashboard? ==> (s.panel.ResultPanel? <==> !state.isAnalyzing && state.result.Some?)
    ensures s.Dashboard? && s.panel.ResultPanel? ==> s.panel.analysis == state.result.value
    ensures s.Dashboard? && s.panel.UploaderPanel? ==>
      && s.panel.file == state.file
      && (s.panel.showRunButton <==> state.file.Some? && !state.isAnalyzing)
      && s.panel.errorBanner == (if Truthy(state.error) then state.error else None)
    ensures s.Dashboard? ==>
      && |s.historyRows| == |history|
      && forall i :: 0 <= i < |history| ==> s.historyRows[i] == HistoryRowOf(state.result, history[i])
  {
    if isAuthLoading then LoadingScreen
    else if user.None? && authView != LandingView then AuthScreen(authView)
    else if user.None? then LandingScreen
    else
      var rows := Map((h: MedicalAnalysis) => HistoryRowOf(state.result, h), history);
      var panel :=
        if state.isAnalyzing then Scanning
        else if state.result.Some? then ResultPanel(state.result.value)
        else UploaderPanel(state.file, state.file.Some?, if Truthy(state.error) then state.error else None);
      Dashboard(cityTier, rows, panel)
  }

  // ---------------------------------------------------------------------------
  // The controller

  class Session {
    var user: Option<User>
    var cityTier: CityTier
    var authView: AuthView
    var isAuthLoading: bool
    var state: AnalysisState
    var history: seq<MedicalAnalysis>
    var store: Store

    ghost predicate Valid()
      reads this
    {
      Consistent(user, history, store)
    }

    /** The first render: nobody signed in, tier 1, the landing view, startup pending. */
    constructor (persisted: Store)
      ensures user == None && cityTier == Tier1 && authView == LandingView && isAuthLoading
      ensures state == IdleState && history == [] && store == persisted
      ensures Valid()
    {
      user := None;
      cityTier := Tier1;
      authView := LandingView;
      isAuthLoading := true;
      state := IdleState;
      history := [];
      store := persisted;
    }

    /** Startup: restore the stored user and, if that works, the user's history; loading
        ends whatever happens. A history that fails to parse leaves the user restored. */
    method InitApp()
      modifies this
      ensures user == (if Restore(old(store)).user.Some? then Restore(old(store)).user else old(user))
      ensures history == Restore(old(store)).history.GetOr(old(history))
      ensures !isAuthLoading
      ensures cityTier == old(cityTier) && authView == old(authView) && state == old(state) && store == old(store)
      ensures old(Valid()) && old(user).None? ==> Valid()
    {
      if UserKey in store && store[UserKey] != Blank {
        // A malformed or non-user record is rejected (JSON.parse throws or there is no id).
        if store[UserKey].UserRecord? && store[UserKey].user.id != "" {
          var parsed := store[UserKey].user;
          user := Some(parsed);
          var key := HistoryKey(parsed.id);
          if key in store && store[key] != Blank {
            // Malformed text throws here, after the user was already set.
            if store[key].HistoryRecord? {
              history := store[key].entries;
            }
          }
        }
      }
      isAuthLoading := false;
    }

    /** Sign-in or sign-up: build the user, store it under the user key, back to landing. */
    method SignIn(input: AuthInput, newId: string)
      modifies this
      ensures user == Some(NewUser(input, newId, old(cityTier)))
      ensures store == old(store)[UserKey := UserRecord(user.value)]
      ensures authView == LandingView
      ensures cityTier == old(cityTier) && isAuthLoading == old(isAuthLoading)
      ensures state == old(state) && history == old(history)
      ensures old(Valid()) && old(user).None? ==> Valid()
    {
      var u := NewUser(input, newId, cityTier);
      user := Some(u);
      store := store[UserKey := UserRecord(u)];
      authView := LandingView;
    }

    /** Reset the per-document state to idle; nothing else changes. */
    method ClearFile()
      modifies this
      ensures state == IdleState
      ensures user == old(user) && cityTier == old(cityTier) && authView == old(authView)
      ensures isAuthLoading == old(isAuthLoading) && history == old(history) && store == old(store)
      ensures old(Valid()) ==> Valid()
    {
      state := IdleState;
    }

    /** Logout: forget the user and the in-memory history, remove only the user key, back to
        landing, and reset the per-document state. */
    method Logout()
      modifies this
      ensures user == None && history == [] && authView == LandingView && state == IdleState
      ensures store == old(store) - {UserKey}
      ensures cityTier == old(cityTier) && isAuthLoading == old(isAuthLoading)
      ensures Valid()
    {
      user := None;
      store := store - {UserKey};
      history := [];
      authView := LandingView;
      ClearFile();
    }

    /** A finished file read: the file and its data URL become current, any result or error
        is dropped, and whether an analysis is running is left as it was. */
    method FileLoaded(file: FileRef, preview: string)
      modifies this
      ensures state == old(state).(file := Some(file), preview := Some(preview), error := None, result := None)
      ensures user == old(user) && cityTier == old(cityTier) && authView == old(authView)
      ensures isAuthLoading == old(isAuthLoading) && history == old(history) && store == old(store)
      ensures old(Valid()) ==> Valid()
    {
      state := state.(file := Some(file), preview := Some(preview), error := None, result := None);
    }

    /** The first half of an analysis: return early when there is nothing to send, else mark
        the analysis running, clear the error, and give back the request to send. */
    method BeginAnalyze() returns (request: Option<AnalysisRequest>)
      modifies this
      ensures request == RequestFor(old(state), old(cityTier))
      ensures request.None? ==> state == old(state)
      ensures request.Some? ==> state == old(state).(isAnalyzing := true, error := None)
      ensures user == old(user) && cityTier == old(cityTier) && authView == old(authView)
      ensures isAuthLoading == old(isAuthLoading) && history == old(history) && store == old(store)
      ensures old(Valid()) ==> Valid()
    {
      if !Truthy(state.preview) || state.file.None? {
        return None;
      }
      state := state.(isAnalyzing := true, error := None);
      var base64Data := SecondField(state.preview.value, ',');
      var mimeType := state.file.value.mimeType;
      request := Some(AnalysisRequest(base64Data, mimeType, CityTierLabel(cityTier)));
    }

    /** The second half: on success show the stamped result and, with a user signed in,
        prepend it to the history (no cap) and store the whole list under the user's key; on
        failure show the fixed message and keep file, preview, result and history. */
    method CompleteAnalyze(outcome: ServiceOutcome, newId: string, now: int)
      modifies this
      ensures outcome.Success? ==>
        var r := Enrich(outcome.analysis, newId, now);
        && state == old(state).(isAnalyzing := false, result := Some(r))
        && history == (if old(user).Some? then [r] + old(history) else old(history))
        && store == (if old(user).Some?
                     then old(store)[HistoryKey(old(user).value.id) := HistoryRecord(history)]
                     else old(store))
      ensures outcome.Failure? ==>
        && state == old(state).(isAnalyzing := false, error := Some(AnalysisFailedMessage))
        && history == old(history) && store == old(store)
      ensures user == old(user) && cityTier == old(cityTier) && authView == old(authView)
      ensures isAuthLoading == old(isAuthLoading)
      ensures old(Valid()) ==> Valid()
    {
      match outcome
      case Success(analysis) =>
        var enriched := Enrich(analysis, newId, now);
        state := state.(isAnalyzing := false, result := Some(enriched));
        if user.Some? {
          var updated := [enriched] + history;
          history := updated;
          store := store[HistoryKey(user.value.id) := HistoryRecord(updated)];
        }
      case Failure =>
        state := state.(isAnalyzing := false, error := Some(AnalysisFailedMessage));
    }

    /** The whole handler, run to completion: the service is a function of the request it
        is sent, the id and the timestamp are inputs. */
    method Analyze(service: AnalysisRequest -> ServiceOutcome, newId: string, now: int)
      modifies this
      ensures RequestFor(old(state), old(cityTier)).None? ==> state == old(state) && history == old(history) && store == old(store)
      ensures RequestFor(old(state), old(cityTier)).Some? ==>
        match service(RequestFor(old(state), old(cityTier)).value)
        case Success(a) =>
          var r := Enrich(a, newId, now);
          && state == old(state).(isAnalyzing := false, error := None, result := Some(r))
          && history == (if old(user).Some? then [r] + old(history) else old(history))
          && store == (if old(user).Some?
                       then old(store)[HistoryKey(old(user).value.id) := HistoryRecord(history)]
                       else old(store))
        case Failure =>
          && state == old(state).(isAnalyzing := false, error := Some(AnalysisFailedMessage))
          && history == old(history) && store == old(store)
      ensures user == old(user) && cityTier == old(cityTier) && authView == old(authView)
      ensures isAuthLoading == old(isAuthLoading)
      ensures old(Valid()) ==> Valid()
    {
      var request := BeginAnalyze();
      if request.Some? {
        CompleteAnalyze(service(request.value), newId, now);
      }
    }

    /** Clicking a history entry shows it; nothing else changes. */
    method PickHistoryEntry(i: nat)
      requires i < |history|
      modifies this
      ensures state == old(state).(result := Some(old(history)[i]))
      ensures user == old(user) && cityTier == old(cityTier) && authView == old(authView)
      ensures isAuthLoading == old(isAuthLoading) && history == old(history) && store == old(store)
      ensures old(Valid()) ==> Valid()
    {
      state := state.(result := Some(history[i]));
    }

    /** "New Scan": drop the result, the file and the preview; keep the error and the
        running flag. */
    method NewScan()
      modifies this
      ensures state == old(state).(result := None, file := None, preview := None)
      ensures user == old(user) && cityTier == old(cityTier) && authView == old(authView)
      ensures isAuthLoading == old(isAuthLoading) && history == old(history) && store == old(store)
      ensures old(Valid()) ==> Valid()
    {
      state := state.(result := None, file := None, preview := None);
    }

    /** The uploader's clear button: drop the file and the preview only. */
    method ClearUpload()
      modifies this
      ensures state == old(state).(file := None, preview := None)
      ensures user == old(user) && cityTier == old(cityTier) && authView == old(authView)
      ensures isAuthLoading == old(isAuthLoading) && history == old(history) && store == old(store)
      ensures old(Valid()) ==> Valid()
    {
      state := state.(file := None, preview := None);
    }

    /** The logo: back to landing without a user, else reset the per-document state. */
    method GoHome()
      modifies this
      ensures old(user).None? ==> authView == LandingView && state == old(state)
      ensures old(user).Some? ==> authView == old(authView) && state == IdleState
      ensures user == old(user) && cityTier == old(cityTier)
      ensures isAuthLoading == old(isAuthLoading) && history == old(history) && store == old(store)
      ensures old(Valid()) ==> Valid()
    {
      if user.None? {
        authView := LandingView;
      } else {
        ClearFile();
      }
    }

    /** The region selector: its options carry exactly the three tier labels, and the chosen
        label becomes the tier. */
    method SelectCityTier(value: string)
      requires AsCityTier(value).Some?
      modifies this
      ensures CityTierLabel(cityTier) == value
      ensures user == old(user) && authView == old(authView) && state == old(state)
      ensures isAuthLoading == old(isAuthLoading) && history == old(history) && store == old(store)
    {
      cityTier := AsCityTier(value).value;
    }

    /** The header's login button (to the login form) and the landing page's call to action
        (to the sign-up form). */
    method ShowAuthForm(form: AuthView)
      requires form != LandingView
      modifies this
      ensures authView == form
      ensures user == old(user) && cityTier == old(cityTier) && state == old(state)
      ensures isAuthLoading == old(isAuthLoading) && history == old(history) && store == old(store)
    {
      authView := form;
    }

    /** The auth form's switch link: from login to sign-up, and from anything else to login. */
    method SwitchAuthForm()
      modifies this
      ensures authView == (if old(authView) == LoginView then SignupView else LoginView)
      ensures user == old(user) && cityTier == old(cityTier) && state == old(state)
      ensures isAuthLoading == old(isAuthLoading) && history == old(history) && store == old(store)
    {
      authView := if authView == LoginView then SignupView else LoginView;
    }
  }
}
