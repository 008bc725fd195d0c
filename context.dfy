/** One user's context: the dictionary main.py keeps under CONTEXT['users'][id],
    and the value-level effect of the helpers that rewrite it
    (update_user_context, reset_user_context, update_user_requests_history,
    update_dialog_state). */
module Context {

  datatype Option<+T> = None | Some(value: T)

  datatype Result<+T, +E> = Ok(value: T) | Err(error: E)

  /** A Telegram chat id; for a private chat it is also the user's id. */
  type UserId = int

  /** The dialog states; main.py stores them as strings under 'dialog_state'. */
  datatype State =
    | Start
    | SelectStreet
    | SelectHouseNumber
    | SelectProblemArea
    | SelectSectionNumber
    | SelectFloorNumber
    | SelectFlatNumber
    | SelectParkingNumber
    | SelectStoreroomNumber
    | SpecifyDescription
    | Confirm
    | UploadPhoto

  /** The largest size of a Telegram photo, as the photo step stores it. */
  datatype PhotoSize = PhotoSize(fileId: string, fileUniqueId: string, fileSize: Option<int>, height: int, width: int)

  /** The answers of the request being filled in, one field per key; None
      when the key is missing. The five 'photo_*' keys are written together
      by the photo step and only there, so they are one field here. */
  datatype Answers = Answers(
    category: Option<string>,     // 'selected_category'
    street: Option<string>,       // 'selected_street'
    house: Option<int>,           // 'selected_house'
    problemArea: Option<string>,  // 'selected_problem_area'
    section: Option<int>,         // 'selected_section'
    floor: Option<int>,           // 'selected_floor'
    flat: Option<int>,            // 'selected_flat'
    parking: Option<int>,         // 'selected_parking'
    storeroom: Option<int>,       // 'selected_storeroom'
    details: Option<string>,      // 'selected_details'
    photo: Option<PhotoSize>)     // 'photo_file_id', 'photo_file_unique_id', 'photo_file_size', 'photo_height', 'photo_width'

  const NoAnswers := Answers(None, None, None, None, None, None, None, None, None, None, None)

  /** A user's context. A missing list is the empty list, as every reader
      uses `.get(key, [])`; a missing value or a stored None is None. */
  datatype UserContext = UserContext(
    botStarted: Option<int>,      // 'bot_started'
    state: Option<State>,         // 'dialog_state'
    stateUpdated: Option<int>,    // 'dialog_state_updated'
    history: seq<State>,          // 'dialog_states_history'
    requests: seq<int>,           // 'requests_history'
    lastRequest: Option<int>,     // 'last_request'
    answers: Answers)

  /** What get_user_context returns for a user the store does not know: `{}`. */
  const EmptyContext := UserContext(None, None, None, [], [], None, NoAnswers)

  /** The exception a handler raises, which ends the handler where it occurs. */
  datatype Crash =
    | NoTextInStart   // message.lower() on None in state 'start'
    | NoBotStarted    // old_user_context['bot_started'] on a context without it
    | NoCategory      // .lower() on a missing 'selected_category'
    | NoStreet        // 'ул\. ' + None for a missing 'selected_street'
    | NoReplyText     // a template + None for a moderator's reply without text

  /** Python truthiness of an integer stored under a key (None and 0 are falsy). */
  predicate TruthyInt(v: Option<int>) {
    v.Some? && v.value != 0
  }

  /** `update_user_context('bot_started', now, overwrite=False)`: the time is
      written only when the stored value is falsy. */
  function MarkStarted(c: UserContext, now: int): (r: UserContext)
    ensures now != 0 ==> TruthyInt(r.botStarted)
    ensures TruthyInt(c.botStarted) ==> r == c
    ensures r.(botStarted := c.botStarted) == c
  {
    if TruthyInt(c.botStarted) then c else c.(botStarted := Some(now))
  }

  /** Marking the start twice is marking it once, whatever the later time:
      the first time the bot was started is kept. */
  lemma {:induction false} MarkStartedOnce(c: UserContext, now: int, later: int)
    requires now != 0
    ensures MarkStarted(MarkStarted(c, now), later) == MarkStarted(c, now)
    ensures MarkStarted(c, now).botStarted == if TruthyInt(c.botStarted) then c.botStarted else Some(now)
  {
  }

  /** `reset_user_context`: a fresh context at 'start' that carries over only
      bot_started, requests_history and last_request; it raises when
      bot_started was never written. */
  function ResetContext(c: UserContext, now: int): (r: Result<UserContext, Crash>)
    ensures r.Err? <==> c.botStarted.None?
    ensures r.Err? ==> r.error == NoBotStarted
  {
    if c.botStarted.None? then Err(NoBotStarted)
    else Ok(UserContext(c.botStarted, Some(Start), Some(now), [], c.requests, c.lastRequest, NoAnswers))
  }

  /** A reset keeps only bot_started, the request ids and the time of the last
      request, drops every answer and the step history, and enters 'start';
      resetting again at the same time changes nothing. */
  lemma ResetKeepsOnlyRecords(c: UserContext, now: int)
    requires c.botStarted.Some?
    ensures var r := ResetContext(c, now).value;
      && r.botStarted == c.botStarted
      && r.requests == c.requests
      && r.lastRequest == c.lastRequest
      && r.answers == NoAnswers
      && r.history == []
      && r.state == Some(Start)
      && r.stateUpdated == Some(now)
      && ResetContext(r, now) == Ok(r)
  {
  }

  /** `update_user_requests_history`: the posted message id is appended to
      the request ids (a missing list counts as empty) and the time of the
      last request is set; nothing else changes. */
  function RecordRequest(c: UserContext, messageId: int, now: int): (r: UserContext)
    ensures r.requests == c.requests + [messageId]
    ensures r.lastRequest == Some(now)
    ensures r.(requests := c.requests, lastRequest := c.lastRequest) == c
  {
    c.(requests := c.requests + [messageId], lastRequest := Some(now))
  }

  /** Recording a request keeps every id recorded before, in order, and the
      new id is found in the list. */
  lemma {:induction false} RecordRequestOnlyGrows(c: UserContext, messageId: int, now: int)
    ensures var r := RecordRequest(c, messageId, now);
      && c.requests <= r.requests
      && messageId in r.requests
      && (forall id :: id in r.requests <==> id in c.requests || id == messageId)
  {
    var r := RecordRequest(c, messageId, now);
    assert r.requests[|c.requests|] == messageId;
  }

  function Last<T>(h: seq<T>): T
    requires h != []
  {
    h[|h| - 1]
  }

  /** The part of `update_dialog_state` that changes the context: the old
      state goes on the history when it exists, differs from the new state
      and differs from the last entry; then the state and its time are set. */
  function PushState(c: UserContext, s: State, now: int): (r: UserContext)
    ensures r.state == Some(s)
    ensures r.stateUpdated == Some(now)
    ensures r.(state := c.state, stateUpdated := c.stateUpdated, history := c.history) == c
    ensures r.history != c.history <==>
      c.state.Some? && c.state.value != s && (c.history == [] || Last(c.history) != c.state.value)
    ensures r.history != c.history ==> r.history == c.history + [c.state.value]
  {
    var h :=
      match c.state
      case Some(o) => if o != s && (c.history == [] || Last(c.history) != o) then c.history + [o] else c.history
      case None => c.history;
    c.(state := Some(s), stateUpdated := Some(now), history := h)
  }

  /** No two consecutive history entries are equal. */
  predicate NoRepeats(h: seq<State>) {
    forall i :: 0 <= i < |h| - 1 ==> h[i] != h[i + 1]
  }

  /** The history has no consecutive duplicates and its last entry is never
      the current state (a history only exists once a state does). */
  predicate HistoryWellFormed(c: UserContext) {
    && NoRepeats(c.history)
    && (c.history != [] ==> c.state.Some? && Last(c.history) != c.state.value)
  }

  /** Appending an entry that differs from the last one keeps a history
      free of repeats. */
  lemma {:induction false} AppendKeepsNoRepeats(h: seq<State>, o: State)
    requires NoRepeats(h)
    requires h != [] ==> Last(h) != o
    ensures NoRepeats(h + [o])
  {
    forall i | 0 <= i < |h + [o]| - 1 ensures (h + [o])[i] != (h + [o])[i + 1] {
      if i < |h| - 1 {
        assert (h + [o])[i] == h[i] && (h + [o])[i + 1] == h[i + 1];
      }
    }
  }

  /** Re-entering the current state (the fallback) pushes nothing and only
      refreshes the state's timestamp. */
  lemma {:induction false} SameStateOnlyRefreshesTime(c: UserContext, s: State, now: int)
    requires c.state == Some(s)
    ensures PushState(c, s, now) == c.(stateUpdated := Some(now))
  {
  }

  /** update_dialog_state keeps the history well formed. */
  lemma {:induction false} PushStateKeepsHistoryWellFormed(c: UserContext, s: State, now: int)
    requires HistoryWellFormed(c)
    ensures HistoryWellFormed(PushState(c, s, now))
  {
    var r := PushState(c, s, now);
    if r.history != c.history {
      AppendKeepsNoRepeats(c.history, c.state.value);
    }
  }

  /** update_dialog_state also yields a well-formed history from a history
      without repeats whose last entry differs from the state entered (the
      shape go_back hands it after popping). */
  lemma {:induction false} PushStateOntoHistory(c: UserContext, s: State, now: int)
    requires NoRepeats(c.history)
    requires c.history != [] ==> Last(c.history) != s
    ensures HistoryWellFormed(PushState(c, s, now))
  {
    var r := PushState(c, s, now);
    if r.history != c.history {
      AppendKeepsNoRepeats(c.history, c.state.value);
    }
  }
}
