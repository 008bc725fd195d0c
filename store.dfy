/** The bot's shared state and the handlers that change it in place:
    CONTEXT['users'] (with the order its users were added in, which is the
    order a dict iterates in), the IS_CONTEXT_CHANGED flag, and the steps
    proceed_user_message and the /start handler take on them. Each handler
    is proved to do what the value-level model in Dialog says. */
module Store {
  import opened Text
  import opened Context
  import opened Report
  import opened Dialog
  import opened DialogFacts

  /** The chat an update arrives in. */
  datatype Chat = Chat(id: int, isPrivate: bool)

  /** An incoming message: its chat, its sender, its text, its photo sizes,
      and, when it replies to a forwarded post, the id of that post in the
      main group. */
  datatype Message = Message(chat: Chat, sender: int, text: Option<string>, photo: seq<PhotoSize>, replyForwardId: Option<int>)

  /** The handler ended by saving the context. */
  predicate Saves(effects: seq<Effect>) {
    effects != [] && Last(effects) == Persisted
  }

  /** The first user, in the store's order, whose request ids hold id. */
  function FindRequester(order: seq<UserId>, users: map<UserId, UserContext>, id: int): (r: Option<UserId>)
    requires forall u :: u in order ==> u in users
    ensures r.Some? ==> r.value in order && r.value in users && id in users[r.value].requests
    ensures r.None? ==> forall u :: u in order ==> id !in users[u].requests
    decreases |order|
  {
    if order == [] then None
    else
      var u := order[0];
      assert u in order;
      if id in users[u].requests then Some(u)
      else
        assert forall v :: v in order[1..] ==> v in order;
        FindRequester(order[1..], users, id)
  }

  /** The requester found is the first one: no user before it in the order
      holds the id. */
  lemma {:induction false} FindRequesterIsFirst(order: seq<UserId>, users: map<UserId, UserContext>, id: int)
    requires forall u :: u in order ==> u in users
    ensures var r := FindRequester(order, users, id);
      r.Some? ==> exists i ::
        && 0 <= i < |order| && order[i] == r.value
        && forall j :: 0 <= j < i ==> id !in users[order[j]].requests
    decreases |order|
  {
    var r := FindRequester(order, users, id);
    if order != [] && id !in users[order[0]].requests && r.Some? {
      FindRequesterIsFirst(order[1..], users, id);
      var i :| 0 <= i < |order[1..]| && order[1..][i] == r.value
        && forall j :: 0 <= j < i ==> id !in users[order[1..][j]].requests;
      assert order[i + 1] == r.value;
      forall j | 0 <= j < i + 1 ensures id !in users[order[j]].requests {
        if j > 0 {
          assert order[j] == order[1..][j - 1];
        }
      }
    }
  }

  /** proceed_group_chat_message: a reply by a responsible person to a
      forwarded post goes to the first user whose requests hold the post;
      a reply without text raises when that user is found. */
  function GroupReply(m: Message, cfg: Config, order: seq<UserId>, users: map<UserId, UserContext>): seq<Effect>
    requires forall u :: u in order ==> u in users
  {
    if m.sender in cfg.responsiblePersons && m.replyForwardId.Some? then
      match FindRequester(order, users, m.replyForwardId.value)
      case None => []
      case Some(u) => if m.text.None? then [Raised(NoReplyText)] else [ResponseForwarded(u, m.text.value)]
    else []
  }

  /** Storing a user's context twice leaves the second one. */
  lemma StoreTwice(users: map<UserId, UserContext>, id: UserId, a: UserContext, b: UserContext)
    ensures users[id := a][id := b] == users[id := b]
  {
  }

  class ContextStore {
    /** CONTEXT['users']. */
    var users: map<UserId, UserContext>
    /** The users in the order they were added. */
    var order: seq<UserId>
    /** IS_CONTEXT_CHANGED. */
    var changed: bool
    /** CONFIG, loaded once. */
    const cfg: Config

    /** The order lists every user exactly once. */
    ghost predicate Valid()
      reads this
    {
      && (forall u :: u in users <==> u in order)
      && (forall i, j :: 0 <= i < j < |order| ==> order[i] != order[j])
    }

    /** An empty store: CONTEXT = {'users': {}}. */
    constructor (cfg: Config)
      ensures Valid() && this.cfg == cfg
      ensures users == map[] && order == [] && !changed
    {
      this.cfg := cfg;
      users := map[];
      order := [];
      changed := false;
    }

    /** `get_user_context`: the stored context, or `{}` for an unknown user. */
    function ContextOf(id: UserId): UserContext
      reads this
    {
      if id in users then users[id] else EmptyContext
    }

    /** The store changed as the outcome o of a handler on user id says: its
        context is stored when the handler wrote, the user is added at the end
        of the order when new, and the flag is set by any write and cleared by
        a save. */
    twostate predicate Applied(id: UserId, o: Outcome)
      reads this
    {
      && users == (if o.wrote then old(users)[id := o.ctx] else old(users))
      && order == (if o.wrote && id !in old(users) then old(order) + [id] else old(order))
      && changed == (if Saves(o.effects) then false else old(changed) || o.wrote)
    }

    /** `set_user_context`. */
    method SetUserContext(id: UserId, c: UserContext)
      modifies this
      requires Valid()
      ensures Valid()
      ensures Applied(id, Outcome(c, true, []))
    {
      if id !in users {
        order := order + [id];
      }
      users := users[id := c];
      changed := true;
    }

    /** `update_user_context('bot_started', now, overwrite=False)`. */
    method MarkBotStarted(id: UserId, now: int)
      modifies this
      requires Valid()
      ensures Valid()
      ensures var c := old(ContextOf(id));
        Applied(id, Outcome(MarkStarted(c, now), !TruthyInt(c.botStarted), []))
    {
      var c := ContextOf(id);
      if !TruthyInt(c.botStarted) {
        SetUserContext(id, c.(botStarted := Some(now)));
      }
    }

    /** `reset_user_context`: None, or the exception it raises. */
    method ResetUserContext(id: UserId, now: int) returns (crash: Option<Crash>)
      modifies this
      requires Valid()
      ensures Valid()
      ensures var r := ResetContext(old(ContextOf(id)), now);
        && (crash.Some? <==> r.Err?)
        && (r.Err? ==> crash.value == r.error && Applied(id, Outcome(old(ContextOf(id)), false, [])))
        && (r.Ok? ==> Applied(id, Outcome(r.value, true, [])))
    {
      var old_ := ContextOf(id);
      if old_.botStarted.None? {
        return Some(NoBotStarted);
      }
      SetUserContext(id, UserContext(old_.botStarted, Some(Start), Some(now), [], old_.requests, old_.lastRequest, NoAnswers));
      crash := None;
    }

    /** `update_user_requests_history`. */
    method UpdateUserRequestsHistory(id: UserId, messageId: int, now: int)
      modifies this
      requires Valid()
      ensures Valid()
      ensures Applied(id, Outcome(RecordRequest(old(ContextOf(id)), messageId, now), true, []))
    {
      var requests := ContextOf(id).requests;
      requests := requests + [messageId];
      SetUserContext(id, ContextOf(id).(requests := requests));
      SetUserContext(id, ContextOf(id).(lastRequest := Some(now)));
    }

    /** `update_dialog_state`: push the old state when the rule allows, then
        set the state and its time, then send the state's question. */
    method UpdateDialogState(id: UserId, s: State, now: int) returns (effects: seq<Effect>)
      modifies this
      requires Valid()
      ensures Valid()
      ensures var c := PushState(old(ContextOf(id)), s, now);
        Applied(id, Outcome(c, true, [])) && effects == PromptFor(c, s)
    {
      ghost var pushed := PushState(ContextOf(id), s, now);
      var current := ContextOf(id).state;
      if current.Some? && current.value != s {
        var history := ContextOf(id).history;
        if history == [] || Last(history) != current.value {
          history := history + [current.value];
          SetUserContext(id, ContextOf(id).(history := history));
        }
      }
      assert ContextOf(id).(state := Some(s), stateUpdated := Some(now)) == pushed;
      SetUserContext(id, ContextOf(id).(state := Some(s)));
      SetUserContext(id, ContextOf(id).(stateUpdated := Some(now)));
      effects := PromptFor(ContextOf(id), s);
    }

    /** `proceed_fallback`. */
    method ProceedFallback(id: UserId, s: State, now: int) returns (effects: seq<Effect>)
      modifies this
      requires Valid()
      ensures Valid()
      ensures var o := Fallback(old(ContextOf(id)), s, now);
        Applied(id, o) && effects == o.effects
    {
      var prompt := UpdateDialogState(id, s, now);
      effects := [FallbackNotice] + prompt;
    }

    /** An answer is recorded (`update_user_context` on an answer key), then
        the next state is entered. */
    method RecordAndGo(id: UserId, a: Answers, next: State, now: int) returns (effects: seq<Effect>)
      modifies this
      requires Valid()
      ensures Valid()
      ensures var o := Goto(old(ContextOf(id)).(answers := a), next, now);
        Applied(id, o) && effects == o.effects
    {
      SetUserContext(id, ContextOf(id).(answers := a));
      effects := UpdateDialogState(id, next, now);
    }

    /** `go_back`: the history is popped in place (so update_dialog_state
        sees the popped list), the previous state is entered, and the popped
        copy is written over whatever update_dialog_state pushed. */
    method GoBack(id: UserId, now: int) returns (effects: seq<Effect>)
      modifies this
      requires Valid()
      ensures Valid()
      ensures var o := Dialog.GoBack(old(ContextOf(id)), now);
        Applied(id, o) && effects == o.effects
    {
      var history := ContextOf(id).history;
      if history == [] {
        effects := UpdateDialogState(id, Start, now);
        return;
      }
      ghost var c := ContextOf(id);
      var previous := Last(history);
      var popped := history[..|history| - 1];
      users := users[id := ContextOf(id).(history := popped)];
      assert ContextOf(id) == c.(history := popped);
      effects := UpdateDialogState(id, previous, now);
      ghost var pushed := PushState(c.(history := popped), previous, now);
      assert ContextOf(id) == pushed;
      StoreTwice(old(users), id, c.(history := popped), pushed);
      if Raises(effects) {
        return;
      }
      SetUserContext(id, ContextOf(id).(history := popped));
      StoreTwice(old(users), id, pushed, pushed.(history := popped));
    }

    /** `go_restart`. */
    method GoRestart(id: UserId, now: int) returns (effects: seq<Effect>)
      modifies this
      requires Valid()
      ensures Valid()
      ensures var o := Dialog.GoRestart(old(ContextOf(id)), now);
        Applied(id, o) && effects == o.effects
    {
      effects := UpdateDialogState(id, Start, now);
      var crash := ResetUserContext(id, now);
      if crash.Some? {
        effects := effects + [Raised(crash.value)];
      }
    }

    /** `save_context`: a snapshot of the users when something changed, and
        the flag is cleared; nothing when nothing changed. */
    method SaveContext() returns (saved: Option<map<UserId, UserContext>>)
      modifies this
      ensures saved == (if old(changed) then Some(users) else None)
      ensures !changed && users == old(users) && order == old(order)
    {
      saved := None;
      if changed {
        changed := false;
        saved := Some(users);
      }
    }

    /** The submission in the confirm step: post the request, record its
        id, tell the user, reset, save. */
    method Submit(id: UserId, now: int, postedId: int) returns (effects: seq<Effect>, saved: Option<map<UserId, UserContext>>)
      modifies this
      requires Valid()
      ensures Valid()
      ensures var o := Dialog.Submit(old(ContextOf(id)), now, postedId);
        Applied(id, o) && effects == o.effects
      ensures saved == (if Saves(effects) then Some(users) else None)
    {
      saved := None;
      var request := AssembleRequest(ContextOf(id).answers);
      if request.Err? {
        return [Raised(request.error)], None;
      }
      ghost var c := ContextOf(id);
      effects := [PostRequest(request.value)];
      UpdateUserRequestsHistory(id, postedId, now);
      assert ContextOf(id) == RecordRequest(c, postedId, now) && id in users;
      effects := effects + [SuccessNotice(postedId)];
      if IsFire(request.value.category) {
        effects := effects + [FireHint];
      }
      var crash := ResetUserContext(id, now);
      if crash.Some? {
        effects := effects + [Raised(crash.value)];
        return;
      }
      StoreTwice(old(users), id, RecordRequest(c, postedId, now), ContextOf(id));
      saved := SaveContext();
      effects := effects + [Persisted];
    }

    /** The state 'start'. */
    method AnswerStart(id: UserId, m: Option<string>, now: int) returns (effects: seq<Effect>)
      modifies this
      requires Valid()
      ensures Valid()
      ensures var o := StepStart(old(ContextOf(id)), m, cfg, now);
        Applied(id, o) && effects == o.effects
    {
      if m.None? {
        return [Raised(NoTextInStart)];
      }
      if Contains(Lower(m.value), "правила") {
        return [RulesText];
      }
      if Contains(Lower(m.value), "контакты") {
        return [ContactsText];
      }
      if m.value == [] || m.value !in cfg.categories {
        effects := ProceedFallback(id, Start, now);
        return;
      }
      effects := RecordAndGo(id, ContextOf(id).answers.(category := Some(m.value)), SelectStreet, now);
    }

    /** The state 'select_street'. */
    method AnswerStreet(id: UserId, m: Option<string>, now: int) returns (effects: seq<Effect>)
      modifies this
      requires Valid()
      ensures Valid()
      ensures var o := StepStreet(old(ContextOf(id)), m, cfg, now);
        Applied(id, o) && effects == o.effects
    {
      if m.None? || m.value == [] || m.value !in cfg.streets {
        effects := ProceedFallback(id, SelectStreet, now);
        return;
      }
      effects := RecordAndGo(id, ContextOf(id).answers.(street := Some(m.value)), SelectHouseNumber, now);
    }

    /** A number state whose next state is fixed. */
    method AnswerNumber(id: UserId, m: Option<string>, s: State, lo: int, hi: int, k: NumberKey, next: State, now: int)
      returns (effects: seq<Effect>)
      modifies this
      requires Valid()
      ensures Valid()
      ensures var o := StepNumber(old(ContextOf(id)), m, s, lo, hi, k, next, now);
        Applied(id, o) && effects == o.effects
    {
      var n := NumberAnswer(m, lo, hi);
      if n.None? {
        effects := ProceedFallback(id, s, now);
        return;
      }
      effects := RecordAndGo(id, SetNumber(ContextOf(id).answers, k, n.value), next, now);
    }

    /** A number state whose next state depends on the category. */
    method AnswerNumberByCategory(id: UserId, m: Option<string>, s: State, lo: int, hi: int, k: NumberKey,
                                  fireNext: State, otherNext: State, now: int)
      returns (effects: seq<Effect>)
      modifies this
      requires Valid()
      ensures Valid()
      ensures var o := StepNumberByCategory(old(ContextOf(id)), m, s, lo, hi, k, fireNext, otherNext, now);
        Applied(id, o) && effects == o.effects
    {
      var n := NumberAnswer(m, lo, hi);
      if n.None? {
        effects := ProceedFallback(id, s, now);
        return;
      }
      var a := SetNumber(ContextOf(id).answers, k, n.value);
      if a.category.None? {
        SetUserContext(id, ContextOf(id).(answers := a));
        return [Raised(NoCategory)];
      }
      var next := if IsFire(a.category.value) then fireNext else otherNext;
      effects := RecordAndGo(id, a, next, now);
    }

    /** The state 'select_problem_area'. */
    method AnswerProblemArea(id: UserId, m: Option<string>, now: int) returns (effects: seq<Effect>)
      modifies this
      requires Valid()
      ensures Valid()
      ensures var o := StepProblemArea(old(ContextOf(id)), m, cfg, now);
        Applied(id, o) && effects == o.effects
    {
      if m.None? || m.value == [] || m.value !in cfg.problemAreas {
        effects := ProceedFallback(id, SelectProblemArea, now);
        return;
      }
      var area := Lower(m.value);
      SetUserContext(id, ContextOf(id).(answers := ContextOf(id).answers.(problemArea := Some(area))));
      ghost var recorded := ContextOf(id);
      var next := AreaRoute(area);
      effects := [];
      if next.Some? {
        effects := UpdateDialogState(id, next.value, now);
        StoreTwice(old(users), id, recorded, PushState(recorded, next.value, now));
      }
    }

    /** The state 'specify_description'. */
    method AnswerDescription(id: UserId, m: Option<string>, now: int) returns (effects: seq<Effect>)
      modifies this
      requires Valid()
      ensures Valid()
      ensures var o := StepDescription(old(ContextOf(id)), m, now);
        Applied(id, o) && effects == o.effects
    {
      if m.None? || m.value == [] {
        effects := ProceedFallback(id, SpecifyDescription, now);
        return;
      }
      effects := RecordAndGo(id, ContextOf(id).answers.(details := Some(Truncate(m.value, MaxDetailsLength))), Confirm, now);
    }

    /** The state 'confirm'. */
    method AnswerConfirm(id: UserId, m: Option<string>, now: int, postedId: int)
      returns (effects: seq<Effect>, saved: Option<map<UserId, UserContext>>)
      modifies this
      requires Valid()
      ensures Valid()
      ensures var o := StepConfirm(old(ContextOf(id)), m, cfg, now, postedId);
        Applied(id, o) && effects == o.effects
      ensures saved == (if Saves(effects) then Some(users) else None)
    {
      saved := None;
      GotoNeverPersists();
      if m.None? || m.value == [] {
        effects := ProceedFallback(id, Confirm, now);
        return;
      }
      if Contains(Lower(m.value), "фото") {
        effects := UpdateDialogState(id, UploadPhoto, now);
        return;
      }
      if Contains(Lower(m.value), "опис") {
        effects := UpdateDialogState(id, SpecifyDescription, now);
        return;
      }
      var confirmed := IsGoConfirmMessage(m.value, cfg);
      if confirmed {
        effects, saved := Submit(id, now, postedId);
        return;
      }
      effects := [];
    }

    /** The state 'upload_photo'. */
    method AnswerPhoto(id: UserId, photo: seq<PhotoSize>, now: int) returns (effects: seq<Effect>)
      modifies this
      requires Valid()
      ensures Valid()
      ensures var o := StepUploadPhoto(old(ContextOf(id)), photo, now);
        Applied(id, o) && effects == o.effects
    {
      if photo == [] {
        effects := ProceedFallback(id, UploadPhoto, now);
        return;
      }
      effects := RecordAndGo(id, ContextOf(id).answers.(photo := Some(Last(photo))), Confirm, now);
    }

    /** The dispatch on the current state of a private chat. */
    method Dispatch(id: UserId, s: State, m: Option<string>, photo: seq<PhotoSize>, now: int, postedId: int)
      returns (effects: seq<Effect>, saved: Option<map<UserId, UserContext>>)
      modifies this
      requires Valid()
      ensures Valid()
      ensures var o := StepAt(s, old(ContextOf(id)), m, photo, cfg, now, postedId);
        Applied(id, o) && effects == o.effects
      ensures saved == (if Saves(effects) then Some(users) else None)
    {
      saved := None;
      if s != Confirm {
        OnlyConfirmPersists(s, ContextOf(id), m, photo, cfg, now, postedId);
      }
      match s
      case Start =>
        effects := AnswerStart(id, m, now);
      case SelectStreet =>
        effects := AnswerStreet(id, m, now);
      case SelectHouseNumber =>
        effects := AnswerNumberByCategory(id, m, SelectHouseNumber, 1, 50, HouseKey, SelectSectionNumber, SelectProblemArea, now);
      case SelectProblemArea =>
        effects := AnswerProblemArea(id, m, now);
      case SelectSectionNumber =>
        effects := AnswerNumberByCategory(id, m, SelectSectionNumber, 1, 9, SectionKey, Confirm, SelectFloorNumber, now);
      case SelectFloorNumber =>
        effects := AnswerNumber(id, m, SelectFloorNumber, -1, 30, FloorKey, SelectFlatNumber, now);
      case SelectFlatNumber =>
        effects := AnswerNumber(id, m, SelectFlatNumber, 1, 700, FlatKey, Confirm, now);
      case SelectParkingNumber =>
        effects := AnswerNumber(id, m, SelectParkingNumber, 1, 500, ParkingKey, Confirm, now);
      case SelectStoreroomNumber =>
        effects := AnswerNumber(id, m, SelectStoreroomNumber, 1, 500, StoreroomKey, Confirm, now);
      case SpecifyDescription =>
        effects := AnswerDescription(id, m, now);
      case Confirm =>
        effects, saved := AnswerConfirm(id, m, now, postedId);
      case UploadPhoto =>
        effects := AnswerPhoto(id, photo, now);
    }

    /** `proceed_group_chat_message`: scan the users in order for the first
        one whose requests hold the forwarded post. */
    method ProceedGroupChatMessage(m: Message) returns (effects: seq<Effect>)
      requires Valid()
      ensures effects == GroupReply(m, cfg, order, users)
    {
      effects := [];
      if m.sender in cfg.responsiblePersons && m.replyForwardId.Some? {
        var id := m.replyForwardId.value;
        var i := 0;
        while i < |order|
          invariant 0 <= i <= |order|
          invariant FindRequester(order, users, id) == FindRequester(order[i..], users, id)
        {
          var u := order[i];
          if id in users[u].requests {
            if m.text.None? {
              return [Raised(NoReplyText)];
            }
            return [ResponseForwarded(u, m.text.value)];
          }
          assert order[i..][1..] == order[i + 1..];
          i := i + 1;
        }
      }
    }

    /** `proceed_user_message`: group-chat replies are routed; other
        non-private chats are ignored; a private message is stripped, checked
        for the back and restart commands, and dispatched on the state. */
    method ProceedUserMessage(m: Message, now: int, postedId: int)
      returns (effects: seq<Effect>, saved: Option<map<UserId, UserContext>>)
      modifies this
      requires Valid()
      ensures Valid()
      ensures m.chat.id == cfg.chatGroupId ==>
        && effects == GroupReply(m, cfg, old(order), old(users))
        && Applied(m.chat.id, Outcome(old(ContextOf(m.chat.id)), false, []))
        && saved.None?
      ensures m.chat.id != cfg.chatGroupId && !m.chat.isPrivate ==>
        && effects == []
        && Applied(m.chat.id, Outcome(old(ContextOf(m.chat.id)), false, []))
        && saved.None?
      ensures m.chat.id != cfg.chatGroupId && m.chat.isPrivate ==>
        var o := Step(old(ContextOf(m.chat.id)), m.text, m.photo, cfg, now, postedId);
        && Applied(m.chat.id, o)
        && effects == o.effects
        && saved == (if Saves(effects) then Some(users) else None)
    {
      saved := None;
      if m.chat.id == cfg.chatGroupId {
        effects := ProceedGroupChatMessage(m);
        return;
      }
      if !m.chat.isPrivate {
        return [], None;
      }
      var id := m.chat.id;
      var state := ContextOf(id).state;
      var message := MessageOf(m.text);
      OnlySubmitPersists(ContextOf(id), message, m.photo, cfg, now, postedId);
      var back := IsGoBackMessage(message, cfg);
      if back {
        effects := GoBack(id, now);
        return;
      }
      var restart := IsGoRestartMessage(message, cfg);
      if restart {
        effects := GoRestart(id, now);
        return;
      }
      if state.None? {
        effects := UpdateDialogState(id, Start, now);
        return;
      }
      effects, saved := Dispatch(id, state.value, message, m.photo, now, postedId);
    }

    /** The /start command: ignored outside private chats; otherwise mark
        the first start, reset, greet, and enter 'start'. */
    method HandleStart(chat: Chat, now: int) returns (effects: seq<Effect>)
      modifies this
      requires Valid()
      ensures Valid()
      ensures !chat.isPrivate ==> effects == [] && Applied(chat.id, Outcome(old(ContextOf(chat.id)), false, []))
      ensures chat.isPrivate ==>
        var o := StartCommand(old(ContextOf(chat.id)), now);
        Applied(chat.id, o) && effects == o.effects
    {
      if !chat.isPrivate {
        return [];
      }
      ghost var c := ContextOf(chat.id);
      MarkBotStarted(chat.id, now);
      assert ContextOf(chat.id) == MarkStarted(c, now);
      var _ := ResetUserContext(chat.id, now);
      ghost var reset := ResetContext(MarkStarted(c, now), now).value;
      assert ContextOf(chat.id) == reset && chat.id in users;
      StoreTwice(old(users), chat.id, MarkStarted(c, now), reset);
      var prompt := UpdateDialogState(chat.id, Start, now);
      StoreTwice(old(users), chat.id, reset, PushState(reset, Start, now));
      effects := [Welcome] + prompt;
    }
  }
}
