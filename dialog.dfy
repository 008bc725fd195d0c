/** What one message does to one user's context in proceed_user_message,
    stated on values: the commands checked first (go back, restart), then a
    dispatch on the dialog state that validates the answer, records it and
    picks the next state, or falls back to the same state. */
module Dialog {
  import opened Text
  import opened Context
  import opened Report

  /** The configured lists the handlers consult (CONFIG['keyphrases'] and the
      group settings); loaded once and never changed. */
  datatype Config = Config(
    categories: seq<string>,
    streets: seq<string>,
    problemAreas: seq<string>,
    goBack: seq<string>,
    goRestart: seq<string>,
    goConfirm: seq<string>,
    chatGroupId: int,
    responsiblePersons: set<int>)

  /** What a handler asks the Telegram transport to do, in order. */
  datatype Effect =
    | Welcome                        // the 'welcome' text sent by /start
    | Prompt(state: State)           // the question of a state other than confirm
    | ConfirmPreview(request: Request) // the request without its last line, and its photo
    | FallbackNotice                 // the 'fallback' text before the question is asked again
    | RulesText
    | ContactsText
    | PostRequest(request: Request)  // the request and its photo, posted to the main group
    | SuccessNotice(messageId: int)  // the link to the posted request
    | FireHint                       // the extra hint after a fire report
    | Persisted                      // save_context wrote the snapshot
    | ResponseForwarded(user: UserId, reply: string) // a moderator's reply text, sent on to the request's author
    | Raised(crash: Crash)           // the handler stopped with an exception

  /** One handler run on one user's context: the new context, whether anything
      was written into the store, and the effects. */
  datatype Outcome = Outcome(ctx: UserContext, wrote: bool, effects: seq<Effect>)

  predicate Raises(effects: seq<Effect>) {
    effects != [] && Last(effects).Raised?
  }

  /** The message text: None when there is no text, otherwise `text.strip()`. */
  function MessageOf(text: Option<string>): Option<string> {
    if text.Some? && text.value != [] then Some(Strip(text.value)) else None
  }

  /** Some configured phrase occurs in the lower-cased message. */
  predicate Mentions(message: string, phrases: seq<string>) {
    exists i :: 0 <= i < |phrases| && Contains(Lower(message), phrases[i])
  }

  /** `is_go_back_message`. */
  predicate IsGoBack(m: Option<string>, cfg: Config) {
    m.Some? && m.value != [] && Mentions(m.value, cfg.goBack)
  }

  /** `is_go_restart_message`. */
  predicate IsGoRestart(m: Option<string>, cfg: Config) {
    m.Some? && m.value != [] && Mentions(m.value, cfg.goRestart)
  }

  /** The loop of the is_go_*_message helpers: scan the phrases in order and
      stop at the first one that occurs in the lower-cased message. */
  method MatchesKeyphrase(message: string, phrases: seq<string>) returns (found: bool)
    ensures found == Mentions(message, phrases)
  {
    var lowered := Lower(message);
    for i := 0 to |phrases|
      invariant forall j :: 0 <= j < i ==> !Contains(lowered, phrases[j])
    {
      if Contains(lowered, phrases[i]) {
        return true;
      }
    }
    return false;
  }

  method IsGoBackMessage(m: Option<string>, cfg: Config) returns (b: bool)
    ensures b == IsGoBack(m, cfg)
  {
    if m.None? || m.value == [] {
      return false;
    }
    b := MatchesKeyphrase(m.value, cfg.goBack);
  }

  method IsGoRestartMessage(m: Option<string>, cfg: Config) returns (b: bool)
    ensures b == IsGoRestart(m, cfg)
  {
    if m.None? || m.value == [] {
      return false;
    }
    b := MatchesKeyphrase(m.value, cfg.goRestart);
  }

  /** `is_go_confirm_message`; only ever called with some text. */
  method IsGoConfirmMessage(message: string, cfg: Config) returns (b: bool)
    ensures b == Mentions(message, cfg.goConfirm)
  {
    b := MatchesKeyphrase(message, cfg.goConfirm);
  }

  /** What update_dialog_state sends for state s, given the updated context:
      the question, or for 'confirm' the dry-run request (which can fail). */
  function PromptFor(c: UserContext, s: State): seq<Effect> {
    if s == Confirm then
      match AssembleRequest(c.answers)
      case Ok(r) => [ConfirmPreview(r)]
      case Err(e) => [Raised(e)]
    else [Prompt(s)]
  }

  /** update_dialog_state(s). */
  function Goto(c: UserContext, s: State, now: int): Outcome {
    var c1 := PushState(c, s, now);
    Outcome(c1, true, PromptFor(c1, s))
  }

  /** proceed_fallback(s): the fallback text, then the same state again. */
  function Fallback(c: UserContext, s: State, now: int): Outcome {
    var c1 := PushState(c, s, now);
    Outcome(c1, true, [FallbackNotice] + PromptFor(c1, s))
  }

  /** The number in an answer when it is all digits and within [lo, hi]. */
  function NumberAnswer(m: Option<string>, lo: int, hi: int): Option<int> {
    if m.None? || m.value == [] || !IsNumeric(m.value) then None
    else
      var n := ParseDigits(m.value);
      if n < lo || n > hi then None else Some(n)
  }

  /** The keys the number steps write. */
  datatype NumberKey = HouseKey | SectionKey | FloorKey | FlatKey | ParkingKey | StoreroomKey

  /** `update_user_context(key, n)` for a number key. */
  function SetNumber(a: Answers, k: NumberKey, n: int): Answers {
    match k
    case HouseKey => a.(house := Some(n))
    case SectionKey => a.(section := Some(n))
    case FloorKey => a.(floor := Some(n))
    case FlatKey => a.(flat := Some(n))
    case ParkingKey => a.(parking := Some(n))
    case StoreroomKey => a.(storeroom := Some(n))
  }

  /** The 'start' state: rules and contacts requests are answered in place;
      otherwise a category is chosen. A message without text raises. */
  function StepStart(c: UserContext, m: Option<string>, cfg: Config, now: int): Outcome {
    if m.None? then Outcome(c, false, [Raised(NoTextInStart)])
    else if Contains(Lower(m.value), "правила") then Outcome(c, false, [RulesText])
    else if Contains(Lower(m.value), "контакты") then Outcome(c, false, [ContactsText])
    else if m.value == [] || m.value !in cfg.categories then Fallback(c, Start, now)
    else Goto(c.(answers := c.answers.(category := Some(m.value))), SelectStreet, now)
  }

  /** The street step: the answer must be one of the configured streets. */
  function StepStreet(c: UserContext, m: Option<string>, cfg: Config, now: int): Outcome {
    if m.None? || m.value == [] || m.value !in cfg.streets then Fallback(c, SelectStreet, now)
    else Goto(c.(answers := c.answers.(street := Some(m.value))), SelectHouseNumber, now)
  }

  /** A number step whose next state is fixed. */
  function StepNumber(c: UserContext, m: Option<string>, s: State, lo: int, hi: int, k: NumberKey, next: State, now: int): Outcome {
    match NumberAnswer(m, lo, hi)
    case None => Fallback(c, s, now)
    case Some(n) => Goto(c.(answers := SetNumber(c.answers, k, n)), next, now)
  }

  /** A number step whose next state depends on whether the category is a
      fire report; reading a missing category raises after the number was
      stored. */
  function StepNumberByCategory(c: UserContext, m: Option<string>, s: State, lo: int, hi: int, k: NumberKey,
                                fireNext: State, otherNext: State, now: int): Outcome
  {
    match NumberAnswer(m, lo, hi)
    case None => Fallback(c, s, now)
    case Some(n) =>
      var c1 := c.(answers := SetNumber(c.answers, k, n));
      match c1.answers.category
      case None => Outcome(c1, true, [Raised(NoCategory)])
      case Some(category) => Goto(c1, if IsFire(category) then fireNext else otherNext, now)
  }

  /** The next state for a lower-cased problem area, by the first keyword it
      mentions; None when it mentions none of them. */
  function AreaRoute(area: string): Option<State> {
    if Contains(area, "этаж") then Some(SelectSectionNumber)
    else if Contains(area, "квартир") then Some(SelectSectionNumber)
    else if Contains(area, "парк") then Some(SelectParkingNumber)
    else if Contains(area, "кладовк") then Some(SelectStoreroomNumber)
    else if Contains(area, "двор") then Some(SpecifyDescription)
    else if Contains(area, "улиц") then Some(SpecifyDescription)
    else None
  }

  /** The problem-area step: the area is stored lower-cased; an area that
      mentions no keyword is stored and the state stays as it is. */
  function StepProblemArea(c: UserContext, m: Option<string>, cfg: Config, now: int): Outcome {
    if m.None? || m.value == [] || m.value !in cfg.problemAreas then Fallback(c, SelectProblemArea, now)
    else
      var area := Lower(m.value);
      var c1 := c.(answers := c.answers.(problemArea := Some(area)));
      match AreaRoute(area)
      case Some(next) => Goto(c1, next, now)
      case None => Outcome(c1, true, [])
  }

  const MaxDetailsLength := 500

  /** The description step: any text, cut to 500 characters. */
  function StepDescription(c: UserContext, m: Option<string>, now: int): Outcome {
    if m.None? || m.value == [] then Fallback(c, SpecifyDescription, now)
    else Goto(c.(answers := c.answers.(details := Some(Truncate(m.value, MaxDetailsLength)))), Confirm, now)
  }

  /** The photo step: a message with a photo records its largest size and
      returns to confirm. */
  function StepUploadPhoto(c: UserContext, photo: seq<PhotoSize>, now: int): Outcome {
    if photo == [] then Fallback(c, UploadPhoto, now)
    else Goto(c.(answers := c.answers.(photo := Some(Last(photo)))), Confirm, now)
  }

  /** Submitting: post the request, append its message id to the requests
      history with the time, tell the user, reset the context, save. */
  function Submit(c: UserContext, now: int, postedId: int): Outcome {
    match AssembleRequest(c.answers)
    case Err(e) => Outcome(c, false, [Raised(e)])
    case Ok(r) =>
      var c1 := RecordRequest(c, postedId, now);
      var sent := [PostRequest(r), SuccessNotice(postedId)] + (if IsFire(r.category) then [FireHint] else []);
      match ResetContext(c1, now)
      case Err(e) => Outcome(c1, true, sent + [Raised(e)])
      case Ok(c2) => Outcome(c2, true, sent + [Persisted])
  }

  /** The confirm step: 'фото' asks for a photo, 'опис' for a description, a
      confirm phrase submits; any other text does nothing. */
  function StepConfirm(c: UserContext, m: Option<string>, cfg: Config, now: int, postedId: int): Outcome {
    if m.None? || m.value == [] then Fallback(c, Confirm, now)
    else if Contains(Lower(m.value), "фото") then Goto(c, UploadPhoto, now)
    else if Contains(Lower(m.value), "опис") then Goto(c, SpecifyDescription, now)
    else if Mentions(m.value, cfg.goConfirm) then Submit(c, now, postedId)
    else Outcome(c, false, [])
  }

  /** go_back: with no history go to 'start'; otherwise pop the last state
      (in place, so update_dialog_state sees the popped list), enter it, and
      store the popped copy (dropping what update_dialog_state pushed). */
  function GoBack(c: UserContext, now: int): Outcome {
    if c.history == [] then Goto(c, Start, now)
    else
      var previous := Last(c.history);
      var popped := c.history[..|c.history| - 1];
      var c1 := PushState(c.(history := popped), previous, now);
      var sent := PromptFor(c1, previous);
      if Raises(sent) then Outcome(c1, true, sent)
      else Outcome(c1.(history := popped), true, sent)
  }

  /** go_restart: enter 'start', then reset the context (which raises when
      bot_started was never set). */
  function GoRestart(c: UserContext, now: int): Outcome {
    var g := Goto(c, Start, now);
    match ResetContext(g.ctx, now)
    case Ok(c2) => Outcome(c2, true, g.effects)
    case Err(e) => Outcome(g.ctx, true, g.effects + [Raised(e)])
  }

  /** The dispatch on the current state. */
  function StepAt(s: State, c: UserContext, m: Option<string>, photo: seq<PhotoSize>, cfg: Config, now: int, postedId: int): Outcome {
    match s
    case Start => StepStart(c, m, cfg, now)
    case SelectStreet => StepStreet(c, m, cfg, now)
    case SelectHouseNumber =>
      StepNumberByCategory(c, m, SelectHouseNumber, 1, 50, HouseKey, SelectSectionNumber, SelectProblemArea, now)
    case SelectProblemArea => StepProblemArea(c, m, cfg, now)
    case SelectSectionNumber =>
      StepNumberByCategory(c, m, SelectSectionNumber, 1, 9, SectionKey, Confirm, SelectFloorNumber, now)
    case SelectFloorNumber => StepNumber(c, m, SelectFloorNumber, -1, 30, FloorKey, SelectFlatNumber, now)
    case SelectFlatNumber => StepNumber(c, m, SelectFlatNumber, 1, 700, FlatKey, Confirm, now)
    case SelectParkingNumber => StepNumber(c, m, SelectParkingNumber, 1, 500, ParkingKey, Confirm, now)
    case SelectStoreroomNumber => StepNumber(c, m, SelectStoreroomNumber, 1, 500, StoreroomKey, Confirm, now)
    case SpecifyDescription => StepDescription(c, m, now)
    case Confirm => StepConfirm(c, m, cfg, now, postedId)
    case UploadPhoto => StepUploadPhoto(c, photo, now)
  }

  /** proceed_user_message for a private chat, on the stripped message: back
      before restart, both before a missing state, which goes to 'start'. */
  function Proceed(c: UserContext, m: Option<string>, photo: seq<PhotoSize>, cfg: Config, now: int, postedId: int): Outcome {
    if IsGoBack(m, cfg) then GoBack(c, now)
    else if IsGoRestart(m, cfg) then GoRestart(c, now)
    else match c.state
      case None => Goto(c, Start, now)
      case Some(s) => StepAt(s, c, m, photo, cfg, now, postedId)
  }

  /** proceed_user_message for a private chat, on the message text. */
  function Step(c: UserContext, text: Option<string>, photo: seq<PhotoSize>, cfg: Config, now: int, postedId: int): Outcome {
    Proceed(c, MessageOf(text), photo, cfg, now, postedId)
  }

  /** The /start command: set bot_started once, reset, greet, enter 'start'. */
  function StartCommand(c: UserContext, now: int): (o: Outcome)
    ensures !Raises(o.effects)
  {
    var c1 := MarkStarted(c, now);
    var c2 := ResetContext(c1, now).value;
    var c3 := PushState(c2, Start, now);
    Outcome(c3, true, [Welcome] + PromptFor(c3, Start))
  }
}
