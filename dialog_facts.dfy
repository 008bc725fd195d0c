/** What one message does to one user's context, stated against independent
    tables: the answers each state accepts, what is recorded for them, where
    an accepted answer leads, and what the back, restart and confirm commands
    keep; and the invariants every message preserves. */
module DialogFacts {
  import opened Text
  import opened Context
  import opened Report
  import opened Dialog

  /** An all-digits answer whose value lies in [lo, hi]. */
  predicate InRange(m: Option<string>, lo: int, hi: int) {
    m.Some? && IsNumeric(m.value) && lo <= ParseDigits(m.value) <= hi
  }

  /** The answers each state accepts. The floor handler's range is -1..30,
      but an all-digits answer is never negative, so 0..30 is what it takes. */
  predicate Accepts(s: State, m: Option<string>, photo: seq<PhotoSize>, cfg: Config) {
    match s
    case Start => m.Some? && m.value != [] && m.value in cfg.categories
    case SelectStreet => m.Some? && m.value != [] && m.value in cfg.streets
    case SelectHouseNumber => InRange(m, 1, 50)
    case SelectProblemArea => m.Some? && m.value != [] && m.value in cfg.problemAreas
    case SelectSectionNumber => InRange(m, 1, 9)
    case SelectFloorNumber => InRange(m, 0, 30)
    case SelectFlatNumber => InRange(m, 1, 700)
    case SelectParkingNumber => InRange(m, 1, 500)
    case SelectStoreroomNumber => InRange(m, 1, 500)
    case SpecifyDescription => m.Some? && m.value != []
    case Confirm => m.Some? && m.value != []
    case UploadPhoto => photo != []
  }

  /** The floor step can never record -1: "-1" is not all digits. */
  lemma {:induction false} FloorNeverNegative(m: Option<string>)
    ensures NumberAnswer(Some("-1"), -1, 30).None?
    ensures NumberAnswer(m, -1, 30) == NumberAnswer(m, 0, 30)
  {
    assert !IsNumeric("-1") by { assert "-1"[0] == '-'; }
  }

  /** A number step takes exactly the all-digits answers in its range. */
  lemma {:induction false} NumberAnswerInRange(m: Option<string>, lo: int, hi: int)
    ensures NumberAnswer(m, lo, hi).Some? <==> InRange(m, lo, hi)
    ensures InRange(m, lo, hi) ==> NumberAnswer(m, lo, hi) == Some(ParseDigits(m.value))
  {
  }

  /** The answers once an accepted answer in state s is recorded. */
  function Recorded(s: State, a: Answers, m: Option<string>, photo: seq<PhotoSize>, cfg: Config): Answers
    requires s != Confirm && Accepts(s, m, photo, cfg)
  {
    match s
    case Start => a.(category := Some(m.value))
    case SelectStreet => a.(street := Some(m.value))
    case SelectHouseNumber => a.(house := Some(ParseDigits(m.value)))
    case SelectProblemArea => a.(problemArea := Some(Lower(m.value)))
    case SelectSectionNumber => a.(section := Some(ParseDigits(m.value)))
    case SelectFloorNumber => a.(floor := Some(ParseDigits(m.value)))
    case SelectFlatNumber => a.(flat := Some(ParseDigits(m.value)))
    case SelectParkingNumber => a.(parking := Some(ParseDigits(m.value)))
    case SelectStoreroomNumber => a.(storeroom := Some(ParseDigits(m.value)))
    case SpecifyDescription => a.(details := Some(Truncate(m.value, MaxDetailsLength)))
    case UploadPhoto => a.(photo := Some(Last(photo)))
  }

  /** The category recorded so far is a fire report. */
  predicate FireCategory(a: Answers) {
    a.category.Some? && IsFire(a.category.value)
  }

  /** The branching table: where an accepted answer in state s leads, judged
      on the answers recorded once it is stored. A problem area that mentions
      no known keyword leads nowhere. */
  function NextState(s: State, a: Answers): Option<State>
    requires s != Confirm
  {
    match s
    case Start => Some(SelectStreet)
    case SelectStreet => Some(SelectHouseNumber)
    case SelectHouseNumber => Some(if FireCategory(a) then SelectSectionNumber else SelectProblemArea)
    case SelectProblemArea =>
      if a.problemArea.None? then None
      else
        var area := a.problemArea.value;
        if Contains(area, "этаж") || Contains(area, "квартир") then Some(SelectSectionNumber)
        else if Contains(area, "парк") then Some(SelectParkingNumber)
        else if Contains(area, "кладовк") then Some(SelectStoreroomNumber)
        else if Contains(area, "двор") || Contains(area, "улиц") then Some(SpecifyDescription)
        else None
    case SelectSectionNumber => Some(if FireCategory(a) then Confirm else SelectFloorNumber)
    case SelectFloorNumber => Some(SelectFlatNumber)
    case _ => Some(Confirm)
  }

  /** The history after update_dialog_state leaves state s for another one. */
  function Pushed(h: seq<State>, s: State): seq<State> {
    if h == [] || Last(h) != s then h + [s] else h
  }

  /** Neither a back nor a restart message, and the state is s. */
  predicate PlainAnswerAt(c: UserContext, s: State, m: Option<string>, cfg: Config) {
    !IsGoBack(m, cfg) && !IsGoRestart(m, cfg) && c.state == Some(s)
  }

  /** A message the current state does not accept (and that is no command)
      changes nothing but the state's timestamp: the fallback text is sent
      and the same question is asked again. */
  lemma {:induction false} RejectedAnswerFallsBack(c: UserContext, m: Option<string>, photo: seq<PhotoSize>, cfg: Config, now: int, postedId: int)
    requires c.state.Some? && PlainAnswerAt(c, c.state.value, m, cfg)
    requires !Accepts(c.state.value, m, photo, cfg)
    requires c.state.value == Start ==> m.Some? && !Contains(Lower(m.value), "правила") && !Contains(Lower(m.value), "контакты")
    ensures var o := Proceed(c, m, photo, cfg, now, postedId);
      && o.wrote
      && o.ctx == c.(stateUpdated := Some(now))
      && o.effects == [FallbackNotice] + PromptFor(c, c.state.value)
  {
    var s := c.state.value;
    SameStateOnlyRefreshesTime(c, s, now);
    match s
    case SelectHouseNumber => NumberAnswerInRange(m, 1, 50);
    case SelectSectionNumber => NumberAnswerInRange(m, 1, 9);
    case SelectFloorNumber => FloorNeverNegative(m); NumberAnswerInRange(m, 0, 30);
    case SelectFlatNumber => NumberAnswerInRange(m, 1, 700);
    case SelectParkingNumber => NumberAnswerInRange(m, 1, 500);
    case SelectStoreroomNumber => NumberAnswerInRange(m, 1, 500);
    case _ =>
  }

  /** What an accepted answer does, as the tables above say: the answer is
      recorded and no other answer, bot_started, request id or request time
      changes, and the dialog moves on as the branching table says, pushing
      the state it leaves; an area that leads nowhere keeps the state and
      sends nothing. */
  predicate FollowsTable(c: UserContext, s: State, m: Option<string>, photo: seq<PhotoSize>, cfg: Config, now: int, o: Outcome)
    requires s != Confirm && Accepts(s, m, photo, cfg)
  {
    && o.wrote
    && o.ctx.answers == Recorded(s, c.answers, m, photo, cfg)
    && o.ctx.botStarted == c.botStarted
    && o.ctx.requests == c.requests
    && o.ctx.lastRequest == c.lastRequest
    && match NextState(s, o.ctx.answers)
       case Some(next) =>
         && o.ctx.state == Some(next)
         && o.ctx.stateUpdated == Some(now)
         && o.ctx.history == Pushed(c.history, s)
         && o.effects == PromptFor(o.ctx, next)
       case None =>
         && o.ctx.state == Some(s)
         && o.ctx.stateUpdated == c.stateUpdated
         && o.ctx.history == c.history
         && o.effects == []
  }

  /** The recorded problem area routes as the branching table says. */
  lemma {:induction false} AreaRouteFollowsTable(a: Answers, area: string)
    requires a.problemArea == Some(area)
    ensures NextState(SelectProblemArea, a) == AreaRoute(area)
  {
  }

  /** A chosen category is recorded and the street is asked for. */
  lemma {:induction false} AcceptedCategory(c: UserContext, m: Option<string>, photo: seq<PhotoSize>, cfg: Config, now: int, postedId: int)
    requires c.state == Some(Start) && Accepts(Start, m, photo, cfg)
    requires !Contains(Lower(m.value), "правила") && !Contains(Lower(m.value), "контакты")
    ensures FollowsTable(c, Start, m, photo, cfg, now, StepAt(Start, c, m, photo, cfg, now, postedId))
  {
  }

  /** A chosen street is recorded and the house number is asked for. */
  lemma {:induction false} AcceptedStreet(c: UserContext, m: Option<string>, photo: seq<PhotoSize>, cfg: Config, now: int, postedId: int)
    requires c.state == Some(SelectStreet) && Accepts(SelectStreet, m, photo, cfg)
    ensures FollowsTable(c, SelectStreet, m, photo, cfg, now, StepAt(SelectStreet, c, m, photo, cfg, now, postedId))
  {
  }

  /** A house number is recorded; a fire report then asks for the section, any other for the problem area. */
  lemma {:induction false} AcceptedHouse(c: UserContext, m: Option<string>, photo: seq<PhotoSize>, cfg: Config, now: int, postedId: int)
    requires c.state == Some(SelectHouseNumber) && Accepts(SelectHouseNumber, m, photo, cfg)
    requires c.answers.category.Some?
    ensures FollowsTable(c, SelectHouseNumber, m, photo, cfg, now, StepAt(SelectHouseNumber, c, m, photo, cfg, now, postedId))
  {
    NumberAnswerInRange(m, 1, 50);
  }

  /** An accepted problem area is stored lower-cased and routed by its keywords. */
  lemma {:induction false} AcceptedProblemArea(c: UserContext, m: Option<string>, photo: seq<PhotoSize>, cfg: Config, now: int, postedId: int)
    requires c.state == Some(SelectProblemArea) && Accepts(SelectProblemArea, m, photo, cfg)
    ensures FollowsTable(c, SelectProblemArea, m, photo, cfg, now, StepAt(SelectProblemArea, c, m, photo, cfg, now, postedId))
  {
    AreaRouteFollowsTable(c.answers.(problemArea := Some(Lower(m.value))), Lower(m.value));
  }

  /** A section number is recorded; a fire report then goes to confirmation, any other asks for the floor. */
  lemma {:induction false} AcceptedSection(c: UserContext, m: Option<string>, photo: seq<PhotoSize>, cfg: Config, now: int, postedId: int)
    requires c.state == Some(SelectSectionNumber) && Accepts(SelectSectionNumber, m, photo, cfg)
    requires c.answers.category.Some?
    ensures FollowsTable(c, SelectSectionNumber, m, photo, cfg, now, StepAt(SelectSectionNumber, c, m, photo, cfg, now, postedId))
  {
    NumberAnswerInRange(m, 1, 9);
  }

  /** A floor number is recorded and the flat number is asked for. */
  lemma {:induction false} AcceptedFloor(c: UserContext, m: Option<string>, photo: seq<PhotoSize>, cfg: Config, now: int, postedId: int)
    requires c.state == Some(SelectFloorNumber) && Accepts(SelectFloorNumber, m, photo, cfg)
    ensures FollowsTable(c, SelectFloorNumber, m, photo, cfg, now, StepAt(SelectFloorNumber, c, m, photo, cfg, now, postedId))
  {
    FloorNeverNegative(m);
    NumberAnswerInRange(m, 0, 30);
  }

  /** A flat number is recorded and the request is shown for confirmation. */
  lemma {:induction false} AcceptedFlat(c: UserContext, m: Option<string>, photo: seq<PhotoSize>, cfg: Config, now: int, postedId: int)
    requires c.state == Some(SelectFlatNumber) && Accepts(SelectFlatNumber, m, photo, cfg)
    ensures FollowsTable(c, SelectFlatNumber, m, photo, cfg, now, StepAt(SelectFlatNumber, c, m, photo, cfg, now, postedId))
  {
    NumberAnswerInRange(m, 1, 700);
  }

  /** A parking place is recorded and the request is shown for confirmation. */
  lemma {:induction false} AcceptedParking(c: UserContext, m: Option<string>, photo: seq<PhotoSize>, cfg: Config, now: int, postedId: int)
    requires c.state == Some(SelectParkingNumber) && Accepts(SelectParkingNumber, m, photo, cfg)
    ensures FollowsTable(c, SelectParkingNumber, m, photo, cfg, now, StepAt(SelectParkingNumber, c, m, photo, cfg, now, postedId))
  {
    NumberAnswerInRange(m, 1, 500);
  }

  /** A storeroom number is recorded and the request is shown for confirmation. */
  lemma {:induction false} AcceptedStoreroom(c: UserContext, m: Option<string>, photo: seq<PhotoSize>, cfg: Config, now: int, postedId: int)
    requires c.state == Some(SelectStoreroomNumber) && Accepts(SelectStoreroomNumber, m, photo, cfg)
    ensures FollowsTable(c, SelectStoreroomNumber, m, photo, cfg, now, StepAt(SelectStoreroomNumber, c, m, photo, cfg, now, postedId))
  {
    NumberAnswerInRange(m, 1, 500);
  }

  /** A description is recorded, cut to 500 characters, and the request is shown for confirmation. */
  lemma {:induction false} AcceptedDescription(c: UserContext, m: Option<string>, photo: seq<PhotoSize>, cfg: Config, now: int, postedId: int)
    requires c.state == Some(SpecifyDescription) && Accepts(SpecifyDescription, m, photo, cfg)
    ensures FollowsTable(c, SpecifyDescription, m, photo, cfg, now, StepAt(SpecifyDescription, c, m, photo, cfg, now, postedId))
  {
  }

  /** A photo is recorded (its largest size) and the request is shown for confirmation again. */
  lemma {:induction false} AcceptedPhoto(c: UserContext, m: Option<string>, photo: seq<PhotoSize>, cfg: Config, now: int, postedId: int)
    requires c.state == Some(UploadPhoto) && Accepts(UploadPhoto, m, photo, cfg)
    ensures FollowsTable(c, UploadPhoto, m, photo, cfg, now, StepAt(UploadPhoto, c, m, photo, cfg, now, postedId))
  {
  }

  /** An accepted answer in a state other than 'confirm' follows the tables
      (in 'start' unless it asks for the rules or the contacts; in the
      house and section steps once a category was recorded). */
  lemma {:induction false} AcceptedAnswerFollowsTable(c: UserContext, m: Option<string>, photo: seq<PhotoSize>, cfg: Config, now: int, postedId: int)
    requires c.state.Some? && PlainAnswerAt(c, c.state.value, m, cfg)
    requires c.state.value != Confirm && Accepts(c.state.value, m, photo, cfg)
    requires c.state.value == Start ==> !Contains(Lower(m.value), "правила") && !Contains(Lower(m.value), "контакты")
    requires c.state.value in {SelectHouseNumber, SelectSectionNumber} ==> c.answers.category.Some?
    ensures FollowsTable(c, c.state.value, m, photo, cfg, now, Proceed(c, m, photo, cfg, now, postedId))
  {
    var s := c.state.value;
    assert Proceed(c, m, photo, cfg, now, postedId) == StepAt(s, c, m, photo, cfg, now, postedId);
    match s
    case Start => AcceptedCategory(c, m, photo, cfg, now, postedId);
    case SelectStreet => AcceptedStreet(c, m, photo, cfg, now, postedId);
    case SelectHouseNumber => AcceptedHouse(c, m, photo, cfg, now, postedId);
    case SelectProblemArea => AcceptedProblemArea(c, m, photo, cfg, now, postedId);
    case SelectSectionNumber => AcceptedSection(c, m, photo, cfg, now, postedId);
    case SelectFloorNumber => AcceptedFloor(c, m, photo, cfg, now, postedId);
    case SelectFlatNumber => AcceptedFlat(c, m, photo, cfg, now, postedId);
    case SelectParkingNumber => AcceptedParking(c, m, photo, cfg, now, postedId);
    case SelectStoreroomNumber => AcceptedStoreroom(c, m, photo, cfg, now, postedId);
    case SpecifyDescription => AcceptedDescription(c, m, photo, cfg, now, postedId);
    case UploadPhoto => AcceptedPhoto(c, m, photo, cfg, now, postedId);
  }

  /** In the house and section steps an accepted number without a recorded
      category is stored and then the handler raises. */
  lemma {:induction false} MissingCategoryRaises(c: UserContext, m: Option<string>, photo: seq<PhotoSize>, cfg: Config, now: int, postedId: int)
    requires c.state.Some? && PlainAnswerAt(c, c.state.value, m, cfg)
    requires c.state.value in {SelectHouseNumber, SelectSectionNumber}
    requires Accepts(c.state.value, m, photo, cfg) && c.answers.category.None?
    ensures var o := Proceed(c, m, photo, cfg, now, postedId);
      && o.wrote
      && o.ctx == c.(answers := Recorded(c.state.value, c.answers, m, photo, cfg))
      && o.effects == [Raised(NoCategory)]
  {
    if c.state.value == SelectHouseNumber {
      NumberAnswerInRange(m, 1, 50);
    } else {
      NumberAnswerInRange(m, 1, 9);
    }
  }

  /** The answers, bot_started, the request ids and the request time of c
      are all still in d. */
  predicate KeepsRecords(c: UserContext, d: UserContext) {
    && d.answers == c.answers
    && d.botStarted == c.botStarted
    && d.requests == c.requests
    && d.lastRequest == c.lastRequest
  }

  /** A back message is handled before anything else: it never records an
      answer; with a history it returns to the history's last state and
      leaves the rest of the history (only the preview of 'confirm' can
      fail, and then the popped state was pushed again); with an empty
      history it enters 'start'. */
  lemma {:induction false} GoBackComesFirst(c: UserContext, m: Option<string>, photo: seq<PhotoSize>, cfg: Config, now: int, postedId: int)
    requires IsGoBack(m, cfg)
    ensures var h := c.history;
      var o := Proceed(c, m, photo, cfg, now, postedId);
      && o.wrote
      && KeepsRecords(c, o.ctx)
      && o.ctx.state == Some(if h == [] then Start else Last(h))
      && o.ctx.stateUpdated == Some(now)
      && o.effects == PromptFor(o.ctx, o.ctx.state.value)
      && (h != [] && !Raises(o.effects) ==> o.ctx.history == h[..|h| - 1])
      && (h != [] && Last(h) != Confirm ==> !Raises(o.effects))
      && (h == [] ==> o.ctx.history == (if c.state.Some? && c.state.value != Start then [c.state.value] else []))
  {
  }

  /** A user with no dialog state yet (and no back or restart phrase) is
      put in 'start': nothing is pushed, only the state and its time are
      written, and the first question is sent. */
  lemma MissingStateEntersStart(c: UserContext, m: Option<string>, photo: seq<PhotoSize>, cfg: Config, now: int, postedId: int)
    requires !IsGoBack(m, cfg) && !IsGoRestart(m, cfg) && c.state.None?
    ensures var o := Proceed(c, m, photo, cfg, now, postedId);
      && o.wrote
      && o.ctx == c.(state := Some(Start), stateUpdated := Some(now))
      && o.effects == [Prompt(Start)]
  {
  }

  /** In 'start', a message without text raises, and a message mentioning
      the rules or the contacts is answered with that text and changes
      nothing; the rules are checked first. */
  lemma StartAnswersInPlace(c: UserContext, m: Option<string>, photo: seq<PhotoSize>, cfg: Config, now: int, postedId: int)
    requires !IsGoBack(m, cfg) && !IsGoRestart(m, cfg) && c.state == Some(Start)
    ensures var o := Proceed(c, m, photo, cfg, now, postedId);
      && (m.None? ==> o == Outcome(c, false, [Raised(NoTextInStart)]))
      && (m.Some? && Contains(Lower(m.value), "правила") ==> o == Outcome(c, false, [RulesText]))
      && (m.Some? && !Contains(Lower(m.value), "правила") && Contains(Lower(m.value), "контакты") ==>
            o == Outcome(c, false, [ContactsText]))
  {
  }

  /** Restarting (when the message is not also a back message) enters
      'start' and resets: only bot_started, the request ids and the time of
      the last request survive. Without bot_started the reset raises after
      'start' was entered, and the answers stay. */
  lemma {:induction false} RestartResets(c: UserContext, m: Option<string>, photo: seq<PhotoSize>, cfg: Config, now: int, postedId: int)
    requires !IsGoBack(m, cfg) && IsGoRestart(m, cfg)
    ensures var o := Proceed(c, m, photo, cfg, now, postedId);
      && o.wrote
      && o.ctx.state == Some(Start)
      && o.ctx.stateUpdated == Some(now)
      && o.ctx.requests == c.requests
      && o.ctx.lastRequest == c.lastRequest
      && o.ctx.botStarted == c.botStarted
      && (c.botStarted.Some? ==>
            && o.ctx.answers == NoAnswers
            && o.ctx.history == []
            && o.effects == [Prompt(Start)])
      && (c.botStarted.None? ==>
            && KeepsRecords(c, o.ctx)
            && o.effects == [Prompt(Start), Raised(NoBotStarted)])
  {
  }

  /** The confirm step checks, in order: 'фото', 'опис', a confirm phrase;
      other text does nothing at all. */
  lemma {:induction false} ConfirmDispatchOrder(c: UserContext, m: Option<string>, photo: seq<PhotoSize>, cfg: Config, now: int, postedId: int)
    requires PlainAnswerAt(c, Confirm, m, cfg) && m.Some? && m.value != []
    ensures var low := Lower(m.value);
      var o := Proceed(c, m, photo, cfg, now, postedId);
      && (Contains(low, "фото") ==>
            o.ctx.state == Some(UploadPhoto) && KeepsRecords(c, o.ctx) && o.effects == [Prompt(UploadPhoto)])
      && (!Contains(low, "фото") && Contains(low, "опис") ==>
            o.ctx.state == Some(SpecifyDescription) && KeepsRecords(c, o.ctx) && o.effects == [Prompt(SpecifyDescription)])
      && (!Contains(low, "фото") && !Contains(low, "опис") && Mentions(m.value, cfg.goConfirm) ==>
            o == Submit(c, now, postedId))
      && (!Contains(low, "фото") && !Contains(low, "опис") && !Mentions(m.value, cfg.goConfirm) ==>
            o == Outcome(c, false, []))
  {
  }

  /** Without category or street a submission posts nothing and changes
      nothing. */
  lemma {:induction false} SubmitNeedsCategoryAndStreet(c: UserContext, now: int, postedId: int)
    requires c.answers.category.None? || c.answers.street.None?
    ensures Submit(c, now, postedId) ==
      Outcome(c, false, [Raised(if c.answers.category.None? then NoCategory else NoStreet)])
  {
  }

  /** Submitting posts the assembled request and the link to it, with the
      fire hint exactly for a fire report, and appends the posted message id
      to the requests history. With bot_started set it then resets the
      context and saves; without it the reset raises and every answer, the
      state and the history stay. */
  lemma {:induction false} SubmitRecordsRequest(c: UserContext, now: int, postedId: int)
    requires c.answers.category.Some? && c.answers.street.Some?
    ensures var r := AssembleRequest(c.answers).value;
      var o := Submit(c, now, postedId);
      var sent := [PostRequest(r), SuccessNotice(postedId)] + (if IsFire(r.category) then [FireHint] else []);
      && o.wrote
      && o.ctx.requests == c.requests + [postedId]
      && o.ctx.lastRequest == Some(now)
      && o.ctx.botStarted == c.botStarted
      && (c.botStarted.Some? ==>
            && o.effects == sent + [Persisted]
            && o.ctx.answers == NoAnswers
            && o.ctx.state == Some(Start)
            && o.ctx.history == [])
      && (c.botStarted.None? ==>
            && o.effects == sent + [Raised(NoBotStarted)]
            && o.ctx.answers == c.answers
            && o.ctx.state == c.state
            && o.ctx.history == c.history)
  {
  }

  /** What every handler keeps: bot_started never changes; the request ids
      stay or gain the posted id at the end; a handler that writes nothing
      leaves the context as it was; and a well-formed history stays well
      formed. */
  predicate Sound(c: UserContext, o: Outcome, postedId: int) {
    && o.ctx.botStarted == c.botStarted
    && (o.ctx.requests == c.requests || o.ctx.requests == c.requests + [postedId])
    && (!o.wrote ==> o.ctx == c)
    && (HistoryWellFormed(c) ==> HistoryWellFormed(o.ctx))
  }

  /** Entering a state (or falling back to it) after recording answers. */
  lemma {:induction false} GotoSound(c: UserContext, a: Answers, s: State, now: int, postedId: int)
    ensures Sound(c, Goto(c.(answers := a), s, now), postedId)
    ensures Sound(c, Fallback(c.(answers := a), s, now), postedId)
  {
    if HistoryWellFormed(c) {
      PushStateKeepsHistoryWellFormed(c.(answers := a), s, now);
    }
  }

  lemma {:induction false} StepStartSound(c: UserContext, m: Option<string>, cfg: Config, now: int, postedId: int)
    ensures Sound(c, StepStart(c, m, cfg, now), postedId)
  {
    GotoSound(c, c.answers, Start, now, postedId);
    if m.Some? {
      GotoSound(c, c.answers.(category := Some(m.value)), SelectStreet, now, postedId);
    }
  }

  lemma {:induction false} StepStreetSound(c: UserContext, m: Option<string>, cfg: Config, now: int, postedId: int)
    ensures Sound(c, StepStreet(c, m, cfg, now), postedId)
  {
    GotoSound(c, c.answers, SelectStreet, now, postedId);
    if m.Some? {
      GotoSound(c, c.answers.(street := Some(m.value)), SelectHouseNumber, now, postedId);
    }
  }

  lemma {:induction false} StepNumberSound(c: UserContext, m: Option<string>, s: State, lo: int, hi: int, k: NumberKey, next: State, now: int, postedId: int)
    ensures Sound(c, StepNumber(c, m, s, lo, hi, k, next, now), postedId)
  {
    GotoSound(c, c.answers, s, now, postedId);
    if NumberAnswer(m, lo, hi).Some? {
      GotoSound(c, SetNumber(c.answers, k, NumberAnswer(m, lo, hi).value), next, now, postedId);
    }
  }

  lemma {:induction false} StepNumberByCategorySound(c: UserContext, m: Option<string>, s: State, lo: int, hi: int, k: NumberKey,
                                                     fireNext: State, otherNext: State, now: int, postedId: int)
    ensures Sound(c, StepNumberByCategory(c, m, s, lo, hi, k, fireNext, otherNext, now), postedId)
  {
    GotoSound(c, c.answers, s, now, postedId);
    if NumberAnswer(m, lo, hi).Some? {
      var a := SetNumber(c.answers, k, NumberAnswer(m, lo, hi).value);
      GotoSound(c, a, fireNext, now, postedId);
      GotoSound(c, a, otherNext, now, postedId);
    }
  }

  lemma {:induction false} StepProblemAreaSound(c: UserContext, m: Option<string>, cfg: Config, now: int, postedId: int)
    ensures Sound(c, StepProblemArea(c, m, cfg, now), postedId)
  {
    GotoSound(c, c.answers, SelectProblemArea, now, postedId);
    if m.Some? {
      var a := c.answers.(problemArea := Some(Lower(m.value)));
      if AreaRoute(Lower(m.value)).Some? {
        GotoSound(c, a, AreaRoute(Lower(m.value)).value, now, postedId);
      }
    }
  }

  lemma {:induction false} StepDescriptionSound(c: UserContext, m: Option<string>, now: int, postedId: int)
    ensures Sound(c, StepDescription(c, m, now), postedId)
  {
    GotoSound(c, c.answers, SpecifyDescription, now, postedId);
    if m.Some? {
      GotoSound(c, c.answers.(details := Some(Truncate(m.value, MaxDetailsLength))), Confirm, now, postedId);
    }
  }

  lemma {:induction false} StepUploadPhotoSound(c: UserContext, photo: seq<PhotoSize>, now: int, postedId: int)
    ensures Sound(c, StepUploadPhoto(c, photo, now), postedId)
  {
    GotoSound(c, c.answers, UploadPhoto, now, postedId);
    if photo != [] {
      GotoSound(c, c.answers.(photo := Some(Last(photo))), Confirm, now, postedId);
    }
  }

  lemma {:induction false} SubmitSound(c: UserContext, now: int, postedId: int)
    ensures Sound(c, Submit(c, now, postedId), postedId)
  {
  }

  lemma {:induction false} StepConfirmSound(c: UserContext, m: Option<string>, cfg: Config, now: int, postedId: int)
    ensures Sound(c, StepConfirm(c, m, cfg, now, postedId), postedId)
  {
    GotoSound(c, c.answers, Confirm, now, postedId);
    GotoSound(c, c.answers, UploadPhoto, now, postedId);
    GotoSound(c, c.answers, SpecifyDescription, now, postedId);
    SubmitSound(c, now, postedId);
  }

  /** go_back keeps the history well formed: the popped history has no
      repeats and its last entry differs from the state re-entered. */
  lemma {:induction false} GoBackSound(c: UserContext, now: int, postedId: int)
    ensures Sound(c, GoBack(c, now), postedId)
  {
    var h := c.history;
    if h == [] {
      GotoSound(c, c.answers, Start, now, postedId);
    } else if HistoryWellFormed(c) {
      var popped := h[..|h| - 1];
      assert NoRepeats(popped) by {
        forall i | 0 <= i < |popped| - 1 ensures popped[i] != popped[i + 1] {
          assert popped[i] == h[i] && popped[i + 1] == h[i + 1];
        }
      }
      assert popped != [] ==> Last(popped) != Last(h) by {
        if popped != [] {
          assert Last(popped) == h[|h| - 2];
        }
      }
      PushStateOntoHistory(c.(history := popped), Last(h), now);
    }
  }

  lemma {:induction false} GoRestartSound(c: UserContext, now: int, postedId: int)
    ensures Sound(c, GoRestart(c, now), postedId)
  {
    GotoSound(c, c.answers, Start, now, postedId);
  }

  /** Every private message keeps bot_started, the request ids (which only
      grow by the posted id), the context when nothing is written, and a
      well-formed history. */
  lemma {:induction false} ProceedSound(c: UserContext, m: Option<string>, photo: seq<PhotoSize>, cfg: Config, now: int, postedId: int)
    ensures Sound(c, Proceed(c, m, photo, cfg, now, postedId), postedId)
  {
    if IsGoBack(m, cfg) {
      GoBackSound(c, now, postedId);
    } else if IsGoRestart(m, cfg) {
      GoRestartSound(c, now, postedId);
    } else if c.state.None? {
      GotoSound(c, c.answers, Start, now, postedId);
    } else {
      var s := c.state.value;
      assert Proceed(c, m, photo, cfg, now, postedId) == StepAt(s, c, m, photo, cfg, now, postedId);
      match s
      case Start => StepStartSound(c, m, cfg, now, postedId);
      case SelectStreet => StepStreetSound(c, m, cfg, now, postedId);
      case SelectHouseNumber =>
        StepNumberByCategorySound(c, m, SelectHouseNumber, 1, 50, HouseKey, SelectSectionNumber, SelectProblemArea, now, postedId);
      case SelectProblemArea => StepProblemAreaSound(c, m, cfg, now, postedId);
      case SelectSectionNumber =>
        StepNumberByCategorySound(c, m, SelectSectionNumber, 1, 9, SectionKey, Confirm, SelectFloorNumber, now, postedId);
      case SelectFloorNumber => StepNumberSound(c, m, SelectFloorNumber, -1, 30, FloorKey, SelectFlatNumber, now, postedId);
      case SelectFlatNumber => StepNumberSound(c, m, SelectFlatNumber, 1, 700, FlatKey, Confirm, now, postedId);
      case SelectParkingNumber => StepNumberSound(c, m, SelectParkingNumber, 1, 500, ParkingKey, Confirm, now, postedId);
      case SelectStoreroomNumber => StepNumberSound(c, m, SelectStoreroomNumber, 1, 500, StoreroomKey, Confirm, now, postedId);
      case SpecifyDescription => StepDescriptionSound(c, m, now, postedId);
      case Confirm => StepConfirmSound(c, m, cfg, now, postedId);
      case UploadPhoto => StepUploadPhotoSound(c, photo, now, postedId);
    }
  }

  /** No question update_dialog_state sends is the save. */
  lemma {:induction false} PromptNeverPersists(c: UserContext, s: State)
    ensures Persisted !in PromptFor(c, s)
  {
    if s == Confirm {
      match AssembleRequest(c.answers)
      case Ok(r) => assert PromptFor(c, s) == [ConfirmPreview(r)];
      case Err(e) => assert PromptFor(c, s) == [Raised(e)];
    }
  }

  /** Entering a state, or falling back to it, never saves. */
  lemma {:induction false} GotoNeverPersists()
    ensures forall c, s, now :: Persisted !in Goto(c, s, now).effects
    ensures forall c, s, now :: Persisted !in Fallback(c, s, now).effects
  {
    forall c, s, now ensures Persisted !in Goto(c, s, now).effects && Persisted !in Fallback(c, s, now).effects {
      PromptNeverPersists(PushState(c, s, now), s);
      assert Fallback(c, s, now).effects == [FallbackNotice] + PromptFor(PushState(c, s, now), s);
    }
  }

  /** Outside 'confirm' no state's handler saves the context. */
  lemma {:induction false} OnlyConfirmPersists(s: State, c: UserContext, m: Option<string>, photo: seq<PhotoSize>, cfg: Config, now: int, postedId: int)
    requires s != Confirm
    ensures Persisted !in StepAt(s, c, m, photo, cfg, now, postedId).effects
  {
    GotoNeverPersists();
    match s
    case Start => assert StepAt(s, c, m, photo, cfg, now, postedId) == StepStart(c, m, cfg, now);
    case SelectStreet => assert StepAt(s, c, m, photo, cfg, now, postedId) == StepStreet(c, m, cfg, now);
    case SelectHouseNumber =>
      assert StepAt(s, c, m, photo, cfg, now, postedId)
        == StepNumberByCategory(c, m, SelectHouseNumber, 1, 50, HouseKey, SelectSectionNumber, SelectProblemArea, now);
    case SelectProblemArea => assert StepAt(s, c, m, photo, cfg, now, postedId) == StepProblemArea(c, m, cfg, now);
    case SelectSectionNumber =>
      assert StepAt(s, c, m, photo, cfg, now, postedId)
        == StepNumberByCategory(c, m, SelectSectionNumber, 1, 9, SectionKey, Confirm, SelectFloorNumber, now);
    case SelectFloorNumber =>
      assert StepAt(s, c, m, photo, cfg, now, postedId) == StepNumber(c, m, SelectFloorNumber, -1, 30, FloorKey, SelectFlatNumber, now);
    case SelectFlatNumber =>
      assert StepAt(s, c, m, photo, cfg, now, postedId) == StepNumber(c, m, SelectFlatNumber, 1, 700, FlatKey, Confirm, now);
    case SelectParkingNumber =>
      assert StepAt(s, c, m, photo, cfg, now, postedId) == StepNumber(c, m, SelectParkingNumber, 1, 500, ParkingKey, Confirm, now);
    case SelectStoreroomNumber =>
      assert StepAt(s, c, m, photo, cfg, now, postedId) == StepNumber(c, m, SelectStoreroomNumber, 1, 500, StoreroomKey, Confirm, now);
    case SpecifyDescription => assert StepAt(s, c, m, photo, cfg, now, postedId) == StepDescription(c, m, now);
    case UploadPhoto => assert StepAt(s, c, m, photo, cfg, now, postedId) == StepUploadPhoto(c, photo, now);
  }

  /** The context is saved only by a submission: a message whose handling
      saves was a confirm phrase in 'confirm', and what it did is Submit. */
  lemma {:induction false} OnlySubmitPersists(c: UserContext, m: Option<string>, photo: seq<PhotoSize>, cfg: Config, now: int, postedId: int)
    ensures var o := Proceed(c, m, photo, cfg, now, postedId);
      Persisted in o.effects ==>
        && !IsGoBack(m, cfg) && !IsGoRestart(m, cfg)
        && c.state == Some(Confirm) && m.Some? && Mentions(m.value, cfg.goConfirm)
        && o == Submit(c, now, postedId)
  {
    if IsGoBack(m, cfg) {
      if c.history != [] {
        var popped := c.history[..|c.history| - 1];
        PromptNeverPersists(PushState(c.(history := popped), Last(c.history), now), Last(c.history));
      } else {
        PromptNeverPersists(PushState(c, Start, now), Start);
      }
    } else if IsGoRestart(m, cfg) {
      PromptNeverPersists(PushState(c, Start, now), Start);
    } else if c.state.None? {
      PromptNeverPersists(PushState(c, Start, now), Start);
    } else if c.state.value != Confirm {
      OnlyConfirmPersists(c.state.value, c, m, photo, cfg, now, postedId);
    } else {
      PromptNeverPersists(PushState(c, Confirm, now), Confirm);
      PromptNeverPersists(PushState(c, UploadPhoto, now), UploadPhoto);
      PromptNeverPersists(PushState(c, SpecifyDescription, now), SpecifyDescription);
    }
  }

  /** The request ids a message leaves hold every id there was before, in
      order. */
  lemma {:induction false} ProceedKeepsRequests(c: UserContext, m: Option<string>, photo: seq<PhotoSize>, cfg: Config, now: int, postedId: int)
    ensures c.requests <= Proceed(c, m, photo, cfg, now, postedId).ctx.requests
  {
    ProceedSound(c, m, photo, cfg, now, postedId);
  }

  /** The /start command marks the first start only, and lands in a fresh
      'start' with the request ids kept: a welcome, then the question. */
  lemma {:induction false} StartCommandSetsBotStartedOnce(c: UserContext, now: int, later: int)
    requires now != 0
    ensures var o := StartCommand(c, now);
      && o.wrote
      && o.ctx.botStarted == (if TruthyInt(c.botStarted) then c.botStarted else Some(now))
      && o.ctx.requests == c.requests
      && o.ctx.answers == NoAnswers
      && o.ctx.state == Some(Start)
      && o.ctx.history == []
      && o.effects == [Welcome, Prompt(Start)]
      && StartCommand(o.ctx, later).ctx.botStarted == o.ctx.botStarted
  {
    MarkStartedOnce(c, now, later);
  }
}
