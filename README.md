# Verified model of the building-issues Telegram bot's form engine

The bot in `main.py` lets residents of a housing complex report a problem
through a guided chat.
- A resident picks a category, a street and a house number. Then, depending
  on the category and the problem area, they give a section, a floor, a flat,
  a parking space or a storeroom, and a description or a photo. Finally they
  confirm.
- The bot posts the finished request to a main group.
- A responsible person's reply to the forwarded request is sent back to the
  resident who wrote it.

All per-user state lives in one in-memory dictionary, `CONTEXT['users']`. A
dirty flag, `IS_CONTEXT_CHANGED`, decides when the dictionary is written to
`context.yaml`.

This project models that engine in Dafny and proves what it does.

- `text.dfy` (module `Text`) covers the Python string built-ins the engine
  relies on: `in`, `lower()`, `strip()`, `isnumeric()`/`int()`, `str()` of an
  integer, slicing, and `split`/`join`. It also covers the confirm preview's
  "drop the last line".
- `context.dfy` (module `Context`) covers one user's context as a record with
  one field per dictionary key. It holds the value-level effect of
  `update_user_context(..., overwrite=False)`, `reset_user_context`,
  `update_user_requests_history` and the push rule of `update_dialog_state`,
  and the history invariant "no two consecutive entries are equal, and the
  last entry is not the current state".
- `report.dfy` (module `Report`) covers the dry-run half of
  `send_request_to_main_group`: the address assembled in a fixed order from
  optional parts, the fire override of the area, the details default, the
  photo, and the two crashes on a missing category or street.
- `dialog.dfy` (module `Dialog`) covers `proceed_user_message` for one private
  chat, stated on values.
  - The `is_go_*_message` loops are methods proved equal to a predicate.
  - Every state handler is a function returning an `Outcome`: the new context,
    whether the store was written, and the ordered effects (prompts, fallback,
    posted request, save, or the exception that ended the handler).
- `dialog_facts.dfy` (module `DialogFacts`) holds the properties of the dialog:
  - rejected answers fall back and change nothing but the state's timestamp;
  - accepted answers follow the branching table;
  - back comes before restart, and both come before the state;
  - the confirm step's dispatch order;
  - submission appends the request id and resets;
  - every handler keeps `bot_started`, only grows the request ids, and keeps
    the history well formed;
  - only a submission saves.
- `store.dfy` (module `Store`) holds the shared, mutable store: the class
  `ContextStore` with the users map, their insertion order (the order Python
  iterates the dict in) and the dirty flag.
  - Its methods follow the source helper by helper. `update_dialog_state`
    makes its three writes. `go_back` pops the stored list in place before
    `update_dialog_state` and overwrites it after. `save_context` returns the
    snapshot and clears the flag.
  - Each method is proved to leave the store exactly as the value-level
    function in `Dialog` says (`Applied`).
  - `ProceedGroupChatMessage` scans the users in order, with a loop invariant
    tying it to `FindRequester`.

## Model

| member | source | states |
|---|---|---|
| Text.Strip | main.py:405 | the result is the input without its leading and trailing whitespace (Python's `isspace` set), and begins and ends with a non-space |
| Text.Truncate | main.py:593 | `message[:500]`: the prefix of the input of length 500, or the whole input when it is shorter |
| Text.NatToString | main.py:60-76 | `str()` of a non-negative number is all digits without a leading zero |
| Text.ParseNatToString | main.py:60-76 | `int(str(n)) == n`: the decimal text reads back as the number |
| Text.Split | main.py:276 | `s.split('\n')` gives at least one piece, and no piece holds the separator |
| Text.JoinSplit | main.py:276 | joining the pieces of a split with the same separator gives the text back |
| Text.DropLastLineKeepsTextBeforeLastBreak | main.py:275-276 | `Text.DropLastLine`, the preview's `'\n'.join(s.split('\n')[:-1])`, keeps exactly the text before the last line break, and nothing when there is none |
| Context.MarkStarted | main.py:150-154 | with `overwrite=False` the time is written only when `bot_started` is falsy; a truthy value is kept, and no other key changes |
| Context.MarkStartedOnce | main.py:307 | marking the start twice is marking it once: the first start time is kept whatever the later time |
| Context.ResetContext | main.py:157-165 | the reset raises exactly when `bot_started` was never written |
| Context.ResetKeepsOnlyRecords | main.py:157-165 | a reset keeps only `bot_started`, the request ids and `last_request`, drops every answer and the history, enters 'start', and is idempotent |
| Context.RecordRequest | main.py:168-172 | the posted id is appended to the request ids, `last_request` is set, nothing else changes |
| Context.RecordRequestOnlyGrows | main.py:168-172 | the old ids are a prefix of the new list, and the ids are exactly the old ones plus the new one |
| Context.PushState | main.py:204-213 | the history changes iff the old state exists, differs from the new one and from the last entry, and then by appending the old state; the state and its time are set; nothing else changes |
| Context.SameStateOnlyRefreshesTime | main.py:296-299 | a fallback to the current state pushes nothing and only refreshes the timestamp |
| Context.PushStateKeepsHistoryWellFormed | main.py:205-210 | the push rule keeps the history free of consecutive duplicates and its last entry different from the state |
| Context.PushStateOntoHistory | main.py:371-373 | entering the popped state on the popped history gives a well-formed history |
| Report.FalsyPartIsOmitted | main.py:63-76 | in `Report.Address`, a missing or zero section, floor, flat, storeroom or parking adds nothing |
| Report.AddressPartShowsNumber | main.py:63-76 | a present part reads prefix followed by the decimal digits of its number |
| Report.PhotoOf | main.py:88-100 | a photo is attached exactly when a photo with a non-empty file id was recorded |
| Report.AssembleRequest | main.py:43-103 | the assembly fails exactly when the category or the street is missing, with the category's crash first |
| Report.RequestFields | main.py:46-76 | the request carries the category; the area is 'в секции' for a fire category and the recorded area otherwise; the address is assembled in order; the details default to 'не указано' |
| Dialog.MatchesKeyphrase | main.py:341-344 | the early-return loop finds a phrase iff some configured phrase occurs in the lower-cased message |
| Dialog.IsGoBackMessage | main.py:337-344 | false for a missing or empty message (the message is `Dialog.MessageOf` of the text: stripped, or none when there is no text, main.py:403-405), otherwise some back phrase occurs in its `Text.Lower` form |
| Dialog.IsGoRestartMessage | main.py:347-354 | false for a missing or empty message, otherwise some restart phrase occurs in it |
| Dialog.IsGoConfirmMessage | main.py:357-362 | some confirm phrase occurs in the lower-cased message |
| Dialog.StartCommand | main.py:302-312 | /start never raises, because `bot_started` is written before the reset reads it |
| DialogFacts.FloorNeverNegative | main.py:525-533 | "-1" is rejected, and the floor step with range -1..30 accepts exactly what 0..30 would |
| DialogFacts.NumberAnswerInRange | main.py:452-460 | a number answer is taken iff it is all digits (`Text.IsNumeric`) and within the inclusive range, and then it is its value read by `Text.ParseDigits` |
| DialogFacts.RejectedAnswerFallsBack | main.py:419-622 | in every state, an answer the state does not accept changes only the state's timestamp, records nothing, and sends the fallback and the same question |
| DialogFacts.AreaRouteFollowsTable | main.py:485-496 | `Dialog.AreaRoute`, the handler's keyword chain, equals the table's row: the problem-area keywords are tested in the order 'этаж', 'квартир', 'парк', 'кладовк', 'двор', 'улиц' |
| DialogFacts.AcceptedCategory | main.py:431-437 | a listed category is recorded and leads to the street question |
| DialogFacts.AcceptedStreet | main.py:441-447 | a listed street is recorded and leads to the house question |
| DialogFacts.AcceptedHouse | main.py:452-468 | a house 1..50 is recorded and leads to the section for a fire category, else to the problem area |
| DialogFacts.AcceptedProblemArea | main.py:477-498 | a listed area is recorded lower-cased and leads where its first keyword says; an area without a keyword stays in place |
| DialogFacts.AcceptedSection | main.py:503-520 | a section 1..9 is recorded and leads to confirm for a fire category, else to the floor |
| DialogFacts.AcceptedFloor | main.py:525-537 | a floor 0..30 is recorded and leads to the flat |
| DialogFacts.AcceptedFlat | main.py:540-552 | a flat 1..700 is recorded and leads to confirm |
| DialogFacts.AcceptedParking | main.py:555-567 | a parking space 1..500 is recorded and leads to confirm |
| DialogFacts.AcceptedStoreroom | main.py:570-582 | a storeroom 1..500 is recorded and leads to confirm |
| DialogFacts.AcceptedDescription | main.py:587-595 | a non-empty description is recorded cut to 500 characters and leads to confirm |
| DialogFacts.AcceptedPhoto | main.py:619-637 | a message with a photo records its largest size and leads to confirm |
| DialogFacts.AcceptedAnswerFollowsTable | main.py:419-637 | in every state but confirm an accepted answer records exactly its key, keeps the records, pushes the old state by the rule and enters the state of the branching table |
| DialogFacts.MissingCategoryRaises | main.py:462-518 | with no category, the house and section steps store the number and then raise |
| DialogFacts.GoBackComesFirst | main.py:365-374 | a back phrase wins over everything: it enters the last history state with a fresh timestamp and leaves the history without it unless the confirm preview raises (or enters 'start' on an empty history), and no answer changes |
| DialogFacts.MissingStateEntersStart | main.py:415-417 | with no back or restart phrase, a user without a dialog state enters 'start': only the state and its timestamp are written, nothing is pushed, and the first question is sent |
| DialogFacts.StartAnswersInPlace | main.py:420-429 | in 'start', a message without text raises before anything is written; one mentioning 'правила' gets the rules, else one mentioning 'контакты' gets the contacts, and neither writes anything |
| DialogFacts.RestartResets | main.py:377-379 | a restart phrase (not also a back phrase) enters 'start' with a fresh timestamp and resets: `bot_started`, the request ids and `last_request` are kept, the answers and history are emptied; when `bot_started` is missing it raises after entering 'start' |
| DialogFacts.ConfirmDispatchOrder | main.py:598-617 | in confirm: 'фото' asks for a photo, then 'опис' asks for a description, then a confirm phrase submits, and any other text does nothing |
| DialogFacts.SubmitNeedsCategoryAndStreet | main.py:57-61 | submitting without a category or a street raises and changes nothing |
| DialogFacts.SubmitRecordsRequest | main.py:611-617 | a submission posts the request, appends its id to the request ids, sends the success text (and the fire hint for a fire category), resets and saves |
| DialogFacts.GotoSound | main.py:204-213 | entering a state keeps `bot_started` and the request ids and keeps the history well formed |
| DialogFacts.StepStartSound | main.py:420-437 | the start step keeps `bot_started`, the request ids and a well-formed history, and changes nothing when it writes nothing |
| DialogFacts.StepStreetSound | main.py:440-447 | the same for the street step |
| DialogFacts.StepNumberSound | main.py:525-582 | the same for the floor, flat, parking and storeroom steps |
| DialogFacts.StepNumberByCategorySound | main.py:452-520 | the same for the house and section steps |
| DialogFacts.StepProblemAreaSound | main.py:477-498 | the same for the problem-area step |
| DialogFacts.StepDescriptionSound | main.py:587-595 | the same for the description step |
| DialogFacts.StepUploadPhotoSound | main.py:619-637 | the same for the photo step |
| DialogFacts.SubmitSound | main.py:611-617 | a submission keeps `bot_started`, appends only the posted id and keeps the history well formed |
| DialogFacts.StepConfirmSound | main.py:598-617 | the same for the confirm step |
| DialogFacts.GoBackSound | main.py:365-374 | going back keeps `bot_started` and the request ids, and the history stays well formed after the pop and the overwrite |
| DialogFacts.GoRestartSound | main.py:377-379 | the same for the restart |
| DialogFacts.ProceedSound | main.py:394-637 | any message keeps `bot_started`, at most appends the posted id to the request ids, changes nothing when it writes nothing, and keeps the history well formed |
| DialogFacts.PromptNeverPersists | main.py:214-293 | no question or preview that `Dialog.PromptFor` sends on entering a state saves the context |
| DialogFacts.GotoNeverPersists | main.py:296-299 | entering a state, or falling back to it, never saves |
| DialogFacts.OnlyConfirmPersists | main.py:419-597 | no state handler except confirm saves |
| DialogFacts.OnlySubmitPersists | main.py:611-617 | a message that saves was a confirm phrase in 'confirm', and what it did is the submission |
| DialogFacts.ProceedKeepsRequests | main.py:168-172 | the request ids before a message are a prefix of those after it |
| DialogFacts.StartCommandSetsBotStartedOnce | main.py:302-312 | /start sets `bot_started` only the first time, keeps the request ids, empties the answers and the history, and sends the welcome and the start question |
| Store.FindRequester | main.py:386-387 | the user found holds the forwarded id among its request ids; none found means no user holds it |
| Store.FindRequesterIsFirst | main.py:386-391 | the user found is the first such user in insertion order |
| Store.ContextStore.SetUserContext | main.py:143-147 | the context is stored under the user, a new user goes last in the order, and the dirty flag is set |
| Store.ContextStore.MarkBotStarted | main.py:150-154 | the store holds `MarkStarted` of the old context, and is written (flag set) only when `bot_started` was falsy |
| Store.ContextStore.ResetUserContext | main.py:157-165 | the store holds the reset context, or is untouched and the crash is returned |
| Store.ContextStore.UpdateUserRequestsHistory | main.py:168-172 | the store holds `RecordRequest` of the old context |
| Store.ContextStore.UpdateDialogState | main.py:204-293 | after the conditional push and the two writes the store holds `PushState` of the old context, and the effects are the state's question |
| Store.ContextStore.ProceedFallback | main.py:296-299 | the store and the effects are those of `Fallback` |
| Store.ContextStore.RecordAndGo | main.py:445-446 | recording an answer and entering the next state leaves the store as `Goto` says |
| Store.ContextStore.GoBack | main.py:365-374 | the in-place pop, the state change and the overwrite leave the store as `Dialog.GoBack` says |
| Store.ContextStore.GoRestart | main.py:377-379 | the store and the effects are those of `Dialog.GoRestart` |
| Store.ContextStore.SaveContext | main.py:640-645 | a snapshot is returned iff the flag was set; the flag ends cleared and the users are untouched |
| Store.ContextStore.Submit | main.py:611-617 | the store and the effects are those of `Dialog.Submit`, and the snapshot is returned exactly when the submission saved |
| Store.ContextStore.AnswerStart | main.py:420-437 | the store and the effects are those of `StepStart` |
| Store.ContextStore.AnswerStreet | main.py:440-447 | the store and the effects are those of `StepStreet` |
| Store.ContextStore.AnswerNumber | main.py:525-582 | the store and the effects are those of `StepNumber` |
| Store.ContextStore.AnswerNumberByCategory | main.py:452-520 | the store and the effects are those of `StepNumberByCategory` |
| Store.ContextStore.AnswerProblemArea | main.py:477-498 | the store and the effects are those of `StepProblemArea` |
| Store.ContextStore.AnswerDescription | main.py:587-595 | the store and the effects are those of `StepDescription` |
| Store.ContextStore.AnswerConfirm | main.py:598-617 | the store and the effects are those of `StepConfirm`, with the snapshot when it saved |
| Store.ContextStore.AnswerPhoto | main.py:619-637 | the store and the effects are those of `StepUploadPhoto` |
| Store.ContextStore.Dispatch | main.py:419-637 | the dispatch on the state leaves the store as `StepAt` says, with the snapshot exactly when it saved |
| Store.ContextStore.ProceedGroupChatMessage | main.py:382-391 | the scan over the users in insertion order returns what `GroupReply` says: the reply to the first requester, a crash for a reply without text, or nothing |
| Store.ContextStore.ProceedUserMessage | main.py:394-417 | the group chat is routed and leaves the store untouched; other group chats are ignored; a private message leaves the store as `Dialog.Step` says |
| Store.ContextStore.HandleStart | main.py:302-312 | /start is ignored outside private chats, and otherwise leaves the store as `StartCommand` says |

## Left out

- Telegram transport: sending messages and photos, keyboards, pinned
  messages, handler registration and polling. They are abstract effects.
  The message id Telegram returns for a posted request is the parameter
  `postedId`.
- Template rendering and `escape_markdown`: effects carry the assembled
  `Request`, not its rendered text.
  - The confirm preview's line drop is modelled as `Text.DropLastLine` on
    any text; it is not applied to a rendered request.
  - The link and template text of a forwarded reply are not modelled. The
    reply carries the user and the reply text.
- The requester's username or name link in the request is not modelled. It
  comes from Telegram's user object, not from the context.
- Loading `config.yaml` and `context.yaml`, and dumping the snapshot:
  - the configuration is a parameter;
  - the store starts empty;
  - `SaveContext` returns the snapshot it would write.
- The flush timer (`set_interval`, `threading.Timer`) and concurrency. Each
  message is handled to completion.
- Wall-clock time: each handler takes one timestamp `now`, used for every
  time it reads.
- The context is a record with one field per key the code writes:
  - a missing list is the empty list, because every reader treats a
    missing list as empty (`.get('requests_history', [])` at main.py:163 and
    main.py:169, an `is not None` test at main.py:387);
  - the five photo keys are one field, because only the photo step writes
    them and it writes them together;
  - contexts holding ill-typed values (which a hand-edited `context.yaml`
    could contain) are not modelled.
- `Text.Lower` lowers ASCII Latin and basic Cyrillic capitals only, the
  scripts of the bot's keyphrases. Other case mappings of Python's `str.lower()` are
  left out.
- `Text.IsNumeric` accepts ASCII digits only. Python's `isnumeric()` also
  accepts other Unicode numerals, on which `int()` may then fail.
- Behaviour kept as the code has it:
  - the section upper bound is 9;
  - the floor step goes to the flat whatever the problem area;
  - the floor step never accepts "-1", because the minus sign fails
    `isnumeric()` before the range check;
  - answers from a branch that was left by going back stay in the context
    and can reach the request;
  - a problem area that mentions none of the keywords is recorded, and the
    state stays as it is.
- Text sanitisation, a moderation word list, a de-duplication cache and
  location answers are not in the code, so they are not in the model.
