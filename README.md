# VALORANT Team Finder bot — conversation engine model

A Dafny model of the conversation engine of the Telegram bot in `bot/main.py`:

- the **registration conversation**: `/start` asks a new user for a nickname; a stripped
  nickname of 2 to 30 characters moves to the rank question; the rank button moves to the role
  question; role buttons toggle roles in and out; the "done" button saves the profile and ends
  the conversation. `/cancel` ends it from any stage;
- the **time-slot session**: "play today" starts an empty selection; "change plan" seeds it
  with a copy of today's stored slots; slot buttons toggle slots; "confirm" refuses an empty
  selection, otherwise writes today's status as playing and asks the store for up to three
  other players in those slots; "cancel" returns to the menu;
- the **keyboards**: the main menu, the slot keyboard (four slots in the fixed order morning,
  day, evening, night, a check mark on the selected ones, "confirm" only when something is
  selected, "cancel" last), the rank ladder, the role keyboards and the daily notification;
- the **callback router** `handle_callback` and the conversation handler's state table, which
  together decide which handler an event reaches;
- the **daily broadcast** `send_daily_notification`, in which one player's failure must not
  stop the others.

Files: `options.dfy` (an Option type), `text.dfy` (Python's `str.strip()`,
`str.replace(pat, "")`, `str.startswith`), `lists.dfy` (`list.remove` and the toggle),
`keyboards.dfy` (keyboard tables, the loops that build them, their shape lemmas),
`bot.dfy` (class `Engine`: per-user `user_data`, per-user conversation stage, and the log of
store calls; every handler, the router and `Dispatch`), `broadcast.dfy` (the broadcast loop).

The store and the clock are parameters: every answer the store gives during an event
(`get_player`, the save results, `get_daily_status`, the teammate list) comes in as a
`StoreAnswers` value, every store call a handler makes is appended to `Engine.calls`, and
"today" is passed in. The class invariant `Engine.Valid` says that every stored nickname is
stripped and of valid length, every role list is free of duplicates, every conversation stage
has the data its handlers read, and every logged store call is well formed. In particular,
`update_daily_status(..., True, slots)` is only ever called with non-empty `slots`, and
`get_players_by_slots` only with limit 3.

What each handler does is defined once, as a predicate over the state before and after it
(`StartDone`, `NickDone`, ..., `ChangePlanDone`). Each handler method ensures its own predicate.
`CallbackDone` picks the predicate by `handle_callback`'s route, `ConversationDone` by the
conversation stage, and `Dispatch` ensures the one that `TargetOf`, the application's handler
order, selects. So the contracts fix which handler every event reaches.

Behaviour of the code worth knowing:

- `finish_registration` does not check that a role was chosen: only the keyboard hides the
  "done" button while no role is selected (`Keyboards.RoleToggleKeyboardShape`). The handler
  ends the conversation even when the save fails.
- There is no edit flow. `edit_profile` only tells the user to run `/start` again, and `/start`
  for a registered user just greets them.
- The notification's "not playing" button sends `cancel_slots`. That handler only returns to
  the menu; it writes no "not available" status.
- Toggling a role or slot twice restores the list only when the item was absent. When it was
  present, the item comes back at the end of the list: the elements are the same but the order
  is not (`Lists.ToggleTwicePresent`).

## Model

| member | source | states |
|---|---|---|
| `Text.TrimStart` | bot/main.py:169 | the leading part of `strip()`: a suffix of the input, everything dropped is white space, the result does not start with white space |
| `Text.TrimEnd` | bot/main.py:169 | the trailing part of `strip()`: a prefix of the input, everything dropped is white space, the result does not end with white space |
| `Text.Strip` | bot/main.py:169 | `str.strip()` with Python's white-space set (`Text.IsSpace`): never longer than its input, and neither end of the result is white space |
| `Text.StartsWith` | bot/main.py:515-517 | `s.startswith(pat)` (as at bot/main.py:447); also the `^rank_` and `^role_` patterns of the state table: the string begins with the pattern |
| `Text.StripIsTrimmedInfix` | bot/main.py:169 | `strip()` returns the infix whose ends are not white space and outside which there is only white space |
| `Text.StripIdempotent` | bot/main.py:169-177 | a stripped nickname strips to itself, so a stored nickname is stable |
| `Text.RemoveAll` | bot/main.py:192 | `replace(pat, "")` deletes occurrences left to right and never lengthens the string |
| `Text.RemoveAllAbsent` | bot/main.py:192 | `replace` of a pattern that does not occur changes nothing |
| `Text.MissingCharNoOccurrence` | bot/main.py:209 | a pattern with a character the string lacks does not occur in it |
| `Text.TagRoundTrip` | bot/main.py:311 | a tag `prefix + id` starts with the prefix and `replace(prefix, "")` gives back `id` when `id` has no `_` |
| `Lists.IndexOf` | bot/main.py:214 | the position `list.remove` deletes: the first occurrence |
| `Lists.RemoveFirst` | bot/main.py:214 | `list.remove(x)` deletes exactly the first occurrence and keeps the rest in order |
| `Lists.RemoveFirstNoDup` | bot/main.py:213-214 | in a duplicate-free list, removing `x` removes it completely, keeps all other elements and keeps the list duplicate-free |
| `Lists.Toggled` | bot/main.py:213-216 | `if x in l: l.remove(x) else: l.append(x)`: one `x` taken out of the elements when present, one added when absent |
| `Lists.ToggleFlips` | bot/main.py:213-216 | a toggle flips the membership of the toggled item, leaves every other item's membership, and a duplicate-free list stays duplicate-free |
| `Lists.ToggleTwiceAbsent` | bot/main.py:315-318 | toggling an absent slot or role twice restores the list exactly |
| `Lists.ToggleTwicePresent` | bot/main.py:213-216 | toggling a present item twice gives the same elements with that item moved to the end |
| `Lists.ToggleTwiceSameElements` | bot/main.py:213-216 | in a duplicate-free list a double toggle restores the multiset of elements |
| `Keyboards.SlotKeyboard` | bot/main.py:89-109 | `get_time_slots_keyboard`; its shape is stated by `Keyboards.SlotKeyboardShape` |
| `Keyboards.RoleToggleKeyboard` | bot/main.py:228-238 | the keyboard `get_roles` builds; its shape is stated by `Keyboards.RoleToggleKeyboardShape` |
| `Keyboards.RolesKeyboard` | bot/main.py:121-131 | `get_roles_keyboard`; `Keyboards.RolesKeyboardIsEmptyToggle` proves it is the toggle keyboard with nothing chosen |
| `Keyboards.RankKeyboard` | bot/main.py:112-118 | `get_rank_keyboard`; `Keyboards.RankTagsRoundTrip` states its rows and tags |
| `Keyboards.MainMenu` | bot/main.py:78-86 | the main menu: three callback buttons and the link; `Bot.MenusRouted` and `Bot.MenusBypassConversation` state where its presses go |
| `Keyboards.NotificationKeyboard` | bot/main.py:476-479 | the notification's two buttons, `play_today_slots` and `cancel_slots`; routed as `Bot.MenusRouted` states |
| `Keyboards.BuildChoiceRows` | bot/main.py:95-101 | the row-building loop yields one row per item in table order, with the check mark exactly on selected items |
| `Keyboards.BuildSlotKeyboard` | bot/main.py:89-109 | the loop-built slot keyboard equals the specified one |
| `Keyboards.BuildRoleToggleKeyboard` | bot/main.py:228-238 | the loop-built role keyboard equals the specified one |
| `Keyboards.TablesUnmarked` | bot/main.py:35-40 | no slot or role caption starts like the check mark, so a mark is always recognisable |
| `Keyboards.HasCallbackConcat` | bot/main.py:104-107 | a button can be pressed in stacked rows iff it is in one of the stacks |
| `Keyboards.ChoiceRowsShape` | bot/main.py:95-101 | item rows: one per item, in order, marked iff selected, each sending `prefix + id`, none sending a foreign tag |
| `Keyboards.SlotKeyboardShape` | bot/main.py:89-109 | slots in the order morning, day, evening, night, marked iff selected; "confirm_slots" present iff the selection is non-empty; "cancel_slots" always last |
| `Keyboards.RoleToggleKeyboardShape` | bot/main.py:228-238 | roles in table order, marked iff chosen; "roles_done" present iff at least one role is chosen |
| `Keyboards.RolesKeyboardIsEmptyToggle` | bot/main.py:121-131 | the first role keyboard is the toggle keyboard with nothing chosen: no marks, no "done" |
| `Keyboards.RankTagsRoundTrip` | bot/main.py:112-118 | eight rank buttons, each tag starting with `rank_` and decoding under `replace("rank_", "")` to the rank shown |
| `Keyboards.SlotTagsRoundTrip` | bot/main.py:100 | each slot tag decodes under `replace("slot_", "")` to its slot |
| `Keyboards.RoleTagsRoundTrip` | bot/main.py:129-130 | each role tag starts with `role_`, differs from `roles_done`, and decodes to its role |
| `Bot.SlotWord` | bot/main.py:49-54 | `TIME_SLOTS_RU`: a word for each of the four slots and none for anything else |
| `Bot.SlotWords` | bot/main.py:360 | the slot words exist iff every slot is known, one word per slot in order |
| `Bot.Mentions` | bot/main.py:366-368 | at most three mentions, `@` plus the nickname of the first teammates in order |
| `Bot.CurrentSlots` | bot/main.py:403-407 | the seed of `change_plan`: the row's list, `[]` without a row or without the key, nothing for a null list (whose `.copy()` raises) |
| `Bot.RouteOf` | bot/main.py:445-458 | every `slot_` tag goes to `toggle_slot`; exactly the five fixed tags and the `slot_` tags reach a handler |
| `Bot.ConversationTakes` | bot/main.py:513-521 | the state table: text in VALORANT_NICK, `^rank_` in RANK, `^role_` and `^roles_done$` in ROLES, `/cancel` in every state; stated by `Bot.RegistrationButtonsTaken` and `Bot.MenusBypassConversation` |
| `Bot.TargetOf` | bot/main.py:511-526 | the application's handler order: the conversation in its state, its `/start` entry point outside it, then `handle_callback` for presses, otherwise nothing |
| `Bot.StartDone` | bot/main.py:138-164 | effect of `start`: one `get_player` call; greeting and END for a registered user, nickname prompt and VALORANT_NICK otherwise |
| `Bot.NickDone` | bot/main.py:167-184 | effect of `get_valorant_nick`: the stripped text stored and RANK iff it has 2 to 30 characters, else nothing changes and VALORANT_NICK |
| `Bot.RankDone` | bot/main.py:187-201 | effect of `get_rank`: rank stored without `rank_`, roles reset to `[]`, role keyboard, ROLES |
| `Bot.RolesDone` | bot/main.py:204-245 | effect of `get_roles`: the toggled roles stored, then shown with the rank, ROLES; raises (state kept) without a stored rank |
| `Bot.FinishDone` | bot/main.py:248-276 | effect of `finish_registration`: one `save_player` with the stored fields and END either way; raises before saving when a key is missing |
| `Bot.CancelDone` | bot/main.py:279-284 | effect of `cancel`: END and nothing else changes |
| `Bot.PlayTodayDone` | bot/main.py:291-303 | effect of `play_today_slots`: empty selection, unmarked slot keyboard |
| `Bot.ToggleSlotDone` | bot/main.py:306-326 | effect of `toggle_slot`: the decoded slot toggled, shown with the count |
| `Bot.ConfirmDone` | bot/main.py:329-375 | effect of `confirm_slots`: refusal without a store call, failed write, or write plus teammate query and mentions |
| `Bot.ChangePlanDone` | bot/main.py:393-421 | effect of `change_plan`: one `get_daily_status`, the stored slots copied into the selection and shown; raises on a null list before the write and on an unknown slot after it |
| `Bot.CallbackDone` | bot/main.py:440-458 | `handle_callback`'s effect is the effect of the handler its route names; unknown data only gets a notice |
| `Bot.ConversationDone` | bot/main.py:513-521 | the conversation's effect is `cancel` on `/cancel`, else the effect of the stage's handler for the event |
| `Bot.MenusRouted` | bot/main.py:440-458 | every button of the main menu, slot keyboard and notification reaches a handler; a slot button reaches `toggle_slot` with its own slot |
| `Bot.RegistrationButtonsTaken` | bot/main.py:513-520 | rank buttons are taken in the RANK stage, role buttons and "done" in the ROLES stage |
| `Bot.MenusBypassConversation` | bot/main.py:511-526 | menu, slot and notification buttons are never taken by the conversation, so they reach `handle_callback` in any stage |
| `Bot.Engine.Start` | bot/main.py:138-164 | ensures `StartDone`: a registered user is greeted with the menu and the conversation ends; a new user is asked for a nickname; one `get_player` call |
| `Bot.Engine.GetValorantNick` | bot/main.py:167-184 | ensures `NickDone`: the stripped text is accepted iff its length is in [2,30]: then it is stored and the state becomes RANK; otherwise state VALORANT_NICK and the session unchanged |
| `Bot.Engine.GetRank` | bot/main.py:187-201 | ensures `RankDone`: stores the data with `rank_` removed, resets roles to the empty list, shows the role keyboard, state ROLES |
| `Bot.Engine.GetRoles` | bot/main.py:204-245 | ensures `RolesDone` and keeps the role list free of duplicates: toggles the decoded role, shows the role keyboard for the new list with its count, state stays ROLES; raises only without a stored rank |
| `Bot.Engine.FinishRegistration` | bot/main.py:248-276 | ensures `FinishDone` and keeps saved profiles well formed: one `save_player` call with the stored nickname, rank and roles; menu on success, error otherwise; the conversation ends either way |
| `Bot.Engine.Cancel` | bot/main.py:279-284 | ends the conversation and changes nothing else |
| `Bot.Engine.PlayTodaySlots` | bot/main.py:291-303 | ensures `PlayTodayDone`: resets the selection to empty and shows the unmarked slot keyboard |
| `Bot.Engine.ToggleSlot` | bot/main.py:306-326 | ensures `ToggleSlotDone`: toggles the decoded slot and shows the slot keyboard for the new selection with its count |
| `Bot.Engine.ConfirmSlots` | bot/main.py:329-375 | ensures `ConfirmDone` and never writes a playing day with no slot: empty selection: no store call and the empty keyboard again; otherwise one `update_daily_status(uid, today, True, slots)` and, after success, one teammate query with limit 3 excluding the caller; at most 3 mentions |
| `Bot.Engine.CancelSlots` | bot/main.py:378-386 | back to the main menu; the selection is kept |
| `Bot.Engine.ChangePlan` | bot/main.py:393-421 | ensures `ChangePlanDone`: the selection becomes a copy of today's stored slots, or empty when nothing is stored, and is shown; a null list raises before the write |
| `Bot.Engine.EditProfile` | bot/main.py:428-437 | only tells the user to register again |
| `Bot.Engine.HandleCallback` | bot/main.py:440-458 | ensures `CallbackDone`: each route has exactly the effect of its handler; never moves the conversation; touches only the caller's data |
| `Bot.Engine.Apply` | bot/main.py:511-523 | the conversation handler records a handler's step: the returned state, removal on END, the old state when the handler raised |
| `Bot.Engine.Converse` | bot/main.py:511-523 | ensures `ConversationDone`: in a stage that takes the event, that stage's handler has its effect, never raises, and moves along VALORANT_NICK -> RANK -> ROLES -> END |
| `Bot.Engine.Advance` | bot/main.py:511-523 | the conversation's turn: `ConversationDone` with the step read off the new stage, and the stage order kept |
| `Bot.Engine.Dispatch` | bot/main.py:511-526 | for each `TargetOf` case, the reached handler's effect with the new stage (`ConversationDone`, `StartDone`, `CallbackDone`, or ignored with nothing changed); only the sender's data and stage change; stages follow the registration order |
| `Broadcast.Attempt` | bot/main.py:473-489 | a player is greeted iff the row has an id and a nickname and the send succeeds; a failure is logged under the row's id |
| `Broadcast.AsWrittenRun` | bot/main.py:472-489 | the loop as written over the rows, with the `telegram_id` local carried from row to row; its behaviour is stated by the lemmas below |
| `Broadcast.SendDailyNotificationAsWritten` | bot/main.py:465-491 | the loop as written equals `AsWrittenRun`, including the abort when a row without an id comes first |
| `Broadcast.SendDailyNotification` | bot/main.py:472-489 | every row is attempted and each outcome depends on that row alone |
| `Broadcast.AsWrittenIsolatesSendFailures` | bot/main.py:472-489 | when every row has its id, the loop as written isolates every failure |
| `Broadcast.AsWrittenAbortsOnMissingId` | bot/main.py:474-489 | a first row without an id aborts the loop as written, and a later one is logged under the previous id |
| `Broadcast.MiddleFailureIsolated` | bot/main.py:472-489 | the loop as written over three players, the second unreachable: it does not stop, the first and third are greeted, the second's failure is logged under its own id |

## Left out

- The HTTP health-check server and its thread (bot/main.py:57-71, 505-506), the application
  wiring and the job-queue scheduling at 10:00 and 18:00 (bot/main.py:498-541): process
  plumbing and timers. The routing those handlers set up is modelled in `Bot.Engine.Dispatch`.
- Telegram I/O: `reply_text`, `edit_message_text`, `send_message` and `query.answer()` become
  `Reply` values; messages are `Msg` values carrying the data they display, not the Russian text.
- The clock: `datetime.now()` becomes the `today` parameter. `confirm_slots` reads the clock
  twice; both reads are taken to give the same day.
- `bot/database.py` and `api/index.py`: the store is a set of logged calls whose answers are
  parameters. `database.py` does not define `save_player` or `get_players_by_slots`, and its
  `update_daily_status` and `get_daily_status` have other signatures than the ones `main.py`
  calls, so the model follows the calls `main.py` makes.
- The slot-overlap matcher behind `get_players_by_slots`: its filtering is not in this code, so
  the teammate list is an arbitrary parameter.
- Logging, including the final count line of the broadcast.
- Concurrent events for the same user: events are handled one at a time.
- `Bot.Engine.Converse`, `Bot.Engine.Advance`, `Bot.Engine.Dispatch`: "never raises" holds only
  when Telegram's calls succeed. Every `query.answer()`, `reply_text` and `edit_message_text` is
  taken to succeed. In the source, a failing `query.answer()` (bot/main.py:190) leaves `get_rank`
  without any write and keeps the state. A failing `edit_message_text` (bot/main.py:240) leaves the
  toggled roles stored and keeps the state. The model has no such outcome.
- Conversation states are keyed by user alone. The framework keys them by chat and user by default,
  so one user registering in two chats at once has two conversations there, and one in the model.
- `Bot.Engine.ChangePlan`: a stored status row is always treated as present. A row dict from the
  store is never empty, so Python's truthiness test on it is not modelled.
- `Text.RemoveAll`: its own contract only bounds the length; what it computes on callback tags
  is stated by `Text.RemoveAllAbsent` and `Text.TagRoundTrip`.
- `Bot.Engine.Cancel`, `Bot.Engine.CancelSlots` and `Bot.Engine.EditProfile` change no state;
  their contracts only name the reply.

## Findings

| source | as written | input that shows it | evidently intended | confidence | as-written member | corrected member |
|---|---|---|---|---|---|---|
| bot/main.py:472-489 | the `except` clause logs `telegram_id`. When the first row lacks that key, the name is unbound, so the handler itself raises `UnboundLocalError` and the loop stops. A later row without the key is logged under the previous player's id. | rows `[{valorant_nick: "a"}, {telegram_id: 7, valorant_nick: "b"}]`: player 7 is never greeted (`Broadcast.AsWrittenAbortsOnMissingId`) | each failure is caught and logged under the failing row's own id, and the loop goes on | not executed; low to medium, because the store's rows normally carry `telegram_id` as their key | `Broadcast.SendDailyNotificationAsWritten` | `Broadcast.SendDailyNotification` |
