/** The conversation engine of bot/main.py: the registration conversation
    (`start` -> `get_valorant_nick` -> `get_rank` -> `get_roles` ->
    `finish_registration`, with `cancel`), the time-slot session
    (`play_today_slots`, `toggle_slot`, `confirm_slots`, `cancel_slots`,
    `change_plan`), `edit_profile`, the callback router `handle_callback`, and
    the conversation handler's state table that decides which handler an
    incoming event reaches.

    The store and the clock are outside the model: every answer the store
    gives is a parameter (`StoreAnswers`), every call the handlers make to it
    is appended to `calls`, and "today" is a parameter. */
module Bot {
  import opened Options
  import opened Ids
  import opened Text
  import opened Lists
  import opened Keyboards

  /** A calendar date as `date.isoformat()` writes it. */
  type Date = string

  /** A stored profile, as `get_player` and the teammate query return it. */
  datatype Player = Player(telegramId: UserId, nick: string, rank: string, roles: seq<string>)

  /** The `time_slots` entry of a stored daily-status row: missing, null, or
      a list of slots. */
  datatype SlotsField = Missing | Null | Listed(slots: seq<string>)

  /** A stored daily-status row. */
  datatype DailyRow = DailyRow(timeSlots: SlotsField)

  /** One user's `context.user_data`: each key the handlers write, absent
      until first written. */
  datatype UserData = UserData(
    nick: Option<string>,
    rank: Option<string>,
    roles: Option<seq<string>>,
    selectedSlots: Option<seq<string>>)

  const NoData := UserData(None, None, None, None)

  /** The conversation states `VALORANT_NICK`, `RANK` and `ROLES`; a user
      with no stage is outside the conversation (`ConversationHandler.END`). */
  datatype Stage = AwaitNick | AwaitRank | AwaitRoles

  /** What a conversation handler hands back to the conversation handler:
      the next state, `END`, or nothing (the handler raised, so the state is
      kept). */
  datatype Step = Goto(stage: Stage) | Finish | Stay

  /** The messages the bot shows, with the data each one displays. */
  datatype Msg =
    | Welcome(nick: string, rank: string, roles: seq<string>)
    | AskNick
    | BadNick
    | AskRank(nick: string)
    | AskRoles(rank: string)
    | RolesChosen(rank: string, count: nat)
    | Registered(nick: string, rank: string, roles: seq<string>)
    | RegistrationFailed
    | RegistrationCancelled
    | PickSlots
    | SlotsChosen(count: nat)
    | NeedOneSlot
    | SaveFailed
    | PlanSaved(date: Date, slotWords: seq<string>, mentions: seq<string>)
    | SelectionCancelled
    | ChangePlanPrompt(currentWords: seq<string>)
    | EditProfileHint
    | UnknownCommand

  /** What the user sees after an event: a message with its keyboard (an
      empty keyboard is no keyboard), a pop-up notice on the pressed button,
      nothing because the handler raised, or nothing because no handler took
      the event. */
  datatype Reply = Show(msg: Msg, keyboard: Keyboard) | Notice(note: Msg) | Raised | Ignored

  /** The store operations the handlers call, with their arguments. */
  datatype StoreCall =
    | GetPlayer(id: UserId)
    | SavePlayer(id: UserId, nick: string, rank: string, roles: seq<string>)
    | GetDailyStatus(id: UserId, date: Date)
    | UpdateDailyStatus(id: UserId, date: Date, playing: bool, slots: seq<string>)
    | PlayersBySlots(date: Date, slots: seq<string>, limit: nat, excludeId: UserId)

  /** What the store answers during one event. */
  datatype StoreAnswers = StoreAnswers(
    player: Option<Player>,
    saved: bool,
    status: Option<DailyRow>,
    teammates: seq<Player>)

  /** An incoming update: a command, a plain text message, or a button press. */
  datatype Event = Command(name: string) | TextMessage(content: string) | Press(data: string)

  /** How many teammates the confirmation asks for and mentions. */
  const TeammateLimit: nat := 3

  /** The nickname rule of `get_valorant_nick`: 2 to 30 characters. */
  predicate ValidNick(nick: string)
  {
    2 <= |nick| <= 30
  }

  /** A nickname as the bot keeps it: stripped and of valid length. */
  predicate WellFormedNick(nick: string)
  {
    ValidNick(nick) && Strip(nick) == nick
  }

  /** `TIME_SLOTS_RU`: the word for a slot, when the slot is known. */
  function SlotWord(slot: string): Option<string>
  {
    if slot == "morning" then Some("утром")
    else if slot == "day" then Some("днём")
    else if slot == "evening" then Some("вечером")
    else if slot == "night" then Some("ночью")
    else None
  }

  /** `[TIME_SLOTS_RU[s] for s in slots]`: the words of all slots, or nothing
      when one slot is unknown (the KeyError). */
  function SlotWords(slots: seq<string>): (r: Option<seq<string>>)
    ensures r.Some? <==> forall s :: s in slots ==> SlotWord(s).Some?
    ensures r.Some? ==> |r.value| == |slots|
    ensures r.Some? ==> forall i :: 0 <= i < |slots| ==> Some(r.value[i]) == SlotWord(slots[i])
  {
    if slots == [] then Some([])
    else match (SlotWord(slots[0]), SlotWords(slots[1..]))
      case (Some(w), Some(ws)) => Some([w] + ws)
      case _ => None
  }

  /** `[f"@{t['valorant_nick']}" for t in teammates[:3]]`. */
  function Mentions(teammates: seq<Player>): (m: seq<string>)
    ensures |m| <= TeammateLimit
    ensures |m| == if |teammates| < TeammateLimit then |teammates| else TeammateLimit
    ensures forall i :: 0 <= i < |m| ==> m[i] == "@" + teammates[i].nick
  {
    var n := if |teammates| < TeammateLimit then |teammates| else TeammateLimit;
    seq(n, i requires 0 <= i < n => "@" + teammates[i].nick)
  }

  /** `change_plan`'s seed `current_status.get('time_slots', [])` (or `[]`
      without a row), or nothing when the row holds a null list, whose
      `.copy()` raises. */
  function CurrentSlots(status: Option<DailyRow>): Option<seq<string>>
  {
    match status
    case None => Some([])
    case Some(row) =>
      match row.timeSlots
      case Missing => Some([])
      case Null => None
      case Listed(slots) => Some(slots)
  }

  /** The branches of `handle_callback`. */
  datatype Route = PlayToday | ToggleSlotRoute | ConfirmRoute | CancelRoute | ChangePlanRoute | EditProfileRoute | Unknown

  /** `handle_callback`'s if-chain over the callback data: every `slot_` tag
      toggles a slot, and only the five fixed tags and the `slot_` tags reach a
      handler. */
  function RouteOf(data: string): (r: Route)
    ensures StartsWith(data, SlotTagPrefix) ==> r == ToggleSlotRoute
    ensures r == Unknown <==>
      && !StartsWith(data, SlotTagPrefix)
      && data !in ["play_today_slots", "confirm_slots", "cancel_slots", "change_plan", "edit_profile"]
  {
    if data == "play_today_slots" then
      FirstCharDiffers(data, SlotTagPrefix);
      PlayToday
    else if StartsWith(data, SlotTagPrefix) then ToggleSlotRoute
    else if data == "confirm_slots" then ConfirmRoute
    else if data == "cancel_slots" then CancelRoute
    else if data == "change_plan" then ChangePlanRoute
    else if data == "edit_profile" then EditProfileRoute
    else Unknown
  }

  /** Every callback button of `kb` reaches a handler of `handle_callback`. */
  predicate Routed(kb: Keyboard)
  {
    forall i, j :: 0 <= i < |kb| && 0 <= j < |kb[i]| && kb[i][j].action.Callback? ==>
      RouteOf(kb[i][j].action.data) != Unknown
  }

  /** The conversation handler's table: which events a stage takes (the
      stage's own handlers, and the `/cancel` fallback of every stage). */
  predicate ConversationTakes(stage: Stage, ev: Event)
  {
    || ev == Command("cancel")
    || match stage
       case AwaitNick => ev.TextMessage?
       case AwaitRank => ev.Press? && StartsWith(ev.data, RankTagPrefix)
       // `^roles_done$` under `re.match` would also take "roles_done\n"; no
       // button of the bot sends that, so plain equality loses nothing.
       case AwaitRoles => ev.Press? && (StartsWith(ev.data, RoleTagPrefix) || ev.data == "roles_done")
  }

  /** The registration moves only along VALORANT_NICK -> RANK -> ROLES, may
      end from any stage, and starts only from outside the conversation. */
  predicate Allowed(before: Option<Stage>, after: Option<Stage>)
  {
    || after == before
    || (before.None? && after == Some(AwaitNick))
    || (before == Some(AwaitNick) && after == Some(AwaitRank))
    || (before == Some(AwaitRank) && after == Some(AwaitRoles))
    || (before.Some? && after.None?)
  }

  /** A map that differs from another at most at `k` agrees with it once
      `k` is removed from both. */
  lemma OthersKept<V>(m: map<UserId, V>, m': map<UserId, V>, k: UserId)
    requires m' == m || (k in m' && m' == m[k := m'[k]])
    ensures m' - {k} == m - {k}
  {
  }

  /** The stage after a handler's step. */
  function After(before: Option<Stage>, step: Step): Option<Stage>
  {
    match step
    case Goto(s) => Some(s)
    case Finish => None
    case Stay => before
  }

  /** What the session keeps is well formed: a stored nickname is stripped
      and of valid length, a role list has no duplicates. */
  predicate DataOk(d: UserData)
  {
    && (d.nick.Some? ==> WellFormedNick(d.nick.value))
    && (d.roles.Some? ==> NoDup(d.roles.value))
  }

  /** Each stage has the data its handlers read. */
  predicate StageOk(stage: Stage, d: UserData)
  {
    match stage
    case AwaitNick => true
    case AwaitRank => d.nick.Some?
    case AwaitRoles => d.nick.Some? && d.rank.Some? && d.roles.Some?
  }

  /** Every store call carries well-formed arguments: a saved profile has a
      valid nickname and no repeated role, a day marked as playing has at
      least one slot, and the teammate query asks for at most three others. */
  predicate CallOk(c: StoreCall)
  {
    match c
    case SavePlayer(_, nick, _, roles) => WellFormedNick(nick) && NoDup(roles)
    case UpdateDailyStatus(_, _, playing, slots) => playing ==> slots != []
    case PlayersBySlots(_, slots, limit, _) => slots != [] && limit == TeammateLimit
    case _ => true
  }

  /** The user a store call is made for. */
  function CallerOf(c: StoreCall): UserId
  {
    match c
    case GetPlayer(id) => id
    case SavePlayer(id, _, _, _) => id
    case GetDailyStatus(id, _) => id
    case UpdateDailyStatus(id, _, _, _) => id
    case PlayersBySlots(_, _, _, excludeId) => excludeId
  }

  /** The state a handler can change besides the conversation stage: every
      user's `user_data` and the store calls made so far. */
  datatype Snapshot = Snapshot(userData: map<UserId, UserData>, calls: seq<StoreCall>)

  /** A user's `user_data` in a snapshot; empty until first written. */
  function DataIn(s: Snapshot, u: UserId): UserData
  {
    if u in s.userData then s.userData[u] else NoData
  }

  /** `s` with user `u`'s `user_data` replaced by `d`. */
  function Written(s: Snapshot, u: UserId, d: UserData): Snapshot
  {
    Snapshot(s.userData[u := d], s.calls)
  }

  /** The step recorded by a stage that is not kept: the new state, or `END`. */
  function StepFrom(after: Option<Stage>): Step
  {
    match after
    case Some(s) => Goto(s)
    case None => Finish
  }

  // What each handler does, from the state `b` before it to the state `a`
  // after it, with the step it returns and the reply the user sees.

  /** `start`: one `get_player` call; a registered user is greeted with the
      main menu and the conversation ends, anyone else is asked for a
      nickname. */
  predicate StartDone(uid: UserId, found: Option<Player>, b: Snapshot, a: Snapshot, step: Step, reply: Reply)
  {
    && a == Snapshot(b.userData, b.calls + [GetPlayer(uid)])
    && match found
       case Some(p) => step == Finish && reply == Show(Welcome(p.nick, p.rank, p.roles), MainMenu())
       case None => step == Goto(AwaitNick) && reply == Show(AskNick, [])
  }

  /** `get_valorant_nick`: the stripped text is stored and the rank asked for
      exactly when it has 2 to 30 characters; otherwise nothing changes and
      the nickname is asked for again. */
  predicate NickDone(uid: UserId, text: string, b: Snapshot, a: Snapshot, step: Step, reply: Reply)
  {
    var nick := Strip(text);
    if ValidNick(nick) then
      && a == Written(b, uid, DataIn(b, uid).(nick := Some(nick)))
      && step == Goto(AwaitRank) && reply == Show(AskRank(nick), RankKeyboard())
    else
      a == b && step == Goto(AwaitNick) && reply == Show(BadNick, [])
  }

  /** `get_rank`: stores the data with `rank_` removed, resets the roles to
      the empty list and asks for roles. */
  predicate RankDone(uid: UserId, data: string, b: Snapshot, a: Snapshot, step: Step, reply: Reply)
  {
    var rank := RemoveAll(data, RankTagPrefix);
    && a == Written(b, uid, DataIn(b, uid).(rank := Some(rank), roles := Some([])))
    && step == Goto(AwaitRoles) && reply == Show(AskRoles(rank), RolesKeyboard())
  }

  /** `get_roles`: stores the roles with the named role toggled, then shows
      them with the stored rank; without a stored rank it raises after the
      toggle. */
  predicate RolesDone(uid: UserId, data: string, b: Snapshot, a: Snapshot, step: Step, reply: Reply)
  {
    var d := DataIn(b, uid);
    var roles := Toggled(d.roles.GetOr([]), RemoveAll(data, RoleTagPrefix));
    && a == Written(b, uid, d.(roles := Some(roles)))
    && match d.rank
       case Some(rank) => step == Goto(AwaitRoles) && reply == Show(RolesChosen(rank, |roles|), RoleToggleKeyboard(roles))
       case None => step == Stay && reply == Raised
  }

  /** `finish_registration`: one `save_player` call with the collected
      nickname, rank and roles, and `END` whether or not it succeeded; a
      missing key raises before anything is saved. */
  predicate FinishDone(uid: UserId, saved: bool, b: Snapshot, a: Snapshot, step: Step, reply: Reply)
  {
    var d := DataIn(b, uid);
    if d.nick.Some? && d.rank.Some? && d.roles.Some? then
      && a == Snapshot(b.userData, b.calls + [SavePlayer(uid, d.nick.value, d.rank.value, d.roles.value)])
      && step == Finish
      && reply == (if saved then Show(Registered(d.nick.value, d.rank.value, d.roles.value), MainMenu())
                   else Show(RegistrationFailed, []))
    else
      a == b && step == Stay && reply == Raised
  }

  /** `cancel`: `END`, and nothing else changes. */
  predicate CancelDone(b: Snapshot, a: Snapshot, step: Step, reply: Reply)
  {
    a == b && step == Finish && reply == Show(RegistrationCancelled, [])
  }

  /** `play_today_slots`: the selection becomes empty and is shown. */
  predicate PlayTodayDone(uid: UserId, b: Snapshot, a: Snapshot, reply: Reply)
  {
    && a == Written(b, uid, DataIn(b, uid).(selectedSlots := Some([])))
    && reply == Show(PickSlots, SlotKeyboard([]))
  }

  /** `toggle_slot`: the named slot is toggled in the selection, which is
      shown with its size. */
  predicate ToggleSlotDone(uid: UserId, data: string, b: Snapshot, a: Snapshot, reply: Reply)
  {
    var d := DataIn(b, uid);
    var slots := Toggled(d.selectedSlots.GetOr([]), RemoveAll(data, SlotTagPrefix));
    && a == Written(b, uid, d.(selectedSlots := Some(slots)))
    && reply == Show(SlotsChosen(|slots|), SlotKeyboard(slots))
  }

  /** `confirm_slots`: an empty selection is refused with no store call;
      otherwise today's status is written as playing in the selected slots,
      and after a successful write up to three other players in those slots
      are asked for and mentioned. */
  predicate ConfirmDone(uid: UserId, today: Date, saved: bool, teammates: seq<Player>, b: Snapshot, a: Snapshot, reply: Reply)
  {
    var slots := DataIn(b, uid).selectedSlots.GetOr([]);
    if slots == [] then
      a == b && reply == Show(NeedOneSlot, SlotKeyboard([]))
    else if !saved then
      && a == Snapshot(b.userData, b.calls + [UpdateDailyStatus(uid, today, true, slots)])
      && reply == Show(SaveFailed, MainMenu())
    else
      && a == Snapshot(b.userData, b.calls + [UpdateDailyStatus(uid, today, true, slots),
                                              PlayersBySlots(today, slots, TeammateLimit, uid)])
      && reply == (match SlotWords(slots)
                   case Some(words) => Show(PlanSaved(today, words, Mentions(teammates)), MainMenu())
                   case None => Raised)
  }

  /** `change_plan`: one `get_daily_status` call; the selection becomes a
      copy of today's stored slots (none without a row) and is shown. A null
      list raises before the write, an unknown slot after it. */
  predicate ChangePlanDone(uid: UserId, today: Date, status: Option<DailyRow>, b: Snapshot, a: Snapshot, reply: Reply)
  {
    var made := b.calls + [GetDailyStatus(uid, today)];
    match CurrentSlots(status)
    case None => a == Snapshot(b.userData, made) && reply == Raised
    case Some(current) =>
      && a == Snapshot(b.userData[uid := DataIn(b, uid).(selectedSlots := Some(current))], made)
      && reply == (if current == [] then Show(ChangePlanPrompt([]), SlotKeyboard([]))
                   else match SlotWords(current)
                        case Some(words) => Show(ChangePlanPrompt(words), SlotKeyboard(current))
                        case None => Raised)
  }

  /** `handle_callback`: the handler the callback data names runs;
      `cancel_slots` and `edit_profile` only reply, unknown data only gets a
      notice. */
  predicate CallbackDone(uid: UserId, data: string, today: Date, answers: StoreAnswers, b: Snapshot, a: Snapshot, reply: Reply)
  {
    match RouteOf(data)
    case PlayToday => PlayTodayDone(uid, b, a, reply)
    case ToggleSlotRoute => ToggleSlotDone(uid, data, b, a, reply)
    case ConfirmRoute => ConfirmDone(uid, today, answers.saved, answers.teammates, b, a, reply)
    case CancelRoute => a == b && reply == Show(SelectionCancelled, MainMenu())
    case ChangePlanRoute => ChangePlanDone(uid, today, answers.status, b, a, reply)
    case EditProfileRoute => a == b && reply == Show(EditProfileHint, [])
    case Unknown => a == b && reply == Notice(UnknownCommand)
  }

  /** The conversation handler in `stage`: `/cancel` runs `cancel`; otherwise
      VALORANT_NICK runs `get_valorant_nick` on the text, RANK runs
      `get_rank`, ROLES runs `get_roles` on a `role_` tag and
      `finish_registration` on `roles_done`. */
  predicate ConversationDone(stage: Stage, uid: UserId, ev: Event, answers: StoreAnswers, b: Snapshot, a: Snapshot, step: Step, reply: Reply)
  {
    if ev == Command("cancel") then CancelDone(b, a, step, reply)
    else match stage
      case AwaitNick => ev.TextMessage? && NickDone(uid, ev.content, b, a, step, reply)
      case AwaitRank => ev.Press? && RankDone(uid, ev.data, b, a, step, reply)
      case AwaitRoles =>
        && ev.Press?
        && if StartsWith(ev.data, RoleTagPrefix) then RolesDone(uid, ev.data, b, a, step, reply)
           else FinishDone(uid, answers.saved, b, a, step, reply)
  }

  /** A snapshot changes only user `uid`'s data and only by appending store
      calls made for `uid`. */
  predicate LocalTo(uid: UserId, b: Snapshot, a: Snapshot)
  {
    && a.userData - {uid} == b.userData - {uid}
    && b.calls <= a.calls
    && forall i :: |b.calls| <= i < |a.calls| ==> CallerOf(a.calls[i]) == uid
  }

  /** A button press touches only the presser's data and store calls. */
  lemma CallbackLocal(uid: UserId, data: string, today: Date, answers: StoreAnswers, b: Snapshot, a: Snapshot, reply: Reply)
    requires CallbackDone(uid, data, today, answers, b, a, reply)
    ensures LocalTo(uid, b, a)
  {
    if a.userData != b.userData {
      OthersKept(b.userData, a.userData, uid);
    }
  }

  /** A conversation turn touches only the sender's data and store calls. */
  lemma ConversationLocal(stage: Stage, uid: UserId, ev: Event, answers: StoreAnswers, b: Snapshot, a: Snapshot, step: Step, reply: Reply)
    requires ConversationDone(stage, uid, ev, answers, b, a, step, reply)
    ensures LocalTo(uid, b, a)
  {
    if a.userData != b.userData {
      OthersKept(b.userData, a.userData, uid);
    }
  }

  /** Where the application sends an event: the conversation in its current
      stage, the conversation's entry point, `handle_callback`, or nowhere. */
  datatype Target = Conversation(stage: Stage) | Entry | Router | Nowhere

  /** The application's handler order: the conversation handler first (its
      entry point `/start` outside the conversation, otherwise the current
      stage's handlers and the `/cancel` fallback), then `handle_callback`
      for any button press the conversation did not take. */
  function TargetOf(stage: Option<Stage>, ev: Event): Target
  {
    if stage.Some? && ConversationTakes(stage.value, ev) then Conversation(stage.value)
    else if stage.None? && ev == Command("start") then Entry
    else if ev.Press? then Router
    else Nowhere
  }

  /** The bot's state: every user's `user_data`, every user's conversation
      stage, and the store calls made so far. */
  class Engine {
    var userData: map<UserId, UserData>
    var stages: map<UserId, Stage>
    var calls: seq<StoreCall>

    function Data(u: UserId): UserData
      reads this
    {
      DataIn(Snap(), u)
    }

    function StageOf(u: UserId): Option<Stage>
      reads this
    {
      if u in stages then Some(stages[u]) else None
    }

    function Snap(): Snapshot
      reads this
    {
      Snapshot(userData, calls)
    }

    ghost predicate Valid()
      reads this
    {
      && (forall u :: u in userData ==> DataOk(userData[u]))
      && (forall u :: u in stages ==> StageOk(stages[u], Data(u)))
      && (forall i :: 0 <= i < |calls| ==> CallOk(calls[i]))
    }

    constructor ()
      ensures Valid()
      ensures userData == map[] && stages == map[] && calls == []
    {
      userData, stages, calls := map[], map[], [];
    }

    /** Writes one user's `user_data`, keeping the invariant. */
    method Put(uid: UserId, d: UserData)
      requires Valid()
      requires DataOk(d)
      requires uid in stages ==> StageOk(stages[uid], d)
      modifies this
      ensures Valid()
      ensures userData == old(userData)[uid := d]
      ensures stages == old(stages) && calls == old(calls)
    {
      userData := userData[uid := d];
      forall u | u in stages ensures StageOk(stages[u], Data(u)) {
        if u != uid {
          assert Data(u) == old(Data(u));
        }
      }
    }

    /** `start`. */
    method Start(uid: UserId, found: Option<Player>) returns (step: Step, reply: Reply)
      requires Valid()
      modifies this
      ensures Valid() && stages == old(stages)
      ensures StartDone(uid, found, old(Snap()), Snap(), step, reply)
    {
      calls := calls + [GetPlayer(uid)];
      match found
      case Some(p) =>
        step, reply := Finish, Show(Welcome(p.nick, p.rank, p.roles), MainMenu());
      case None =>
        step, reply := Goto(AwaitNick), Show(AskNick, []);
    }

    /** `get_valorant_nick`; a stored nickname is kept stripped. */
    method GetValorantNick(uid: UserId, text: string) returns (step: Step, reply: Reply)
      requires Valid()
      modifies this
      ensures Valid() && stages == old(stages)
      ensures NickDone(uid, text, old(Snap()), Snap(), step, reply)
    {
      var nick := Strip(text);
      if |nick| < 2 || |nick| > 30 {
        return Goto(AwaitNick), Show(BadNick, []);
      }
      StripIdempotent(text);
      Put(uid, Data(uid).(nick := Some(nick)));
      step, reply := Goto(AwaitRank), Show(AskRank(nick), RankKeyboard());
    }

    /** `get_rank`. */
    method GetRank(uid: UserId, data: string) returns (step: Step, reply: Reply)
      requires Valid()
      modifies this
      ensures Valid() && stages == old(stages)
      ensures RankDone(uid, data, old(Snap()), Snap(), step, reply)
    {
      var rank := RemoveAll(data, RankTagPrefix);
      Put(uid, Data(uid).(rank := Some(rank), roles := Some([])));
      step, reply := Goto(AwaitRoles), Show(AskRoles(rank), RolesKeyboard());
    }

    /** `get_roles`; the role list stays free of duplicates. */
    method GetRoles(uid: UserId, data: string) returns (step: Step, reply: Reply)
      requires Valid()
      modifies this
      ensures Valid() && stages == old(stages)
      ensures RolesDone(uid, data, old(Snap()), Snap(), step, reply)
    {
      var role := RemoveAll(data, RoleTagPrefix);
      var d := Data(uid);
      var roles := d.roles.GetOr([]);
      ToggleFlips(roles, role);
      roles := Toggled(roles, role);
      Put(uid, d.(roles := Some(roles)));
      var kb := BuildRoleToggleKeyboard(roles);
      match d.rank
      case None =>
        step, reply := Stay, Raised;
      case Some(rank) =>
        step, reply := Goto(AwaitRoles), Show(RolesChosen(rank, |roles|), kb);
    }

    /** `finish_registration`; the saved profile is well formed. */
    method FinishRegistration(uid: UserId, saved: bool) returns (step: Step, reply: Reply)
      requires Valid()
      modifies this
      ensures Valid() && stages == old(stages)
      ensures FinishDone(uid, saved, old(Snap()), Snap(), step, reply)
    {
      var d := Data(uid);
      if d.nick.None? || d.rank.None? || d.roles.None? {
        return Stay, Raised;
      }
      assert DataOk(d);
      calls := calls + [SavePlayer(uid, d.nick.value, d.rank.value, d.roles.value)];
      step := Finish;
      if saved {
        reply := Show(Registered(d.nick.value, d.rank.value, d.roles.value), MainMenu());
      } else {
        reply := Show(RegistrationFailed, []);
      }
    }

    /** `cancel`: ends the conversation; the session data stays as it was. */
    method Cancel() returns (step: Step, reply: Reply)
      ensures step == Finish && reply == Show(RegistrationCancelled, [])
    {
      step, reply := Finish, Show(RegistrationCancelled, []);
    }

    /** `play_today_slots`. */
    method PlayTodaySlots(uid: UserId) returns (reply: Reply)
      requires Valid()
      modifies this
      ensures Valid() && stages == old(stages)
      ensures PlayTodayDone(uid, old(Snap()), Snap(), reply)
    {
      Put(uid, Data(uid).(selectedSlots := Some([])));
      var kb := BuildSlotKeyboard([]);
      reply := Show(PickSlots, kb);
    }

    /** `toggle_slot`. */
    method ToggleSlot(uid: UserId, data: string) returns (reply: Reply)
      requires Valid()
      modifies this
      ensures Valid() && stages == old(stages)
      ensures ToggleSlotDone(uid, data, old(Snap()), Snap(), reply)
    {
      var slot := RemoveAll(data, SlotTagPrefix);
      var d := Data(uid);
      var slots := Toggled(d.selectedSlots.GetOr([]), slot);
      Put(uid, d.(selectedSlots := Some(slots)));
      var kb := BuildSlotKeyboard(slots);
      reply := Show(SlotsChosen(|slots|), kb);
    }

    /** `confirm_slots`; a day is never written as playing in no slot. */
    method ConfirmSlots(uid: UserId, today: Date, saved: bool, teammates: seq<Player>) returns (reply: Reply)
      requires Valid()
      modifies this
      ensures Valid() && stages == old(stages)
      ensures ConfirmDone(uid, today, saved, teammates, old(Snap()), Snap(), reply)
    {
      var slots := Data(uid).selectedSlots.GetOr([]);
      if slots == [] {
        var kb := BuildSlotKeyboard([]);
        return Show(NeedOneSlot, kb);
      }
      calls := calls + [UpdateDailyStatus(uid, today, true, slots)];
      if !saved {
        return Show(SaveFailed, MainMenu());
      }
      calls := calls + [PlayersBySlots(today, slots, TeammateLimit, uid)];
      match SlotWords(slots)
      case None =>
        reply := Raised;
      case Some(words) =>
        reply := Show(PlanSaved(today, words, Mentions(teammates)), MainMenu());
    }

    /** `cancel_slots`: back to the main menu; the selection is kept. */
    method CancelSlots() returns (reply: Reply)
      ensures reply == Show(SelectionCancelled, MainMenu())
    {
      reply := Show(SelectionCancelled, MainMenu());
    }

    /** `change_plan`. */
    method ChangePlan(uid: UserId, today: Date, status: Option<DailyRow>) returns (reply: Reply)
      requires Valid()
      modifies this
      ensures Valid() && stages == old(stages)
      ensures ChangePlanDone(uid, today, status, old(Snap()), Snap(), reply)
    {
      calls := calls + [GetDailyStatus(uid, today)];
      var seed := CurrentSlots(status);
      if seed.None? {
        return Raised;
      }
      var current := seed.value;
      Put(uid, Data(uid).(selectedSlots := Some(current)));
      if current == [] {
        var kb := BuildSlotKeyboard([]);
        return Show(ChangePlanPrompt([]), kb);
      }
      match SlotWords(current)
      case None =>
        reply := Raised;
      case Some(words) =>
        var kb := BuildSlotKeyboard(current);
        reply := Show(ChangePlanPrompt(words), kb);
    }

    /** `edit_profile`: only tells the user to register again. */
    method EditProfile() returns (reply: Reply)
      ensures reply == Show(EditProfileHint, [])
    {
      reply := Show(EditProfileHint, []);
    }

    /** `handle_callback`: a button press reaches the handler its data names.
        It never moves the conversation, and it touches only the pressing
        user's data. */
    method HandleCallback(uid: UserId, data: string, today: Date, answers: StoreAnswers) returns (reply: Reply)
      requires Valid()
      modifies this
      ensures Valid() && stages == old(stages)
      ensures CallbackDone(uid, data, today, answers, old(Snap()), Snap(), reply)
      ensures LocalTo(uid, old(Snap()), Snap())
    {
      ghost var b := Snap();
      match RouteOf(data) {
        case PlayToday =>
          reply := PlayTodaySlots(uid);
          assert PlayTodayDone(uid, b, Snap(), reply);
        case ToggleSlotRoute =>
          reply := ToggleSlot(uid, data);
          assert ToggleSlotDone(uid, data, b, Snap(), reply);
        case ConfirmRoute =>
          reply := ConfirmSlots(uid, today, answers.saved, answers.teammates);
          assert ConfirmDone(uid, today, answers.saved, answers.teammates, b, Snap(), reply);
        case CancelRoute =>
          reply := CancelSlots();
        case ChangePlanRoute =>
          reply := ChangePlan(uid, today, answers.status);
          assert ChangePlanDone(uid, today, answers.status, b, Snap(), reply);
        case EditProfileRoute =>
          reply := EditProfile();
        case Unknown =>
          reply := Notice(UnknownCommand);
      }
      CallbackLocal(uid, data, today, answers, b, Snap(), reply);
    }

    /** Records the step a conversation handler returned. */
    method Apply(uid: UserId, step: Step)
      requires Valid()
      requires step.Goto? ==> StageOk(step.stage, Data(uid))
      modifies this
      ensures Valid()
      ensures userData == old(userData) && calls == old(calls)
      ensures stages - {uid} == old(stages) - {uid}
      ensures StageOf(uid) == After(old(StageOf(uid)), step)
    {
      match step
      case Goto(s) => stages := stages[uid := s];
      case Finish => stages := stages - {uid};
      case Stay =>
    }

    /** The conversation handler in a stage that takes the event: the
        stage's handler (or the `/cancel` fallback) runs, never raises, and
        returns a step along the registration order. */
    method Converse(uid: UserId, ev: Event, answers: StoreAnswers) returns (step: Step, reply: Reply)
      requires Valid()
      requires uid in stages && ConversationTakes(stages[uid], ev)
      modifies this
      ensures Valid() && stages == old(stages)
      ensures ConversationDone(old(stages[uid]), uid, ev, answers, old(Snap()), Snap(), step, reply)
      ensures LocalTo(uid, old(Snap()), Snap())
      ensures reply != Raised && step != Stay
      ensures Allowed(Some(old(stages[uid])), After(Some(old(stages[uid])), step))
      ensures step.Goto? ==> StageOk(step.stage, Data(uid))
    {
      var stage := stages[uid];
      assert StageOk(stage, Data(uid));
      ghost var b := Snap();
      if ev == Command("cancel") {
        step, reply := Cancel();
      } else {
        match stage {
          case AwaitNick =>
            step, reply := GetValorantNick(uid, ev.content);
            assert NickDone(uid, ev.content, b, Snap(), step, reply);
          case AwaitRank =>
            step, reply := GetRank(uid, ev.data);
            assert RankDone(uid, ev.data, b, Snap(), step, reply);
          case AwaitRoles =>
            if StartsWith(ev.data, RoleTagPrefix) {
              step, reply := GetRoles(uid, ev.data);
              assert RolesDone(uid, ev.data, b, Snap(), step, reply);
            } else {
              step, reply := FinishRegistration(uid, answers.saved);
              assert FinishDone(uid, answers.saved, b, Snap(), step, reply);
            }
        }
      }
      ConversationLocal(stage, uid, ev, answers, b, Snap(), step, reply);
    }

    /** The conversation handler's turn: `Converse`, then its step recorded
        as the user's new stage. */
    method Advance(uid: UserId, ev: Event, answers: StoreAnswers) returns (reply: Reply)
      requires Valid()
      requires uid in stages && ConversationTakes(stages[uid], ev)
      modifies this
      ensures Valid()
      ensures ConversationDone(old(stages[uid]), uid, ev, answers, old(Snap()), Snap(), StepFrom(StageOf(uid)), reply)
      ensures reply != Raised
      ensures LocalTo(uid, old(Snap()), Snap())
      ensures stages - {uid} == old(stages) - {uid}
      ensures Allowed(old(StageOf(uid)), StageOf(uid))
    {
      var step;
      step, reply := Converse(uid, ev, answers);
      Apply(uid, step);
    }

    /** One incoming event, sent where `TargetOf` says: the sender's data,
        stage and store calls change exactly as the reached handler's effect
        says, and nothing of any other user changes. The stage moves along the
        registration order, the conversation handlers never raise, and every
        store call made is well formed. */
    method Dispatch(uid: UserId, ev: Event, today: Date, answers: StoreAnswers) returns (reply: Reply)
      requires Valid()
      modifies this
      ensures Valid()
      ensures TargetOf(old(StageOf(uid)), ev).Conversation? ==>
        && ConversationDone(old(stages[uid]), uid, ev, answers, old(Snap()), Snap(), StepFrom(StageOf(uid)), reply)
        && reply != Raised
      ensures TargetOf(old(StageOf(uid)), ev) == Entry ==>
        StartDone(uid, answers.player, old(Snap()), Snap(), StepFrom(StageOf(uid)), reply)
      ensures TargetOf(old(StageOf(uid)), ev) == Router ==>
        stages == old(stages) && CallbackDone(uid, ev.data, today, answers, old(Snap()), Snap(), reply)
      ensures TargetOf(old(StageOf(uid)), ev) == Nowhere ==>
        reply == Ignored && userData == old(userData) && stages == old(stages) && calls == old(calls)
      ensures LocalTo(uid, old(Snap()), Snap())
      ensures stages - {uid} == old(stages) - {uid}
      ensures Allowed(old(StageOf(uid)), StageOf(uid))
    {
      var step: Step;
      if uid in stages && ConversationTakes(stages[uid], ev) {
        reply := Advance(uid, ev, answers);
      } else if uid !in stages && ev == Command("start") {
        step, reply := Start(uid, answers.player);
        Apply(uid, step);
      } else if ev.Press? {
        reply := HandleCallback(uid, ev.data, today, answers);
      } else {
        reply := Ignored;
      }
    }
  }

  /** Every button of the main menu, the slot keyboard and the daily
      notification reaches a handler of `handle_callback`; in particular a
      slot button reaches `toggle_slot`, which decodes the slot it shows. */
  lemma MenusRouted(selected: seq<string>)
    ensures Routed(MainMenu()) && Routed(NotificationKeyboard()) && Routed(SlotKeyboard(selected))
    ensures forall i :: 0 <= i < |SlotChoices| ==>
      RouteOf(SlotTagPrefix + SlotChoices[i].id) == ToggleSlotRoute
      && RemoveAll(SlotTagPrefix + SlotChoices[i].id, SlotTagPrefix) == SlotChoices[i].id
  {
    SlotTagsRoundTrip();
    var kb: Keyboard := SlotKeyboard(selected);
    var rows: Keyboard := ChoiceRows(SlotChoices, selected, SlotTagPrefix);
    forall i, j | 0 <= i < |kb| && 0 <= j < |kb[i]| && kb[i][j].action.Callback?
      ensures RouteOf(kb[i][j].action.data) != Unknown
    {
      if i < |SlotChoices| {
        assert kb[i] == rows[i];
        assert RouteOf(SlotTagPrefix + SlotChoices[i].id) == ToggleSlotRoute;
      }
    }
  }

  /** Every callback button of `kb` is taken by the conversation in `stage`. */
  predicate TakenIn(stage: Stage, kb: Keyboard)
  {
    forall i, j :: 0 <= i < |kb| && 0 <= j < |kb[i]| && kb[i][j].action.Callback? ==>
      ConversationTakes(stage, Press(kb[i][j].action.data))
  }

  /** No callback button of `kb` is taken by the conversation, whatever the
      stage: such a press always reaches `handle_callback`. */
  predicate Bypasses(kb: Keyboard)
  {
    forall stage: Stage, i, j :: 0 <= i < |kb| && 0 <= j < |kb[i]| && kb[i][j].action.Callback? ==>
      !ConversationTakes(stage, Press(kb[i][j].action.data))
  }

  /** A tag whose first character is not `r` is taken by no stage
      (the conversation's tags all start with `rank_`, `role_` or are
      `roles_done`). */
  lemma UntakenTag(stage: Stage, data: string)
    requires data != [] && data[0] != 'r'
    ensures !ConversationTakes(stage, Press(data))
  {
    assert !StartsWith(data, RankTagPrefix) by { FirstCharDiffers(data, RankTagPrefix); }
    assert !StartsWith(data, RoleTagPrefix) by { FirstCharDiffers(data, RoleTagPrefix); }
  }

  /** The rank buttons are taken in the rank stage, and the role buttons
      (with or without "done") in the role stage. */
  lemma RegistrationButtonsTaken(roles: seq<string>)
    ensures TakenIn(AwaitRank, RankKeyboard())
    ensures TakenIn(AwaitRoles, RolesKeyboard())
    ensures TakenIn(AwaitRoles, RoleToggleKeyboard(roles))
  {
    RankTagsRoundTrip();
    RoleTagsRoundTrip();
    var kb: Keyboard := RoleToggleKeyboard(roles);
    var rows: Keyboard := ChoiceRows(RoleChoices, roles, RoleTagPrefix);
    forall i, j | 0 <= i < |kb| && 0 <= j < |kb[i]| && kb[i][j].action.Callback?
      ensures ConversationTakes(AwaitRoles, Press(kb[i][j].action.data))
    {
      if i < |RoleChoices| {
        assert kb[i] == rows[i];
      }
    }
  }

  /** The main menu, the slot keyboard and the daily notification bypass the
      conversation: pressed in the middle of a registration, they still reach
      `handle_callback`. */
  lemma MenusBypassConversation(selected: seq<string>)
    ensures Bypasses(MainMenu()) && Bypasses(NotificationKeyboard()) && Bypasses(SlotKeyboard(selected))
  {
    var kb: Keyboard := SlotKeyboard(selected);
    var rows: Keyboard := ChoiceRows(SlotChoices, selected, SlotTagPrefix);
    forall stage: Stage, i, j | 0 <= i < |kb| && 0 <= j < |kb[i]| && kb[i][j].action.Callback?
      ensures !ConversationTakes(stage, Press(kb[i][j].action.data))
    {
      if i < |SlotChoices| {
        assert kb[i] == rows[i];
        assert (SlotTagPrefix + SlotChoices[i].id)[0] == 's';
      }
      UntakenTag(stage, kb[i][j].action.data);
    }
    forall stage: Stage, i, j | 0 <= i < |MainMenu()| && 0 <= j < |MainMenu()[i]| && MainMenu()[i][j].action.Callback?
      ensures !ConversationTakes(stage, Press(MainMenu()[i][j].action.data))
    {
      UntakenTag(stage, MainMenu()[i][j].action.data);
    }
    forall stage: Stage, i, j | 0 <= i < |NotificationKeyboard()| && 0 <= j < |NotificationKeyboard()[i]|
      ensures !ConversationTakes(stage, Press(NotificationKeyboard()[i][j].action.data))
    {
      UntakenTag(stage, NotificationKeyboard()[i][j].action.data);
    }
  }
}
