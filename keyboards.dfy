/** The inline keyboards the bot shows (bot/main.py:78-131 and the role
    keyboard built inside `get_roles`, bot/main.py:221-238). A keyboard is a
    list of rows; each row a list of buttons; each button a label and either a
    callback tag sent back to the bot or an external link the bot never
    interprets. Labels are opaque text. */
module Keyboards {
  import opened Text

  datatype Action = Callback(data: string) | Link(url: string)

  datatype Button = Button(caption: string, action: Action)

  type Keyboard = seq<seq<Button>>

  /** One selectable item: the identifier carried in its callback tag and
      the label shown to the user. */
  datatype Choice = Choice(id: string, caption: string)

  /** The prefix that marks a selected item. */
  const Check: string := "✅ "

  /** The four time slots in the order of the `TIME_SLOTS` dictionary. */
  const SlotChoices: seq<Choice> := [
    Choice("morning", "🌅 Утро (6:00-12:00)"),
    Choice("day", "☀️ День (12:00-18:00)"),
    Choice("evening", "🌆 Вечер (18:00-00:00)"),
    Choice("night", "🌙 Ночь (00:00-6:00)")
  ]

  /** The four roles; `get_roles_keyboard` and `get_roles` list the same
      pairs in the same order. */
  const RoleChoices: seq<Choice> := [
    Choice("duelist", "💨 Дуэлист"),
    Choice("sentinel", "🛡 Страж"),
    Choice("initiator", "⚡ Инициатор"),
    Choice("controller", "🎯 Контроллер")
  ]

  /** The eight-tier rank ladder of `get_rank_keyboard`. */
  const Ranks: seq<string> :=
    ["Железо", "Бронза", "Серебро", "Золото", "Платина", "Алмаз", "Бессмертный", "Сияющий"]

  const SlotTagPrefix: string := "slot_"
  const RoleTagPrefix: string := "role_"
  const RankTagPrefix: string := "rank_"

  const ConfirmSlotsButton := Button("✅ Подтвердить выбор", Callback("confirm_slots"))
  const CancelSlotsButton := Button("❌ Отмена", Callback("cancel_slots"))
  const RolesDoneButton := Button("✅ Готово", Callback("roles_done"))

  /** The label of a button carries the selection mark. */
  predicate Marked(caption: string)
  {
    StartsWith(caption, Check)
  }

  /** `"✅ " if selected else ""`. */
  function Mark(selected: bool): string
  {
    if selected then Check else ""
  }

  /** The one-button row of a selectable item. */
  function ChoiceRow(c: Choice, selected: seq<string>, prefix: string): seq<Button>
  {
    [Button(Mark(c.id in selected) + c.caption, Callback(prefix + c.id))]
  }

  /** One row per item, in the table's order, each marked when selected. */
  function ChoiceRows(choices: seq<Choice>, selected: seq<string>, prefix: string): Keyboard
  {
    seq(|choices|, i requires 0 <= i < |choices| => ChoiceRow(choices[i], selected, prefix))
  }

  /** `get_time_slots_keyboard(selected_slots)`. */
  function SlotKeyboard(selected: seq<string>): Keyboard
  {
    ChoiceRows(SlotChoices, selected, SlotTagPrefix)
      + (if selected != [] then [[ConfirmSlotsButton]] else [])
      + [[CancelSlotsButton]]
  }

  /** The keyboard `get_roles` builds after each toggle. */
  function RoleToggleKeyboard(roles: seq<string>): Keyboard
  {
    ChoiceRows(RoleChoices, roles, RoleTagPrefix)
      + (if roles != [] then [[RolesDoneButton]] else [])
  }

  /** `get_roles_keyboard()`: the plain role list shown after the rank. */
  function RolesKeyboard(): Keyboard
  {
    seq(|RoleChoices|, i requires 0 <= i < |RoleChoices| =>
      [Button(RoleChoices[i].caption, Callback(RoleTagPrefix + RoleChoices[i].id))])
  }

  /** `get_rank_keyboard()`. */
  function RankKeyboard(): Keyboard
  {
    seq(|Ranks|, i requires 0 <= i < |Ranks| => [Button(Ranks[i], Callback(RankTagPrefix + Ranks[i]))])
  }

  /** `get_main_menu_keyboard()`: three callbacks and one external link. */
  function MainMenu(): Keyboard
  {
    [
      [Button("🎮 Буду играть сегодня", Callback("play_today_slots"))],
      [Button("📝 Изменить план на сегодня", Callback("change_plan"))],
      [Button("👥 Кто играет сегодня?", Link("https://valorant-team-finder-1.vercel.app"))],
      [Button("⚙️ Изменить данные", Callback("edit_profile"))]
    ]
  }

  /** The two-button keyboard of the daily notification. */
  function NotificationKeyboard(): Keyboard
  {
    [
      [Button("🎮 Буду играть сегодня", Callback("play_today_slots"))],
      [Button("❌ Не буду играть", Callback("cancel_slots"))]
    ]
  }

  /** Some button of `kb` sends `data` back. */
  predicate HasCallback(kb: Keyboard, data: string)
  {
    exists i, j :: 0 <= i < |kb| && 0 <= j < |kb[i]| && kb[i][j].action == Callback(data)
  }

  /** The loop that builds the item rows (`for slot_id, slot_name in
      TIME_SLOTS.items(): keyboard.append(...)`, and its twin in `get_roles`). */
  method BuildChoiceRows(choices: seq<Choice>, selected: seq<string>, prefix: string) returns (rows: Keyboard)
    ensures rows == ChoiceRows(choices, selected, prefix)
  {
    rows := [];
    for i := 0 to |choices|
      invariant |rows| == i
      invariant forall k :: 0 <= k < i ==> rows[k] == ChoiceRow(choices[k], selected, prefix)
    {
      var prefixMark := if choices[i].id in selected then Check else "";
      rows := rows + [[Button(prefixMark + choices[i].caption, Callback(prefix + choices[i].id))]];
    }
  }

  /** `get_time_slots_keyboard`, built the way the source builds it. */
  method BuildSlotKeyboard(selected: seq<string>) returns (kb: Keyboard)
    ensures kb == SlotKeyboard(selected)
  {
    kb := BuildChoiceRows(SlotChoices, selected, SlotTagPrefix);
    if selected != [] {
      kb := kb + [[ConfirmSlotsButton]];
    }
    kb := kb + [[CancelSlotsButton]];
  }

  /** The role keyboard of `get_roles`, built the way the source builds it. */
  method BuildRoleToggleKeyboard(roles: seq<string>) returns (kb: Keyboard)
    ensures kb == RoleToggleKeyboard(roles)
  {
    kb := BuildChoiceRows(RoleChoices, roles, RoleTagPrefix);
    if roles != [] {
      kb := kb + [[RolesDoneButton]];
    }
  }

  /** No item caption starts like the selection mark. */
  predicate Unmarked(choices: seq<Choice>)
  {
    forall c :: c in choices ==> c.caption != [] && c.caption[0] != Check[0]
  }

  /** The tables of the bot have unmarked captions. */
  lemma TablesUnmarked()
    ensures Unmarked(SlotChoices) && Unmarked(RoleChoices)
  {
  }

  /** A callback can be sent from a stack of rows iff it can be sent from
      one of the two parts. */
  lemma HasCallbackConcat(a: Keyboard, b: Keyboard, tag: string)
    ensures HasCallback(a + b, tag) <==> HasCallback(a, tag) || HasCallback(b, tag)
  {
    var kb := a + b;
    if HasCallback(a, tag) {
      var i, j :| 0 <= i < |a| && 0 <= j < |a[i]| && a[i][j].action == Callback(tag);
      assert kb[i][j] == a[i][j];
    }
    if HasCallback(b, tag) {
      var i, j :| 0 <= i < |b| && 0 <= j < |b[i]| && b[i][j].action == Callback(tag);
      assert kb[|a| + i][j] == b[i][j];
    }
    if HasCallback(kb, tag) {
      var i, j :| 0 <= i < |kb| && 0 <= j < |kb[i]| && kb[i][j].action == Callback(tag);
      if i < |a| {
        assert a[i][j] == kb[i][j];
      } else {
        assert b[i - |a|][j] == kb[i][j];
      }
    }
  }

  /** The item rows: one per item, in table order, marked exactly when
      selected, each sending `prefix + id`, and none sending a tag that does
      not start with `prefix`. */
  lemma ChoiceRowsShape(choices: seq<Choice>, selected: seq<string>, prefix: string, tag: string)
    requires Unmarked(choices) && !StartsWith(tag, prefix)
    ensures var rows := ChoiceRows(choices, selected, prefix);
      && |rows| == |choices|
      && (forall i :: 0 <= i < |choices| ==>
            |rows[i]| == 1 && rows[i][0].action == Callback(prefix + choices[i].id)
            && (Marked(rows[i][0].caption) <==> choices[i].id in selected))
      && !HasCallback(rows, tag)
  {
    var rows: Keyboard := ChoiceRows(choices, selected, prefix);
    forall i | 0 <= i < |choices|
      ensures Marked(rows[i][0].caption) <==> choices[i].id in selected
    {
      assert choices[i] in choices;
    }
  }

  /** A tag whose first character differs from the prefix's does not start
      with it. */
  lemma FirstCharDiffers(tag: string, prefix: string)
    requires tag != [] && prefix != [] && tag[0] != prefix[0]
    ensures !StartsWith(tag, prefix)
  {
  }

  /** The slot keyboard: one row per slot in the order morning, day, evening,
      night, each marked exactly when selected and sending `slot_<id>`; a
      confirm row present exactly when the selection is non-empty; the cancel
      row always last. */
  lemma SlotKeyboardShape(selected: seq<string>)
    ensures var kb := SlotKeyboard(selected);
      && |kb| == |SlotChoices| + (if selected != [] then 1 else 0) + 1
      && (forall i :: 0 <= i < |SlotChoices| ==>
            |kb[i]| == 1 && kb[i][0].action == Callback(SlotTagPrefix + SlotChoices[i].id)
            && (Marked(kb[i][0].caption) <==> SlotChoices[i].id in selected))
      && (HasCallback(kb, "confirm_slots") <==> selected != [])
      && kb[|kb| - 1] == [CancelSlotsButton]
  {
    var rows: Keyboard := ChoiceRows(SlotChoices, selected, SlotTagPrefix);
    var confirm: Keyboard := if selected != [] then [[ConfirmSlotsButton]] else [];
    var cancel: Keyboard := [[CancelSlotsButton]];
    TablesUnmarked();
    FirstCharDiffers("confirm_slots", SlotTagPrefix);
    ChoiceRowsShape(SlotChoices, selected, SlotTagPrefix, "confirm_slots");
    HasCallbackConcat(rows, confirm, "confirm_slots");
    HasCallbackConcat(rows + confirm, cancel, "confirm_slots");
    assert HasCallback(confirm, "confirm_slots") <==> selected != [] by {
      if selected != [] { assert confirm[0][0].action == Callback("confirm_slots"); }
    }
    assert !HasCallback(cancel, "confirm_slots");
    assert SlotKeyboard(selected) == rows + confirm + cancel;
  }

  /** The role keyboard after a toggle: one row per role in table order, each
      marked exactly when chosen and sending `role_<id>`; a "done" row present
      exactly when at least one role is chosen. */
  lemma RoleToggleKeyboardShape(roles: seq<string>)
    ensures var kb := RoleToggleKeyboard(roles);
      && |kb| == |RoleChoices| + (if roles != [] then 1 else 0)
      && (forall i :: 0 <= i < |RoleChoices| ==>
            |kb[i]| == 1 && kb[i][0].action == Callback(RoleTagPrefix + RoleChoices[i].id)
            && (Marked(kb[i][0].caption) <==> RoleChoices[i].id in roles))
      && (HasCallback(kb, "roles_done") <==> roles != [])
  {
    var rows: Keyboard := ChoiceRows(RoleChoices, roles, RoleTagPrefix);
    var done: Keyboard := if roles != [] then [[RolesDoneButton]] else [];
    TablesUnmarked();
    assert !StartsWith("roles_done", RoleTagPrefix) by {
      assert "roles_done"[4] != RoleTagPrefix[4];
    }
    ChoiceRowsShape(RoleChoices, roles, RoleTagPrefix, "roles_done");
    HasCallbackConcat(rows, done, "roles_done");
    assert HasCallback(done, "roles_done") <==> roles != [] by {
      if roles != [] { assert done[0][0].action == Callback("roles_done"); }
    }
    assert RoleToggleKeyboard(roles) == rows + done;
  }

  /** The role list shown right after the rank is the toggle keyboard with
      nothing chosen: no marks and no "done" button. */
  lemma RolesKeyboardIsEmptyToggle()
    ensures RolesKeyboard() == RoleToggleKeyboard([])
  {
    var a := RolesKeyboard();
    var b := RoleToggleKeyboard([]);
    forall i | 0 <= i < |RoleChoices| ensures a[i] == b[i] {
      assert Mark(RoleChoices[i].id in []) == "";
      assert "" + RoleChoices[i].caption == RoleChoices[i].caption;
    }
  }

  /** Every rank button's tag starts with `rank_` and decodes, under
      `replace("rank_", "")`, back to the rank it shows. */
  lemma RankTagsRoundTrip()
    ensures |RankKeyboard()| == |Ranks|
    ensures forall i :: 0 <= i < |Ranks| ==>
      var b := RankKeyboard()[i][0];
      && |RankKeyboard()[i]| == 1 && b.caption == Ranks[i] && b.action.Callback?
      && StartsWith(b.action.data, RankTagPrefix)
      && RemoveAll(b.action.data, RankTagPrefix) == Ranks[i]
  {
    forall i | 0 <= i < |Ranks|
      ensures StartsWith(RankTagPrefix + Ranks[i], RankTagPrefix)
      ensures RemoveAll(RankTagPrefix + Ranks[i], RankTagPrefix) == Ranks[i]
    {
      assert '_' !in Ranks[i];
      assert RankTagPrefix[4] == '_';
      TagRoundTrip(RankTagPrefix, Ranks[i], '_');
    }
  }

  /** Every slot button's tag decodes, under `replace("slot_", "")`, back to
      its slot identifier. */
  lemma SlotTagsRoundTrip()
    ensures forall i :: 0 <= i < |SlotChoices| ==>
      StartsWith(SlotTagPrefix + SlotChoices[i].id, SlotTagPrefix)
      && RemoveAll(SlotTagPrefix + SlotChoices[i].id, SlotTagPrefix) == SlotChoices[i].id
  {
    forall i | 0 <= i < |SlotChoices|
      ensures StartsWith(SlotTagPrefix + SlotChoices[i].id, SlotTagPrefix)
      ensures RemoveAll(SlotTagPrefix + SlotChoices[i].id, SlotTagPrefix) == SlotChoices[i].id
    {
      assert '_' !in SlotChoices[i].id;
      assert SlotTagPrefix[4] == '_';
      TagRoundTrip(SlotTagPrefix, SlotChoices[i].id, '_');
    }
  }

  /** Every role button's tag starts with `role_`, is not `roles_done`, and
      decodes, under `replace("role_", "")`, back to its role identifier. */
  lemma RoleTagsRoundTrip()
    ensures forall i :: 0 <= i < |RoleChoices| ==>
      StartsWith(RoleTagPrefix + RoleChoices[i].id, RoleTagPrefix)
      && RoleTagPrefix + RoleChoices[i].id != "roles_done"
      && RemoveAll(RoleTagPrefix + RoleChoices[i].id, RoleTagPrefix) == RoleChoices[i].id
  {
    forall i | 0 <= i < |RoleChoices|
      ensures StartsWith(RoleTagPrefix + RoleChoices[i].id, RoleTagPrefix)
      ensures RoleTagPrefix + RoleChoices[i].id != "roles_done"
      ensures RemoveAll(RoleTagPrefix + RoleChoices[i].id, RoleTagPrefix) == RoleChoices[i].id
    {
      assert '_' !in RoleChoices[i].id;
      assert RoleTagPrefix[4] == '_';
      TagRoundTrip(RoleTagPrefix, RoleChoices[i].id, '_');
      assert "roles_done"[4] != '_';
    }
  }
}
