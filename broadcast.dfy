/** `send_daily_notification` (bot/main.py:465-491): for every stored player,
    send the morning greeting with the notification keyboard (two buttons,
    "play today" and "not playing", see `Keyboards.NotificationKeyboard`);
    a failure for one player is logged and the loop goes on.

    The player list is what `get_all_players` returned, and `unreachable` is
    the set of chat ids for which Telegram's `send_message` raises. */
module Broadcast {
  import opened Options
  import opened Ids

  /** A player row as the store returns it; either key may be missing. */
  datatype Row = Row(telegramId: Option<UserId>, nick: Option<string>)

  /** What became of one row: the greeting reached the player, or the attempt
      failed and the id written in the error log line. */
  datatype Delivery = Delivered(to: UserId, nick: string) | Failed(logged: Option<UserId>)

  /** The outcome of a whole broadcast: one entry per row handled, and
      whether the loop was cut short by an exception. */
  datatype Run = Run(out: seq<Delivery>, aborted: bool)

  /** One iteration of the loop body, on its own: read the id, build the
      greeting from the nickname, send. Any failure is a `Failed` entry. */
  function Attempt(row: Row, unreachable: set<UserId>): (d: Delivery)
    ensures d.Delivered? <==> row.telegramId.Some? && row.nick.Some? && row.telegramId.value !in unreachable
    ensures d.Delivered? ==> d.to == row.telegramId.value && d.nick == row.nick.value
    ensures d.Failed? ==> d.logged == row.telegramId
  {
    match row.telegramId
    case None => Failed(None)
    case Some(id) =>
      if row.nick.Some? && id !in unreachable then Delivered(id, row.nick.value) else Failed(Some(id))
  }

  /** The loop as written. The `except` clause logs the local `telegram_id`:
      when the failing row has no id, that is the previous row's id, and when
      no earlier row had one it is unbound, so the handler itself raises and
      the remaining players get nothing. `last` is that local. */
  function AsWrittenRun(rows: seq<Row>, unreachable: set<UserId>, last: Option<UserId>): Run
    decreases |rows|
  {
    if rows == [] then Run([], false)
    else
      match rows[0].telegramId
      case Some(id) =>
        var rest := AsWrittenRun(rows[1..], unreachable, Some(id));
        Run([Attempt(rows[0], unreachable)] + rest.out, rest.aborted)
      case None =>
        if last.None? then Run([], true)
        else
          var rest := AsWrittenRun(rows[1..], unreachable, last);
          Run([Failed(last)] + rest.out, rest.aborted)
  }

  /** `send_daily_notification` as the source writes it. */
  method SendDailyNotificationAsWritten(rows: seq<Row>, unreachable: set<UserId>) returns (out: seq<Delivery>, aborted: bool)
    ensures Run(out, aborted) == AsWrittenRun(rows, unreachable, None)
  {
    out, aborted := [], false;
    var last: Option<UserId> := None;
    var i := 0;
    assert rows[i..] == rows;
    while i < |rows|
      invariant 0 <= i <= |rows|
      invariant AsWrittenRun(rows, unreachable, None)
        == Run(out + AsWrittenRun(rows[i..], unreachable, last).out, AsWrittenRun(rows[i..], unreachable, last).aborted)
    {
      var row := rows[i];
      assert rows[i..][1..] == rows[i + 1..];
      match row.telegramId {
        case Some(id) =>
          last := Some(id);
          out := out + [Attempt(row, unreachable)];
        case None =>
          if last.None? {
            aborted := true;
            return;
          }
          out := out + [Failed(last)];
      }
      i := i + 1;
    }
    assert rows[i..] == [];
  }

  /** `send_daily_notification` with the failure of every row isolated: each
      player's outcome depends on that player's row alone, and every row is
      attempted. */
  method SendDailyNotification(rows: seq<Row>, unreachable: set<UserId>) returns (out: seq<Delivery>)
    ensures |out| == |rows|
    ensures forall i :: 0 <= i < |rows| ==> out[i] == Attempt(rows[i], unreachable)
  {
    out := [];
    for i := 0 to |rows|
      invariant |out| == i
      invariant forall k :: 0 <= k < i ==> out[k] == Attempt(rows[k], unreachable)
    {
      out := out + [Attempt(rows[i], unreachable)];
    }
  }

  /** When every row has its id, the loop as written does isolate failures:
      nothing aborts and each row gets its own outcome. */
  lemma {:induction false} AsWrittenIsolatesSendFailures(rows: seq<Row>, unreachable: set<UserId>, last: Option<UserId>)
    requires forall i :: 0 <= i < |rows| ==> rows[i].telegramId.Some?
    ensures !AsWrittenRun(rows, unreachable, last).aborted
    ensures |AsWrittenRun(rows, unreachable, last).out| == |rows|
    ensures forall i :: 0 <= i < |rows| ==> AsWrittenRun(rows, unreachable, last).out[i] == Attempt(rows[i], unreachable)
    decreases |rows|
  {
    if rows != [] {
      assert rows[0].telegramId.Some?;
      AsWrittenIsolatesSendFailures(rows[1..], unreachable, rows[0].telegramId);
    }
  }

  /** The defect: a first row without an id aborts the broadcast as written,
      so a reachable second player is never greeted, while the isolated loop
      greets them. A row without an id after a good one is logged under the
      previous player's id. */
  lemma AsWrittenAbortsOnMissingId()
    ensures var rows := [Row(None, Some("a")), Row(Some(7), Some("b"))];
      && AsWrittenRun(rows, {}, None) == Run([], true)
      && Attempt(rows[1], {}) == Delivered(7, "b")
    ensures var rows := [Row(Some(5), Some("a")), Row(None, Some("b"))];
      AsWrittenRun(rows, {}, None) == Run([Delivered(5, "a"), Failed(Some(5))], false)
  {
    var rows := [Row(Some(5), Some("a")), Row(None, Some("b"))];
    assert rows[1..][1..] == [];
    assert AsWrittenRun(rows[1..][1..], {}, Some(5)) == Run([], false);
    assert AsWrittenRun(rows[1..], {}, Some(5)) == Run([Failed(Some(5))], false);
  }

  /** A broadcast to three players as written, the second unreachable: the
      loop goes on past the failure, the first and the third are greeted, and
      the second's failure is logged under its own id. */
  lemma MiddleFailureIsolated(a: Row, b: Row, c: Row, unreachable: set<UserId>)
    requires a.telegramId.Some? && a.nick.Some? && a.telegramId.value !in unreachable
    requires c.telegramId.Some? && c.nick.Some? && c.telegramId.value !in unreachable
    requires b.telegramId.Some? && b.telegramId.value in unreachable
    ensures var r := AsWrittenRun([a, b, c], unreachable, None);
      && !r.aborted && |r.out| == 3
      && r.out[0] == Delivered(a.telegramId.value, a.nick.value)
      && r.out[1] == Failed(b.telegramId)
      && r.out[2] == Delivered(c.telegramId.value, c.nick.value)
  {
    AsWrittenIsolatesSendFailures([a, b, c], unreachable, None);
  }
}
