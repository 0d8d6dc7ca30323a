/** The schedule of push notifications for one reminder
    (src/utils/supabaseNotifications.ts): one entry at the reminder's time
    and, when they still lie in the future, one twenty and one ten minutes
    before it. Storing the entries is not part of this model; the clock
    reading and the locale-formatted time of day (`format(time, 'p')`) are
    parameters, and times are millisecond timestamps. */
module NotificationSchedule {
  import opened Common

  datatype Kind = AtTime | Before20m | Before10m

  datatype Scheduled = Scheduled(userId: string, noteId: string, reminderId: string, title: string,
                                 body: string, scheduledTime: int, kind: Kind)

  /** The body of the two early entries. */
  function SoonBody(reminderText: string, clock: string): string {
    "곧 '" + reminderText + "' 할 시간이에요! (" + clock + ")"
  }

  /** The entries `createReminderNotifications` stores. */
  function Schedule(userId: string, noteId: string, reminderId: string, reminderText: string,
                    noteTitle: string, reminderTime: int, now: int, clock: string): (r: seq<Scheduled>)
    ensures 1 <= |r| <= 3
    ensures r[0] == Scheduled(userId, noteId, reminderId, "🔔 리마인더: " + noteTitle, reminderText,
                              reminderTime, AtTime)
    ensures forall k :: 0 <= k < |r| ==>
              r[k].userId == userId && r[k].noteId == noteId && r[k].reminderId == reminderId
    ensures (exists k :: 0 <= k < |r| && r[k].kind == Before20m) <==> reminderTime - 20 * Minute > now
    ensures (exists k :: 0 <= k < |r| && r[k].kind == Before10m) <==> reminderTime - 10 * Minute > now
    ensures forall k :: 0 <= k < |r| && r[k].kind == Before20m ==>
              r[k] == Scheduled(userId, noteId, reminderId, "⏰ 20분 전 리마인더: " + noteTitle,
                                SoonBody(reminderText, clock), reminderTime - 20 * Minute, Before20m)
    ensures forall k :: 0 <= k < |r| && r[k].kind == Before10m ==>
              r[k] == Scheduled(userId, noteId, reminderId, "⏰ 10분 전 리마인더: " + noteTitle,
                                SoonBody(reminderText, clock), reminderTime - 10 * Minute, Before10m)
  {
    var atTime := [Scheduled(userId, noteId, reminderId, "🔔 리마인더: " + noteTitle, reminderText,
                             reminderTime, AtTime)];
    var twentyMinBefore := reminderTime - 20 * 60 * 1000;
    var early20 := if twentyMinBefore > now
                   then [Scheduled(userId, noteId, reminderId, "⏰ 20분 전 리마인더: " + noteTitle,
                                   SoonBody(reminderText, clock), twentyMinBefore, Before20m)]
                   else [];
    var tenMinBefore := reminderTime - 10 * 60 * 1000;
    var early10 := if tenMinBefore > now
                   then [Scheduled(userId, noteId, reminderId, "⏰ 10분 전 리마인더: " + noteTitle,
                                   SoonBody(reminderText, clock), tenMinBefore, Before10m)]
                   else [];
    var r := atTime + early20 + early10;
    assert twentyMinBefore > now ==> r[1].kind == Before20m;
    assert tenMinBefore > now ==> r[|r| - 1].kind == Before10m;
    r
  }

  /** The kinds of a schedule, in order. */
  function Kinds(s: seq<Scheduled>): (r: seq<Kind>)
    ensures |r| == |s| && forall k :: 0 <= k < |s| ==> r[k] == s[k].kind
  {
    seq(|s|, k requires 0 <= k < |s| => s[k].kind)
  }

  /** The schedule is one of four lists: the entry at the time alone, then
      the ten-minute one, then both early ones in the order twenty, ten; a
      twenty-minute entry never comes without a ten-minute one. */
  lemma ScheduleShapes(userId: string, noteId: string, reminderId: string, reminderText: string,
                       noteTitle: string, reminderTime: int, now: int, clock: string)
    ensures var ks := Kinds(Schedule(userId, noteId, reminderId, reminderText, noteTitle, reminderTime, now, clock));
            ks == [AtTime] || ks == [AtTime, Before10m] || ks == [AtTime, Before20m, Before10m]
    ensures var ks := Kinds(Schedule(userId, noteId, reminderId, reminderText, noteTitle, reminderTime, now, clock));
            ks == [AtTime, Before20m, Before10m] <==> reminderTime > now + 20 * Minute
  {
  }

  /** Every entry lies at or before the reminder's time, and every early
      entry lies after the clock reading. */
  lemma ScheduleTimes(userId: string, noteId: string, reminderId: string, reminderText: string,
                      noteTitle: string, reminderTime: int, now: int, clock: string)
    ensures var s := Schedule(userId, noteId, reminderId, reminderText, noteTitle, reminderTime, now, clock);
            forall k :: 0 <= k < |s| ==>
              s[k].scheduledTime <= reminderTime && (s[k].kind != AtTime ==> s[k].scheduledTime > now)
  {
  }
}
