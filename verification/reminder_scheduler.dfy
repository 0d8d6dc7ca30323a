/** The reminder scheduler (src/hooks/useReminderScheduler.ts): every two
    seconds it walks the notes of the store and sends a system notification
    for each open reminder whose time passed less than a minute ago,
    remembering the ids it notified so that no reminder is notified twice in
    a session. The timer, the clock and the notification call are outside
    this model: each check is one call with the clock reading, and the sent
    notifications are collected in an outbox. */
module ReminderScheduler {
  import opened Common

  /** `reminderTime` is what `parseISO(reminder_time)` gives. */
  datatype Reminder = Reminder(id: string, reminderText: string, reminderTime: Stamp, completed: bool)

  datatype Note = Note(id: string, title: string, reminders: Option<seq<Reminder>>)

  /** The arguments of one `sendNotification` call. */
  datatype Notification = Notification(title: string, body: string, url: string, tag: string)

  /** One reminder together with the note that holds it. */
  datatype Entry = Entry(note: Note, reminder: Reminder)

  /** `differenceInSeconds(now, time)`: whole seconds, the fraction cut
      toward zero. */
  function SecondsBetween(now: int, time: int): (r: int)
    ensures now >= time ==> r * 1000 <= now - time < r * 1000 + 1000
    ensures now < time ==> r * 1000 - 1000 < now - time <= r * 1000
  {
    var d := now - time;
    if d >= 0 then d / 1000 else -((-d) / 1000)
  }

  /** The test a reminder passes to be notified. */
  predicate Due(r: Reminder, now: int) {
    !r.completed && r.reminderTime.At?
    && 0 <= SecondsBetween(now, r.reminderTime.ms) < 60
  }

  /** A reminder is due iff it is open, has a readable time, and that time
      lies less than a minute behind the clock or less than a second ahead
      of it (the truncated difference is still 0 then). */
  lemma DueWindow(r: Reminder, now: int)
    ensures Due(r, now) <==>
              !r.completed && r.reminderTime.At? && -1000 < now - r.reminderTime.ms < 60000
  {
  }

  /** Completed reminders and reminders without a readable time never
      fire; neither do those a second or more ahead of the clock or a minute
      or more behind it. */
  lemma NeverDue(r: Reminder, now: int)
    requires r.completed || !r.reminderTime.At? || r.reminderTime.ms >= now + 1000
             || r.reminderTime.ms <= now - 60000
    ensures !Due(r, now)
  {
    if r.reminderTime.At? {
      DueWindow(r, now);
    }
  }

  /** The notification for a reminder of a note. */
  function Notify(e: Entry): (r: Notification)
    ensures r.title == "리마인더: " + e.note.title && r.body == e.reminder.reminderText
    ensures r.url == "/dashboard?noteId=" + e.note.id && r.tag == e.reminder.id
  {
    Notification("리마인더: " + e.note.title, e.reminder.reminderText,
                 "/dashboard?noteId=" + e.note.id, e.reminder.id)
  }

  /** The reminders of one note, each with the note; none when the note has
      no reminder list. */
  function EntriesOf(n: Note): (r: seq<Entry>)
    ensures n.reminders.None? ==> r == []
    ensures n.reminders.Some? ==>
              (|r| == |n.reminders.value|
               && forall k :: 0 <= k < |r| ==> r[k] == Entry(n, n.reminders.value[k]))
  {
    if n.reminders.None? then []
    else seq(|n.reminders.value|, k requires 0 <= k < |n.reminders.value| => Entry(n, n.reminders.value[k]))
  }

  /** Every reminder of every note, in the order of the two `forEach`
      loops. */
  function Entries(notes: seq<Note>): (r: seq<Entry>)
  {
    if notes == [] then [] else Entries(notes[..|notes| - 1]) + EntriesOf(notes[|notes| - 1])
  }

  /** Walking the entries in order from the set `notified`: the set after
      the walk and the notifications sent during it. */
  function Run(notified: set<string>, es: seq<Entry>, now: int): (set<string>, seq<Notification>)
  {
    if es == [] then (notified, [])
    else
      var before := Run(notified, es[..|es| - 1], now);
      var e := es[|es| - 1];
      if Due(e.reminder, now) && e.reminder.id !in before.0
      then (before.0 + {e.reminder.id}, before.1 + [Notify(e)])
      else before
  }

  /** One more entry at the end of a walk. */
  lemma RunStep(notified: set<string>, es: seq<Entry>, e: Entry, now: int)
    ensures Run(notified, es + [e], now)
            == var before := Run(notified, es, now);
               if Due(e.reminder, now) && e.reminder.id !in before.0
               then (before.0 + {e.reminder.id}, before.1 + [Notify(e)])
               else before
  {
    assert (es + [e])[..|es|] == es;
  }

  /** The ids a walk sends for. */
  function Tags(s: seq<Notification>): (r: set<string>)
    ensures forall t :: t in r <==> exists k :: 0 <= k < |s| && s[k].tag == t
  {
    set k | 0 <= k < |s| :: s[k].tag
  }

  /** A walk adds to the set exactly the ids it sends for, sends for none
      that was already in the set, and sends for no id twice. */
  lemma {:induction false} RunOncePerId(notified: set<string>, es: seq<Entry>, now: int)
    ensures Run(notified, es, now).0 == notified + Tags(Run(notified, es, now).1)
    ensures Tags(Run(notified, es, now).1) !! notified
    ensures var s := Run(notified, es, now).1;
            forall i, j :: 0 <= i < j < |s| ==> s[i].tag != s[j].tag
  {
    if es != [] {
      var init := es[..|es| - 1];
      RunOncePerId(notified, init, now);
      var before := Run(notified, init, now);
      var e := es[|es| - 1];
      if Due(e.reminder, now) && e.reminder.id !in before.0 {
        var s := before.1 + [Notify(e)];
        assert Tags(s) == Tags(before.1) + {e.reminder.id} by {
          forall t ensures t in Tags(s) <==> t in Tags(before.1) + {e.reminder.id} {
            if t in Tags(s) {
              var k :| 0 <= k < |s| && s[k].tag == t;
              if k < |before.1| {
                assert before.1[k] == s[k];
              }
            }
            if t in Tags(before.1) {
              var k :| 0 <= k < |before.1| && before.1[k].tag == t;
              assert s[k] == before.1[k];
            }
            if t == e.reminder.id {
              assert s[|before.1|].tag == t;
            }
          }
        }
        forall i, j | 0 <= i < j < |s| ensures s[i].tag != s[j].tag {
          if j == |before.1| {
            assert s[i] == before.1[i];
            assert s[i].tag in Tags(before.1);
          } else {
            assert s[i] == before.1[i] && s[j] == before.1[j];
          }
        }
      }
    }
  }

  /** Every notification a walk sends is the notification of a due entry
      of the walk. */
  lemma {:induction false} RunSendsOnlyDue(notified: set<string>, es: seq<Entry>, now: int)
    ensures forall m :: m in Run(notified, es, now).1 ==>
              exists e :: e in es && Due(e.reminder, now) && m == Notify(e)
  {
    if es != [] {
      var init := es[..|es| - 1];
      RunSendsOnlyDue(notified, init, now);
      forall m | m in Run(notified, es, now).1
        ensures exists e :: e in es && Due(e.reminder, now) && m == Notify(e)
      {
        if m in Run(notified, init, now).1 {
          var e :| e in init && Due(e.reminder, now) && m == Notify(e);
          assert e in es;
        } else {
          assert es[|es| - 1] in es;
        }
      }
    }
  }

  /** After a walk every due entry's id is in the set: it was notified now
      or earlier. */
  lemma {:induction false} RunCoversDue(notified: set<string>, es: seq<Entry>, now: int)
    ensures forall e :: e in es && Due(e.reminder, now) ==> e.reminder.id in Run(notified, es, now).0
    ensures notified <= Run(notified, es, now).0
  {
    if es != [] {
      var init := es[..|es| - 1];
      RunCoversDue(notified, init, now);
      forall e | e in es && Due(e.reminder, now) ensures e.reminder.id in Run(notified, es, now).0 {
        if e != es[|es| - 1] {
          var k :| 0 <= k < |es| && es[k] == e;
          assert init[k] == e;
        }
      }
    }
  }

  /** A second check at the same moment over the same notes sends nothing:
      every reminder it would send for was notified by the first. */
  lemma CheckAgainSendsNothing(notified: set<string>, es: seq<Entry>, now: int)
    ensures Run(Run(notified, es, now).0, es, now).1 == []
  {
    RunCoversDue(notified, es, now);
    var after := Run(notified, es, now).0;
    RunOncePerId(after, es, now);
    RunSendsOnlyDue(after, es, now);
    var s := Run(after, es, now).1;
    assert s == [] || (s[0] in s && s[0].tag in Tags(s));
  }

  /** The hook's state: the ids notified in this session (the `useRef`
      set) and the notifications sent so far. */
  class Scheduler {
    var notifiedIds: set<string>
    var sent: seq<Notification>

    constructor()
      ensures notifiedIds == {} && sent == []
    {
      notifiedIds := {};
      sent := [];
    }

    /** `checkReminders` at clock reading `now` over the store's notes. */
    method CheckReminders(notes: seq<Note>, now: int)
      modifies this
      ensures notifiedIds == Run(old(notifiedIds), Entries(notes), now).0
      ensures sent == old(sent) + Run(old(notifiedIds), Entries(notes), now).1
    {
      ghost var start := notifiedIds;
      ghost var sentBefore := sent;
      var i := 0;
      while i < |notes|
        invariant 0 <= i <= |notes|
        invariant notifiedIds == Run(start, Entries(notes[..i]), now).0
        invariant sent == sentBefore + Run(start, Entries(notes[..i]), now).1
      {
        assert notes[..i + 1][..i] == notes[..i];
        CheckNote(notes[i], now, start, sentBefore, Entries(notes[..i]));
        i := i + 1;
      }
      assert notes[..|notes|] == notes;
    }

    /** The inner `forEach` over the reminders of one note, continuing a
        walk over the entries `prior`. */
    method CheckNote(note: Note, now: int, ghost start: set<string>, ghost sentBefore: seq<Notification>,
                     ghost prior: seq<Entry>)
      requires notifiedIds == Run(start, prior, now).0
      requires sent == sentBefore + Run(start, prior, now).1
      modifies this
      ensures notifiedIds == Run(start, prior + EntriesOf(note), now).0
      ensures sent == sentBefore + Run(start, prior + EntriesOf(note), now).1
    {
      if note.reminders.None? {
        assert prior + EntriesOf(note) == prior;
        return;
      }
      var rs := note.reminders.value;
      var j := 0;
      assert prior + EntriesOf(note)[..0] == prior;
      while j < |rs|
        invariant 0 <= j <= |rs|
        invariant notifiedIds == Run(start, prior + EntriesOf(note)[..j], now).0
        invariant sent == sentBefore + Run(start, prior + EntriesOf(note)[..j], now).1
      {
        var reminder := rs[j];
        assert prior + EntriesOf(note)[..j + 1] == (prior + EntriesOf(note)[..j]) + [Entry(note, reminder)];
        RunStep(start, prior + EntriesOf(note)[..j], Entry(note, reminder), now);
        if !reminder.completed && reminder.reminderTime.At? {
          var diffSeconds := SecondsBetween(now, reminder.reminderTime.ms);
          if diffSeconds >= 0 && diffSeconds < 60 {
            if reminder.id !in notifiedIds {
              sent := sent + [Notify(Entry(note, reminder))];
              notifiedIds := notifiedIds + {reminder.id};
            }
          }
        }
        j := j + 1;
      }
      assert EntriesOf(note)[..|rs|] == EntriesOf(note);
    }
  }
}
