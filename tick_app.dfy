/**
 * main2.py: the window that, once started, checks the reminder list every
 * second against the clock text "HH:mm:ss" and shows a message box for each
 * matching popup reminder.
 */
module TickApp {
  import opened Wrappers
  import opened TimeFormat
  import opened Records

  /** The note under a popup that has an image ("view image: "). */
  const IMAGE_NOTE: string := "查看圖片: "

  /** Python's KeyError for a missing key of the reminder object. */
  datatype KeyError = KeyError(key: string)

  /**
   * showReminder: a message box for type POPUP, with the image note only
   * when the image is non-empty; `reminder['image']` raises KeyError when the
   * key is absent. Every other type, BANNER included, shows nothing.
   */
  function ShowReminder(r: Reminder): (res: Result<seq<Event>, KeyError>)
    ensures r.kind != POPUP ==> res == Success([])
    ensures r.kind == POPUP && r.image.None? ==> res == Failure(KeyError("image"))
    ensures r.kind == POPUP && r.image.Some? ==>
      res.Success? && |res.value| == 1 && res.value[0].MessageBox?
      && ShowsMessage(res.value[0], r.action)
      && (res.value[0].informative.Some? <==> HasMedia(r))
      && (HasMedia(r) ==> res.value[0].informative.value == IMAGE_NOTE + r.image.value)
  {
    if r.kind != POPUP then Success([])
    else match r.image
      case None => Failure(KeyError("image"))
      case Some(img) =>
        Success([MessageBox(TITLE, r.action, if img != "" then Some(IMAGE_NOTE + img) else None)])
  }

  /** The reminders whose time text equals `clock`, in list order, repeats kept. */
  function Due(rs: seq<Reminder>, clock: string): (d: seq<Reminder>)
    ensures |d| <= |rs|
  {
    if rs == [] then []
    else Due(rs[..|rs| - 1], clock) + (if rs[|rs| - 1].time == clock then [rs[|rs| - 1]] else [])
  }

  /** The outcome of one tick: what was shown, and the exception that ended it, if any. */
  datatype TickResult = TickResult(events: seq<Event>, raised: Option<KeyError>)

  /**
   * Show each reminder of `shows` in turn; an exception stops the rest.
   * At most one box per reminder, and the only exception is the missing
   * "image" key.
   */
  function Run(shows: seq<Reminder>): (t: TickResult)
    ensures |t.events| <= |shows|
    ensures t.raised.Some? ==> t.raised == Some(KeyError("image"))
  {
    if shows == [] then TickResult([], None)
    else
      var before := Run(shows[..|shows| - 1]);
      if before.raised.Some? then before
      else match ShowReminder(shows[|shows| - 1])
        case Failure(e) => TickResult(before.events, Some(e))
        case Success(es) => TickResult(before.events + es, None)
  }

  /**
   * checkReminders at clock time `now`: it raises exactly when a reminder of
   * the list whose time is now is a popup without an "image" key.
   */
  function Tick(rs: seq<Reminder>, now: TimeOfDay): (t: TickResult)
    requires ValidTime(now)
    ensures t.raised.Some? <==>
      exists r :: r in rs && r.time == Format(now) && r.kind == POPUP && r.image.None?
  {
    RunDueRaisesIff(rs, Format(now));
    Run(Due(rs, Format(now)))
  }

  /** Filtering a list is filtering its parts in order. */
  lemma {:induction false} DueAppend(a: seq<Reminder>, b: seq<Reminder>, clock: string)
    ensures Due(a + b, clock) == Due(a, clock) + Due(b, clock)
    decreases |b|
  {
    if b == [] {
      assert a + b == a;
    } else {
      var b', last := b[..|b| - 1], b[|b| - 1];
      assert (a + b)[..|a + b| - 1] == a + b';
      assert (a + b)[|a + b| - 1] == last;
      DueAppend(a, b', clock);
    }
  }

  /**
   * Exactly the reminders whose time equals the clock are due, each as many
   * times as it occurs in the list: no de-duplication, nothing else.
   */
  lemma {:induction false} DueCounts(rs: seq<Reminder>, clock: string, r: Reminder)
    ensures multiset(Due(rs, clock))[r] == if r.time == clock then multiset(rs)[r] else 0
    decreases |rs|
  {
    if rs != [] {
      var init := rs[..|rs| - 1];
      DueCounts(init, clock, r);
      assert rs == init + [rs[|rs| - 1]];
    }
  }

  /** A reminder is due exactly when it is in the list and its time is the clock's. */
  lemma DueMember(rs: seq<Reminder>, clock: string, r: Reminder)
    ensures r in Due(rs, clock) <==> r in rs && r.time == clock
  {
    DueCounts(rs, clock, r);
  }

  /** Nothing is due exactly when no reminder's time equals the clock. */
  lemma {:induction false} DueEmpty(rs: seq<Reminder>, clock: string)
    ensures Due(rs, clock) == [] <==> forall i :: 0 <= i < |rs| ==> rs[i].time != clock
    decreases |rs|
  {
    if rs != [] {
      var init := rs[..|rs| - 1];
      DueEmpty(init, clock);
      assert forall i :: 0 <= i < |init| ==> init[i] == rs[i];
    }
  }

  /** Reminders that share the clock's time all fire on that tick, each once, in list order. */
  lemma {:induction false} DueSameTime(rs: seq<Reminder>, clock: string)
    requires forall i :: 0 <= i < |rs| ==> rs[i].time == clock
    ensures Due(rs, clock) == rs
    decreases |rs|
  {
    if rs != [] {
      DueSameTime(rs[..|rs| - 1], clock);
    }
  }

  /** A reminder whose time was written by the formatter is due exactly at that time of day. */
  lemma DueIffSameTime(r: Reminder, t: TimeOfDay, now: TimeOfDay)
    requires ValidTime(t) && ValidTime(now) && r.time == Format(t)
    ensures Due([r], Format(now)) == (if t == now then [r] else [])
  {
    FormatInjective(t, now);
    assert [r][..0] == [];
  }

  /** Once an exception is raised, later reminders add nothing. */
  lemma {:induction false} RunStops(a: seq<Reminder>, b: seq<Reminder>)
    requires Run(a).raised.Some?
    ensures Run(a + b) == Run(a)
    decreases |b|
  {
    if b == [] {
      assert a + b == a;
    } else {
      var b' := b[..|b| - 1];
      assert (a + b)[..|a + b| - 1] == a + b';
      RunStops(a, b');
    }
  }

  /** A tick raises exactly when some due reminder is a popup without an "image" key. */
  lemma {:induction false} RunRaisesIff(shows: seq<Reminder>)
    ensures Run(shows).raised.Some? <==>
      exists i :: 0 <= i < |shows| && shows[i].kind == POPUP && shows[i].image.None?
    decreases |shows|
  {
    if shows != [] {
      var init := shows[..|shows| - 1];
      RunRaisesIff(init);
      assert forall i :: 0 <= i < |init| ==> init[i] == shows[i];
    }
  }

  /** The due reminders of a list raise exactly when one of them is a popup without an image key. */
  lemma RunDueRaisesIff(rs: seq<Reminder>, clock: string)
    ensures Run(Due(rs, clock)).raised.Some? <==>
      exists r :: r in rs && r.time == clock && r.kind == POPUP && r.image.None?
  {
    var d := Due(rs, clock);
    RunRaisesIff(d);
    if Run(d).raised.Some? {
      var i :| 0 <= i < |d| && d[i].kind == POPUP && d[i].image.None?;
      DueMember(rs, clock, d[i]);
    } else {
      forall r | r in rs && r.time == clock
        ensures !(r.kind == POPUP && r.image.None?)
      {
        DueMember(rs, clock, r);
        var i :| 0 <= i < |d| && d[i] == r;
      }
    }
  }

  /** Before any exception, showing a list is showing its parts in order. */
  lemma {:induction false} RunAppend(a: seq<Reminder>, b: seq<Reminder>)
    requires Run(a).raised.None?
    ensures Run(a + b) == TickResult(Run(a).events + Run(b).events, Run(b).raised)
    decreases |b|
  {
    if b == [] {
      assert a + b == a;
    } else {
      var b' := b[..|b| - 1];
      assert (a + b)[..|a + b| - 1] == a + b';
      assert (a + b)[|a + b| - 1] == b[|b| - 1];
      RunAppend(a, b');
    }
  }

  /** A tick at which only banners are due shows nothing. */
  lemma {:induction false} BannersAreSilent(shows: seq<Reminder>)
    requires forall i :: 0 <= i < |shows| ==> shows[i].kind == BANNER
    ensures Run(shows) == TickResult([], None)
    decreases |shows|
  {
    if shows != [] {
      BannersAreSilent(shows[..|shows| - 1]);
    }
  }

  /** A tick at which nothing is due shows nothing and raises nothing. */
  lemma NothingDueNothingShown(rs: seq<Reminder>, now: TimeOfDay)
    requires ValidTime(now)
    requires forall i :: 0 <= i < |rs| ==> rs[i].time != Format(now)
    ensures Tick(rs, now) == TickResult([], None)
  {
    DueEmpty(rs, Format(now));
  }

  /** One more reminder of the list: due after the others exactly when its time is the clock. */
  lemma DueStep(rs: seq<Reminder>, i: int, clock: string)
    requires 0 <= i < |rs|
    ensures Due(rs[..i + 1], clock) == Due(rs[..i], clock) + (if rs[i].time == clock then [rs[i]] else [])
  {
    assert rs[..i + 1][..i] == rs[..i];
  }

  /** Showing one more reminder after a run that raised nothing. */
  lemma RunStep(a: seq<Reminder>, r: Reminder)
    requires Run(a).raised.None?
    ensures Run(a + [r]) == match ShowReminder(r)
      case Failure(e) => TickResult(Run(a).events, Some(e))
      case Success(es) => TickResult(Run(a).events + es, None)
  {
    assert (a + [r])[..|a|] == a;
  }

  /** When the reminders up to index k already raised, the whole tick is what they did. */
  lemma RunRaisedPrefix(rs: seq<Reminder>, k: int, clock: string)
    requires 0 <= k <= |rs|
    requires Run(Due(rs[..k], clock)).raised.Some?
    ensures Run(Due(rs, clock)) == Run(Due(rs[..k], clock))
  {
    DueAppend(rs[..k], rs[k..], clock);
    assert rs[..k] + rs[k..] == rs;
    RunStops(Due(rs[..k], clock), Due(rs[k..], clock));
  }

  /** Checking reminder `r` at `clock` after a run `t` that has raised nothing. */
  function Step(t: TickResult, r: Reminder, clock: string): (u: TickResult)
    requires t.raised.None?
    ensures r.time != clock ==> u == t
    ensures t.events <= u.events
  {
    if r.time != clock then t
    else match ShowReminder(r)
      case Failure(e) => TickResult(t.events, Some(e))
      case Success(es) => TickResult(t.events + es, None)
  }

  /** Checking one more reminder of the list is one step on the tick so far. */
  lemma CheckStep(rs: seq<Reminder>, i: int, clock: string)
    requires 0 <= i < |rs|
    requires Run(Due(rs[..i], clock)).raised.None?
    ensures Run(Due(rs[..i + 1], clock)) == Step(Run(Due(rs[..i], clock)), rs[i], clock)
  {
    DueStep(rs, i, clock);
    if rs[i].time == clock {
      RunStep(Due(rs[..i], clock), rs[i]);
    } else {
      assert Due(rs[..i], clock) + [] == Due(rs[..i], clock);
    }
  }

  class ReminderApp {
    var reminders: seq<Reminder>
    /** Everything shown so far, oldest first. */
    var events: seq<Event>
    /** One-second timers started so far; each keeps calling checkReminders. */
    var timers: nat

    constructor (reminders: seq<Reminder>)
      ensures this.reminders == reminders && events == [] && timers == 0
    {
      this.reminders := reminders;
      events := [];
      timers := 0;
    }

    /**
     * startTimer: a new timer parented to the window, firing every 1000 ms.
     * A timer started earlier stays parented and keeps running.
     */
    method StartTimer()
      modifies this`timers
      ensures timers == old(timers) + 1
    {
      timers := timers + 1;
    }

    /**
     * checkReminders: shows the reminders due at `now` in list order, and
     * stops at the first KeyError, which it hands back. The list itself is
     * never changed, so a reminder is due again at every tick with its time.
     */
    method CheckReminders(now: TimeOfDay) returns (raised: Option<KeyError>)
      requires ValidTime(now)
      modifies this`events
      ensures reminders == old(reminders)
      ensures events == old(events) + Tick(reminders, now).events
      ensures raised == Tick(reminders, now).raised
    {
      var clock := Format(now);
      ghost var sofar := Run(Due(reminders[..0], clock));
      var i := 0;
      while i < |reminders|
        invariant 0 <= i <= |reminders|
        invariant sofar == Run(Due(reminders[..i], clock)) && sofar.raised.None?
        invariant events == old(events) + sofar.events
      {
        var reminder := reminders[i];
        CheckStep(reminders, i, clock);
        sofar := Step(sofar, reminder, clock);
        if reminder.time == clock {
          var shown := ShowReminder(reminder);
          if shown.Failure? {
            RunRaisedPrefix(reminders, i + 1, clock);
            return Some(shown.error);
          }
          events := events + shown.value;
        }
        i := i + 1;
      }
      assert reminders[..i] == reminders;
      raised := None;
    }
  }
}
