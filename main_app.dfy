/**
 * main.py: the main window (ReminderApp) with its in-memory reminder list,
 * and its SettingsDialog, which edits that list through the parent window
 * and writes the whole list back to reminders.json.
 */
module MainApp {
  import opened Wrappers
  import opened TimeFormat
  import opened Records
  import opened Selection

  /** The information text when Start is pressed with no reminders ("no reminders set yet"). */
  const NO_REMINDERS: string := "尚未設定任何提醒事件"

  /** Python truthiness of `reminder.get("image", None)`. */
  predicate Truthy(image: Option<string>) {
    image.Some? && image.value != ""
  }

  /** An event that uses the attached file. */
  predicate UsesMedia(e: Event) {
    e.InformationWithMovie? || e.PlayMedia?
  }

  /** show_popup_reminder: one information box, with the animation only when there is an image. */
  function ShowPopupReminder(message: string, image: Option<string>): (es: seq<Event>)
    ensures |es| == 1 && ShowsMessage(es[0], message)
    ensures es[0].InformationWithMovie? <==> Truthy(image)
    ensures es[0].InformationWithMovie? ==> es[0].movie == image.value
    ensures !es[0].PlayMedia?
  {
    if Truthy(image) then [InformationWithMovie(TITLE, message, image.value)]
    else [Information(TITLE, message)]
  }

  /** show_banner_reminder: the media plays only when there is an image; the message always shows. */
  function ShowBannerReminder(message: string, image: Option<string>): (es: seq<Event>)
    ensures |es| == (if Truthy(image) then 2 else 1)
    ensures es[|es| - 1] == Information(TITLE, message)
    ensures Truthy(image) ==> es[0] == PlayMedia(image.value)
  {
    (if Truthy(image) then [PlayMedia(image.value)] else []) + [Information(TITLE, message)]
  }

  /**
   * show_reminder: the popup path for type POPUP, the banner path for type
   * BANNER, nothing at all for any other type.
   */
  function ShowReminder(r: Reminder): (es: seq<Event>)
    ensures es != [] <==> r.kind == POPUP || r.kind == BANNER
    ensures es != [] ==> ShowsMessage(es[|es| - 1], r.action)
    ensures r.kind == POPUP ==> |es| == 1 && (es[0].InformationWithMovie? <==> HasMedia(r))
    ensures r.kind == BANNER ==> (es[0].PlayMedia? <==> HasMedia(r))
  {
    if r.kind == POPUP then ShowPopupReminder(r.action, r.image)
    else if r.kind == BANNER then ShowBannerReminder(r.action, r.image)
    else []
  }

  /** The attached file is touched only when the image is non-empty, and then it is that file. */
  lemma MediaOnlyWithImage(r: Reminder, e: Event)
    requires e in ShowReminder(r) && UsesMedia(e)
    ensures HasMedia(r)
    ensures e.InformationWithMovie? ==> r.kind == POPUP && e.movie == r.image.value
    ensures e.PlayMedia? ==> r.kind == BANNER && e.path == r.image.value
  {
  }

  /** The notifications of showing every reminder of `rs`, one after another, in list order. */
  function DispatchAll(rs: seq<Reminder>): seq<Event> {
    if rs == [] then [] else DispatchAll(rs[..|rs| - 1]) + ShowReminder(rs[|rs| - 1])
  }

  /** Showing a list shows nothing exactly when none of its reminders is a popup or a banner. */
  lemma {:induction false} DispatchAllSilentIff(rs: seq<Reminder>)
    ensures DispatchAll(rs) == [] <==>
      forall i :: 0 <= i < |rs| ==> rs[i].kind != POPUP && rs[i].kind != BANNER
  {
    if rs != [] {
      var init := rs[..|rs| - 1];
      DispatchAllSilentIff(init);
      assert forall i :: 0 <= i < |init| ==> init[i] == rs[i];
    }
  }

  /** Showing the list up to index i, inclusive, is showing it up to i and then reminder i. */
  lemma DispatchAllPrefix(rs: seq<Reminder>, i: int)
    requires 0 <= i < |rs|
    ensures DispatchAll(rs[..i + 1]) == DispatchAll(rs[..i]) + ShowReminder(rs[i])
  {
    assert rs[..i + 1][..i] == rs[..i];
  }

  /** Showing a list and then one more reminder. */
  lemma DispatchAllSnoc(rs: seq<Reminder>, r: Reminder)
    ensures DispatchAll(rs + [r]) == DispatchAll(rs) + ShowReminder(r)
  {
    assert (rs + [r])[..|rs|] == rs;
  }

  /** A non-empty second part is its initial part and its last element. */
  lemma SplitLast(a: seq<Reminder>, b: seq<Reminder>)
    requires b != []
    ensures b[..|b| - 1] + [b[|b| - 1]] == b
    ensures (a + b[..|b| - 1]) + [b[|b| - 1]] == a + b
  {
  }

  /** One more reminder at the end of the second part keeps the split. */
  lemma DispatchAllAppendStep(a: seq<Reminder>, b: seq<Reminder>, r: Reminder)
    requires DispatchAll(a + b) == DispatchAll(a) + DispatchAll(b)
    ensures DispatchAll((a + b) + [r]) == DispatchAll(a) + DispatchAll(b + [r])
  {
    DispatchAllSnoc(a + b, r);
    DispatchAllSnoc(b, r);
  }

  /** Dispatching a list is dispatching its parts in order: each reminder exactly once, in place. */
  lemma {:induction false} DispatchAllAppend(a: seq<Reminder>, b: seq<Reminder>)
    ensures DispatchAll(a + b) == DispatchAll(a) + DispatchAll(b)
    decreases |b|
  {
    if b == [] {
      assert a + b == a;
    } else {
      SplitLast(a, b);
      DispatchAllAppend(a, b[..|b| - 1]);
      DispatchAllAppendStep(a, b[..|b| - 1], b[|b| - 1]);
    }
  }

  /** Two reminders that differ only in their time. */
  predicate SameButTime(r: Reminder, q: Reminder) {
    r.action == q.action && r.kind == q.kind && r.image == q.image
  }

  /** What start_reminder shows does not depend on any reminder's time. */
  lemma {:induction false} DispatchAllIgnoresTime(rs: seq<Reminder>, qs: seq<Reminder>)
    requires |rs| == |qs|
    requires forall i :: 0 <= i < |rs| ==> SameButTime(rs[i], qs[i])
    ensures DispatchAll(rs) == DispatchAll(qs)
    decreases |rs|
  {
    if rs != [] {
      DispatchAllIgnoresTime(rs[..|rs| - 1], qs[..|qs| - 1]);
    }
  }

  /**
   * Python's TypeError from `QMessageBox.information` when its fifth
   * argument, the default button, is None: `QLabel.setMovie` returns None.
   */
  datatype TypeError = TypeError

  /**
   * show_popup_reminder as main.py writes it: with a truthy image the
   * animation is started and the call raises TypeError before any box shows.
   */
  function ShowPopupReminderAsWritten(message: string, image: Option<string>): (res: Result<seq<Event>, TypeError>)
    ensures res.Failure? <==> Truthy(image)
    ensures res.Success? ==> res.value == ShowPopupReminder(message, image)
  {
    if Truthy(image) then Failure(TypeError) else Success([Information(TITLE, message)])
  }

  /** show_reminder over the as-written popup path. */
  function ShowReminderAsWritten(r: Reminder): (res: Result<seq<Event>, TypeError>)
    ensures res.Failure? <==> r.kind == POPUP && HasMedia(r)
    ensures res.Success? ==> res.value == ShowReminder(r)
  {
    if r.kind == POPUP then ShowPopupReminderAsWritten(r.action, r.image)
    else if r.kind == BANNER then Success(ShowBannerReminder(r.action, r.image))
    else Success([])
  }

  /** What start_reminder shows before an exception, if any, escapes it. */
  datatype Dispatch = Dispatch(events: seq<Event>, raised: Option<TypeError>)

  /** start_reminder's loop as written: the first TypeError stops the remaining reminders. */
  function DispatchAllAsWritten(rs: seq<Reminder>): Dispatch {
    if rs == [] then Dispatch([], None)
    else
      var before := DispatchAllAsWritten(rs[..|rs| - 1]);
      if before.raised.Some? then before
      else match ShowReminderAsWritten(rs[|rs| - 1])
        case Failure(e) => Dispatch(before.events, Some(e))
        case Success(es) => Dispatch(before.events + es, None)
  }

  /**
   * As written, start_reminder raises exactly when the list holds a popup
   * with an image, and otherwise shows what the intended dispatch shows.
   */
  lemma {:induction false} DispatchAllAsWrittenRaisesIff(rs: seq<Reminder>)
    ensures DispatchAllAsWritten(rs).raised.Some? <==>
      exists i :: 0 <= i < |rs| && rs[i].kind == POPUP && HasMedia(rs[i])
    ensures DispatchAllAsWritten(rs).raised.None? ==> DispatchAllAsWritten(rs).events == DispatchAll(rs)
  {
    if rs != [] {
      var init := rs[..|rs| - 1];
      DispatchAllAsWrittenRaisesIff(init);
      assert forall i :: 0 <= i < |init| ==> init[i] == rs[i];
      if DispatchAllAsWritten(init).raised.Some? {
        var i :| 0 <= i < |init| && init[i].kind == POPUP && HasMedia(init[i]);
        assert rs[i] == init[i];
      }
    }
  }

  /**
   * A popup with an animation: the intended box shows the movie, but the
   * code as written raises instead.
   */
  lemma AnimatedPopupRaisesAsWritten()
    ensures var r := Reminder("08:00:00", "drink water", POPUP, Some("cat.gif"));
      ShowReminderAsWritten(r) == Failure(TypeError)
      && ShowReminder(r) == [InformationWithMovie(TITLE, "drink water", "cat.gif")]
  {
  }

  /** QDialog.exec() result codes, and the button code main.py compares them with. */
  const REJECTED: int := 0
  const ACCEPTED: int := 1
  const STANDARD_BUTTON_OK: int := 0x400

  /** How the add-reminder dialog was closed: OK (with the form's fields) or Cancel. */
  datatype DialogOutcome = Accepted(form: Form) | Rejected

  function ExecCode(o: DialogOutcome): (code: int)
    ensures code == REJECTED || code == ACCEPTED
  {
    if o.Accepted? then ACCEPTED else REJECTED
  }

  /** No way of closing the dialog yields the code that main.py's add_reminder waits for. */
  lemma ExecNeverOk(o: DialogOutcome)
    ensures ExecCode(o) != STANDARD_BUTTON_OK
  {
  }

  class ReminderApp {
    const store: ReminderFile
    var reminders: seq<Reminder>
    /** Everything shown so far, oldest first. */
    var events: seq<Event>

    constructor (store: ReminderFile)
      ensures this.store == store && events == []
      ensures reminders == StoredOrEmpty(store.contents)
    {
      this.store := store;
      events := [];
      reminders := StoredOrEmpty(store.contents);
    }

    /** A missing file is the normal first run: the list becomes empty, no error. */
    method LoadRemindersFromJson()
      modifies this`reminders
      ensures store.contents.None? ==> reminders == []
      ensures store.contents.Some? ==> reminders == store.contents.value
    {
      match store.contents
      case None => reminders := [];
      case Some(rs) => reminders := rs;
    }

    /**
     * start_reminder: with no reminders, one information box; otherwise
     * every reminder is shown at once, in list order, whatever its time.
     */
    method StartReminder()
      modifies this`events
      ensures reminders == old(reminders)
      ensures reminders == [] ==> events == old(events) + [Information(TITLE, NO_REMINDERS)]
      ensures reminders != [] ==> events == old(events) + DispatchAll(reminders)
    {
      if reminders != [] {
        var i := 0;
        while i < |reminders|
          invariant 0 <= i <= |reminders|
          invariant events == old(events) + DispatchAll(reminders[..i])
        {
          DispatchAllPrefix(reminders, i);
          events := events + ShowReminder(reminders[i]);
          i := i + 1;
        }
        assert reminders[..i] == reminders;
      } else {
        events := events + [Information(TITLE, NO_REMINDERS)];
      }
    }
  }

  /** The settings dialog of main.py; its parent window owns the list and the file. */
  class SettingsDialog {
    const app: ReminderApp
    var table: seq<Row>

    constructor (app: ReminderApp)
      ensures this.app == app
      ensures table == Rows(app.reminders)
    {
      this.app := app;
      new;
      PopulateTable();
    }

    /** populate_table: clear the table, then one row per reminder of the parent, in order. */
    method PopulateTable()
      modifies this`table
      ensures table == Rows(app.reminders)
    {
      table := [];
      var rs := app.reminders;
      var i := 0;
      while i < |rs|
        invariant 0 <= i <= |rs|
        invariant table == Rows(rs[..i])
      {
        assert rs[..i + 1][..i] == rs[..i];
        table := table + [RowOf(rs[i])];
        i := i + 1;
      }
      assert rs[..i] == rs;
    }

    /** save_reminders_to_json: the whole in-memory list replaces the file. */
    method SaveRemindersToJson()
      modifies app.store
      ensures app.store.contents == Some(app.reminders)
    {
      app.store.contents := Some(app.reminders);
    }

    /**
     * add_reminder as written: the code returned by the add dialog's exec()
     * is compared with QMessageBox.StandardButton.Ok. Only that code would
     * append, show and save the new record; any other leaves everything as
     * it was. ExecNeverOk shows that exec() never returns it.
     */
    method AddReminderAsWritten(code: int, form: Form)
      requires ValidTime(form.time)
      modifies app`reminders, this`table, app.store
      ensures code != STANDARD_BUTTON_OK ==>
        app.reminders == old(app.reminders) && table == old(table)
        && app.store.contents == old(app.store.contents)
      ensures code == STANDARD_BUTTON_OK ==>
        app.reminders == old(app.reminders) + [NewRecord(form)]
        && table == Rows(app.reminders)
        && app.store.contents == Some(app.reminders)
    {
      if code == STANDARD_BUTTON_OK {
        app.reminders := app.reminders + [NewRecord(form)];
        PopulateTable();
        SaveRemindersToJson();
      }
    }

    /**
     * add_reminder as intended: on OK, exactly one record with the form's
     * fields goes at the end of the list, the table is rebuilt and the whole
     * list is written; on Cancel nothing changes.
     */
    method AddReminder(outcome: DialogOutcome)
      requires outcome.Accepted? ==> ValidTime(outcome.form.time)
      modifies app`reminders, this`table, app.store
      ensures outcome.Rejected? ==>
        app.reminders == old(app.reminders) && table == old(table)
        && app.store.contents == old(app.store.contents)
      ensures outcome.Accepted? ==>
        app.reminders == old(app.reminders) + [NewRecord(outcome.form)]
        && table == Rows(app.reminders)
        && app.store.contents == Some(app.reminders)
    {
      if ExecCode(outcome) == ACCEPTED {
        var form := outcome.form;
        app.reminders := app.reminders + [NewRecord(form)];
        PopulateTable();
        SaveRemindersToJson();
      }
    }

    /**
     * delete_reminder: the selected rows are deleted last first; then the
     * table is rebuilt and the whole list written.
     */
    method DeleteReminder(selected: seq<int>)
      requires AscendingIn(selected, |app.reminders|)
      modifies app`reminders, this`table, app.store
      ensures app.reminders == Unselected(old(app.reminders), selected)
      ensures table == Rows(app.reminders)
      ensures app.store.contents == Some(app.reminders)
    {
      ghost var original := app.reminders;
      var j := |selected|;
      while j > 0
        invariant 0 <= j <= |selected|
        invariant app.reminders == DeleteDescending(original, selected[j..])
      {
        j := j - 1;
        assert selected[j..][1..] == selected[j + 1..];
        AscendingRoom(selected[j..], |original|);
        app.reminders := RemoveAt(app.reminders, selected[j]);
      }
      DeleteDescendingIsUnselected(original, selected);
      PopulateTable();
      SaveRemindersToJson();
    }
  }

  /**
   * The consequence of the comparison: pressing OK in the add dialog of
   * main.py adds nothing, shows nothing and saves nothing.
   */
  method OkAddsNothingAsWritten(d: SettingsDialog, form: Form)
    requires ValidTime(form.time)
    modifies d.app`reminders, d`table, d.app.store
    ensures d.app.reminders == old(d.app.reminders) && d.table == old(d.table)
    ensures d.app.store.contents == old(d.app.store.contents)
  {
    ExecNeverOk(Accepted(form));
    d.AddReminderAsWritten(ExecCode(Accepted(form)), form);
  }

  /** What is saved is what the next start loads: the file round-trips the list. */
  method SaveThenLoad(d: SettingsDialog)
    modifies d.app.store, d.app`reminders
    ensures d.app.reminders == old(d.app.reminders)
    ensures d.app.store.contents == Some(old(d.app.reminders))
  {
    d.SaveRemindersToJson();
    d.app.LoadRemindersFromJson();
  }
}
