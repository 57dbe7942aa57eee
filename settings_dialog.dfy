/**
 * settings_dialog.py: the settings dialog opened from main2.py's window.
 * The table and the deletions go through the parent window's list; adding
 * goes through AddReminderDialog, which writes reminders.json but leaves
 * the parent's list alone.
 */
module Settings {
  import opened Wrappers
  import opened Records
  import opened Selection
  import opened TimeFormat
  import TickApp
  import AddDialog

  class SettingsDialog {
    const app: TickApp.ReminderApp
    const store: ReminderFile
    var table: seq<Row>

    /** init_UI fills the table from the parent's list. */
    constructor (app: TickApp.ReminderApp, store: ReminderFile)
      ensures this.app == app && this.store == store
      ensures table == Rows(app.reminders)
    {
      this.app := app;
      this.store := store;
      new;
      PopulateTable();
    }

    /** populate_table: clear the table, then one row per reminder of the parent, in order. */
    method PopulateTable()
      modifies this`table
      ensures table == Rows(app.reminders)
    {
      table := [];
      var rs := app.reminders;
      var i := 0;
      while i < |rs|
        invariant 0 <= i <= |rs|
        invariant table == Rows(rs[..i])
      {
        assert rs[..i + 1][..i] == rs[..i];
        table := table + [RowOf(rs[i])];
        i := i + 1;
      }
      assert rs[..i] == rs;
    }

    /**
     * add_reminder: `form` is None when the add dialog is cancelled. On OK
     * the add dialog appends the record to the file; this dialog then only
     * rebuilds its table from the parent's list, which stays as it was.
     */
    method AddReminder(form: Option<Form>)
      requires form.Some? ==> ValidTime(form.value.time)
      modifies this`table, store
      ensures app.reminders == old(app.reminders)
      ensures form.None? ==> table == old(table) && store.contents == old(store.contents)
      ensures form.Some? ==>
        table == Rows(app.reminders)
        && store.contents == Some(StoredOrEmpty(old(store.contents)) + [NewRecord(form.value)])
    {
      var addDialog := new AddDialog.AddReminderDialog();
      if form.Some? {
        addDialog.SaveReminder(form.value, store);
      }
      if addDialog.accepted {
        PopulateTable();
      }
    }

    /**
     * delete_reminder: the selected rows are deleted from the parent's list
     * last first; then the table is rebuilt and the whole list written,
     * even when nothing was selected.
     */
    method DeleteReminder(selected: seq<int>)
      requires AscendingIn(selected, |app.reminders|)
      modifies app`reminders, this`table, store
      ensures app.reminders == Unselected(old(app.reminders), selected)
      ensures table == Rows(app.reminders)
      ensures store.contents == Some(app.reminders)
    {
      ghost var original := app.reminders;
      var j := |selected|;
      while j > 0
        invariant 0 <= j <= |selected|
        invariant app.reminders == DeleteDescending(original, selected[j..])
      {
        j := j - 1;
        assert selected[j..][1..] == selected[j + 1..];
        AscendingRoom(selected[j..], |original|);
        app.reminders := RemoveAt(app.reminders, selected[j]);
      }
      DeleteDescendingIsUnselected(original, selected);
      PopulateTable();
      SaveRemindersToJson();
    }

    /** save_reminders_to_json: the parent's whole list replaces the file. */
    method SaveRemindersToJson()
      modifies store
      ensures store.contents == Some(app.reminders)
    {
      store.contents := Some(app.reminders);
    }
  }

  /**
   * Because adding leaves the parent's list alone, a delete that follows
   * (even with nothing selected) writes the old list back over the file,
   * and the record just added is gone from it.
   */
  method AddThenDeleteDropsRecord(d: SettingsDialog, form: Form)
    requires ValidTime(form.time)
    modifies d`table, d.store, d.app`reminders
    ensures d.app.reminders == old(d.app.reminders)
    ensures d.store.contents == Some(old(d.app.reminders))
  {
    d.AddReminder(Some(form));
    UnselectedNothing(d.app.reminders);
    d.DeleteReminder([]);
  }
}
