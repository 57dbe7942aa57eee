/**
 * add_reminder_dialog.py: the add-reminder form. On OK it builds the record,
 * reads the stored list (a missing file reads as []), appends the record,
 * writes the list back and only then accepts the dialog.
 */
module AddDialog {
  import opened Wrappers
  import opened TimeFormat
  import opened Records

  class AddReminderDialog {
    /** Set by accept(): exec() then returns QDialog.DialogCode.Accepted. */
    var accepted: bool

    constructor ()
      ensures !accepted
    {
      accepted := false;
    }

    /**
     * save_reminder: the file afterwards holds the list it held before (or
     * [] when it did not exist) followed by exactly the new record; the
     * dialog is accepted once the write is done.
     */
    method SaveReminder(form: Form, store: ReminderFile)
      requires ValidTime(form.time)
      modifies this, store
      ensures store.contents == Some(StoredOrEmpty(old(store.contents)) + [NewRecord(form)])
      ensures accepted
    {
      var reminder := NewRecord(form);
      var reminders: seq<Reminder>;
      match store.contents {
        case Some(stored) => reminders := stored;
        case None => reminders := [];
      }
      reminders := reminders + [reminder];
      store.contents := Some(reminders);
      accepted := true;
    }
  }
}
