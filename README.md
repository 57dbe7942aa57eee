# Reminder app: list maintenance and tick dispatch

A model of the logic under the widgets of a small PyQt6 desktop reminder app.
A reminder is an object of `reminders.json` with four keys: `time`
(`HH:mm:ss`), `action` (the message), `type` (`彈窗` popup or `彈幕` banner)
and `image` (a path, possibly empty, possibly absent). Three copies of the app
coexist and disagree, and each is modelled as it behaves:

- `main.py` (module `MainApp`): the window loads the list (a missing file
  gives `[]`). Start shows every reminder at once, whatever its time, or shows
  a "no reminders" box when the list is empty. Each reminder is shown as a
  popup (with an animation when it has an image) or a banner (media played
  when it has an image, the message always). As written, an animated popup
  raises `TypeError` instead of showing (see Findings). Its settings dialog
  shows the list as a table, deletes the selected rows and writes the whole
  list back. As written, its add does nothing: it compares the add dialog's
  exec() code with a code that exec() never returns (see Findings).
  `MainApp.SettingsDialog.AddReminder` models the comparison evidently
  intended, which appends the new record.
- `main2.py` (module `TickApp`): once started, each tick compares every
  reminder's `time` with the clock text and shows a message box for each
  matching popup. A popup without an `image` key raises `KeyError` out of
  `checkReminders`: the reminders after it are not checked, and the model
  hands the error back. Banners show nothing. The list is never changed, so a reminder
  fires again at every tick whose clock text equals its time.
- `settings_dialog.py` (module `Settings`): the same table and delete as
  main.py, but adding goes through `add_reminder_dialog.py` (module
  `AddDialog`). That dialog appends the record to the file only, and never to
  the in-memory list. The next delete or save therefore writes the stale list
  over the file (`Settings.AddThenDeleteDropsRecord`).

Shared pieces: `TimeFormat` is the `HH:mm:ss` formatter, its parser, and
their round trips and injectivity. `Records` holds the record, the table row,
the notifications, the file, and the record built from the add form.
`Selection` covers reverse-order deletion and proves that it equals "keep the
unselected indices, in order".

The clock is an input (`now`). The file is a `ReminderFile` object whose
`contents` is `None` while the file does not exist. Every notification is an
`Event` appended to the window's `events`. User choices come in as
parameters: the add form's fields, OK or Cancel, and the selected rows.

The code has no reminder identifiers, no fired-once watermark, no
daily re-arm, no atomic save, no `NotFound` and no corrupt-file error, so the
model has none either. Matching is exact equality of the `HH:mm:ss` text.
main.py formats with `hh:mm:ss` and main2.py and the add dialog with
`HH:mm:ss`. Without an AM/PM marker Qt writes both as zero-padded 24-hour
time, so one formatter serves both.

## Model

| member | source | states |
|---|---|---|
| `TimeFormat.Format` | add_reminder_dialog.py:83 | the time is 8 characters: digits, with ':' at positions 2 and 5 |
| `TimeFormat.Parse` | main.py:56 | a parsed time is valid, and only text of the `HH:mm:ss` shape parses |
| `TimeFormat.ParseFormat` | add_reminder_dialog.py:83 | parsing a formatted valid time gives that time back |
| `TimeFormat.FormatParse` | main.py:56 | formatting a parsed time gives the same text back: each valid time has one spelling |
| `TimeFormat.FormatInjective` | main2.py:45-48 | the clock text equals a formatted time exactly when (h, m, s) are equal |
| `Records.RowOf` | settings_dialog.py:54-57 | the row's cells are time, action and type, and the image cell is empty exactly when there is no media |
| `Records.Rows` | settings_dialog.py:51-57 | one row per reminder, in list order |
| `Records.ReminderFile.constructor` | main.py:43-44 | the file holds the given contents, where None is a file that does not exist |
| `Records.StoredOrEmpty` | add_reminder_dialog.py:90-94 | a missing file reads as the empty list, and an existing one as its list |
| `Records.Label` | add_reminder_dialog.py:39 | the type is always one of the two combo entries |
| `Records.NewRecord` | add_reminder_dialog.py:82-87 | the record has exactly the form's fields, with time parseable back to the chosen time, type one of the two entries and image present |
| `Records.NewRecordDueIff` | add_reminder_dialog.py:83 | a record made by the form matches the clock text exactly when its chosen time is now |
| `Selection.RemoveAt` | settings_dialog.py:85 | `del s[i]`: the list is one shorter, the elements before i are unchanged and those after it move down by one |
| `Selection.Unselected` | main.py:173-175 | keeping the unselected records never adds or repeats a record, and never lengthens the list |
| `Selection.DeleteDescending` | settings_dialog.py:84-85 | deleting k ascending selected rows, last first, shortens the list by k |
| `Selection.DeleteDescendingIsUnselected` | settings_dialog.py:83-85 | the reverse-order deletion removes exactly the selected indices and keeps the rest in order |
| `Selection.UnselectedLength` | main.py:173-175 | deleting a selection of k rows leaves exactly |s| - k records |
| `Selection.UnselectedNothing` | settings_dialog.py:83-85 | an empty selection deletes nothing |
| `MainApp.ShowPopupReminder` | main.py:76-86 | one information box with the message, animated exactly when the image is non-empty, never media playback |
| `MainApp.ShowBannerReminder` | main.py:88-97 | the media plays only when the image is non-empty, and the message box always comes last |
| `MainApp.ShowReminder` | main.py:62-74 | popup path for `彈窗`, banner path for `彈幕`, nothing for any other type, and the last box shows the action |
| `MainApp.MediaOnlyWithImage` | main.py:69 | an event that uses media exists only when the image is present and non-empty, and it uses that path |
| `MainApp.DispatchAllSilentIff` | main.py:55-58 | start shows nothing for a non-empty list exactly when none of its reminders is a popup or a banner |
| `MainApp.DispatchAllAppend` | main.py:55-58 | showing a list shows its parts in order: each reminder once, in place |
| `MainApp.DispatchAllIgnoresTime` | main.py:55-58 | what start shows does not depend on the reminders' times |
| `MainApp.ShowPopupReminderAsWritten` | main.py:80-86 | as written, the popup raises TypeError exactly when the image is truthy, and otherwise is the intended plain box |
| `MainApp.ShowReminderAsWritten` | main.py:62-74 | as written, showing raises exactly for a popup with a non-empty image, and otherwise shows what the intended show_reminder shows |
| `MainApp.DispatchAllAsWrittenRaisesIff` | main.py:54-58 | as written, start raises exactly when the list holds a popup with an image, and when it does not it shows what the intended dispatch shows |
| `MainApp.AnimatedPopupRaisesAsWritten` | main.py:84 | a popup with image "cat.gif" raises as written, where the intended box would show the animation |
| `MainApp.ExecCode` | main.py:158 | the add dialog's exec() returns only Accepted (1) or Rejected (0) |
| `MainApp.ExecNeverOk` | main.py:158 | no way of closing the add dialog gives 0x400, the code add_reminder compares with |
| `MainApp.ReminderApp.constructor` | main.py:10-36 | the window starts with the file's list, or with [] when there is no file, and has shown nothing |
| `MainApp.ReminderApp.LoadRemindersFromJson` | main.py:38-46 | a missing file gives the empty list, and an existing one gives its list |
| `MainApp.ReminderApp.StartReminder` | main.py:48-60 | an empty list shows the "no reminders" box only; otherwise every reminder is shown in list order; the list is unchanged |
| `MainApp.SettingsDialog.constructor` | main.py:106-137 | the table starts as the rows of the parent's list |
| `MainApp.SettingsDialog.PopulateTable` | main.py:139-151 | the table is cleared, then holds exactly the rows of the parent's list |
| `MainApp.SettingsDialog.SaveRemindersToJson` | main.py:179-184 | the file holds exactly the parent's list |
| `MainApp.SettingsDialog.AddReminderAsWritten` | main.py:153-167 | only the code 0x400 would append, refresh and save; any other code leaves list, table and file unchanged |
| `MainApp.SettingsDialog.AddReminder` | main.py:153-167 | on OK, one record is appended at the end, the earlier records are unchanged, the table is rebuilt and the whole list saved; on Cancel nothing changes |
| `MainApp.SettingsDialog.DeleteReminder` | main.py:169-177 | exactly the selected rows are removed, the others stay in order, the table is rebuilt and the whole list saved |
| `MainApp.OkAddsNothingAsWritten` | main.py:158 | as written, pressing OK in the add dialog changes neither the list, the table nor the file |
| `MainApp.SaveThenLoad` | main.py:42-46 | after a save, loading gives back the same list |
| `TickApp.ShowReminder` | main2.py:51-60 | a popup gives one message box with the action, carrying the image note exactly when the image is non-empty; a missing image key raises KeyError; every other type, banner included, shows nothing |
| `TickApp.Due` | main2.py:46-48 | no more reminders are due than the list holds |
| `TickApp.DueAppend` | main2.py:46-49 | the due reminders of a list are those of its parts, in list order |
| `TickApp.DueCounts` | main2.py:46-49 | each reminder is due as often as it occurs when its time equals the clock text, and never otherwise |
| `TickApp.DueMember` | main2.py:46-48 | a reminder is due exactly when it is in the list and its time equals the clock text |
| `TickApp.DueEmpty` | main2.py:48 | nothing is due exactly when no reminder's time equals the clock text |
| `TickApp.DueSameTime` | main2.py:46-49 | reminders sharing the clock's time all fire on that tick, each once, in list order |
| `TickApp.DueIffSameTime` | main2.py:45-48 | a reminder whose time was formatted from (h, m, s) is due exactly at that time of day |
| `TickApp.Run` | main2.py:46-49 | at most one box per due reminder, and the only exception is KeyError for the `image` key |
| `TickApp.RunAppend` | main2.py:46-49 | until an exception, checking a list is checking its parts in order |
| `TickApp.Step` | main2.py:48-49 | a reminder whose time is not the clock text changes nothing, and a shown reminder only adds boxes after those already shown |
| `TickApp.RunDueRaisesIff` | main2.py:46-57 | the run over the due reminders raises exactly when a reminder of the list with the clock's time is a popup without an `image` key |
| `TickApp.Tick` | main2.py:43-49 | a tick at `now` raises exactly when a reminder whose time is now is a popup without an `image` key |
| `TickApp.RunStops` | main2.py:49 | after a KeyError, later due reminders show nothing |
| `TickApp.RunRaisesIff` | main2.py:57 | a tick raises exactly when a due popup has no image key |
| `TickApp.BannersAreSilent` | main2.py:53 | when only banners are due, nothing is shown and nothing is raised |
| `TickApp.NothingDueNothingShown` | main2.py:43-49 | when no time equals now, the tick shows nothing and raises nothing |
| `TickApp.ReminderApp.constructor` | main2.py:10-12 | the window holds the given list and has shown nothing |
| `TickApp.ReminderApp.StartTimer` | main2.py:37-41 | each start adds one more running one-second timer |
| `TickApp.ReminderApp.CheckReminders` | main2.py:43-49 | the tick shows the due reminders in list order, stops at the first KeyError and returns it, and leaves the list unchanged |
| `AddDialog.AddReminderDialog.constructor` | add_reminder_dialog.py:6-8 | the dialog starts not accepted |
| `AddDialog.AddReminderDialog.SaveReminder` | add_reminder_dialog.py:78-102 | the file holds the stored list (or [] when missing) followed by exactly the new record, and then the dialog is accepted |
| `Settings.SettingsDialog.constructor` | settings_dialog.py:8-11 | the table starts as the rows of the parent's list |
| `Settings.SettingsDialog.PopulateTable` | settings_dialog.py:45-57 | the table is cleared, then holds exactly the rows of the parent's list, in order |
| `Settings.SettingsDialog.AddReminder` | settings_dialog.py:59-66 | the parent's list never changes; on OK the file gains the record and the table is rebuilt; on Cancel nothing changes |
| `Settings.SettingsDialog.DeleteReminder` | settings_dialog.py:79-87 | exactly the selected rows are removed, the others stay in order, the table is rebuilt and the whole list overwrites the file, even for an empty selection |
| `Settings.SettingsDialog.SaveRemindersToJson` | settings_dialog.py:89-94 | the file holds exactly the parent's list |
| `Settings.AddThenDeleteDropsRecord` | settings_dialog.py:63-66 | a delete after an add writes the parent's old list over the file, so the added record is lost |

## Findings

| source | as written | input that shows it | evidently intended | confidence | as-written member | corrected member |
|---|---|---|---|---|---|---|
| main.py:84 | the fifth argument of `QMessageBox.information` is the result of `QLabel.setMovie`, which is None, where a default button is expected | a `彈窗` reminder with image "cat.gif": the movie starts, then the call raises TypeError, no box shows, and start_reminder shows no later reminder | show the label holding the movie in the box, or drop the fifth argument, so that the box shows with the animation | medium; not executed | `MainApp.AnimatedPopupRaisesAsWritten` (on `MainApp.ShowReminderAsWritten` and `MainApp.DispatchAllAsWritten`) | `MainApp.ShowPopupReminder` |
| main.py:158 | `add_dialog.exec() == QMessageBox.StandardButton.Ok`: exec() returns 1 (Accepted) or 0 (Rejected), and Ok is 0x400 | OK pressed with any form: exec() returns 1, which is not 0x400, so nothing is appended, shown or saved | compare with `QDialog.DialogCode.Accepted`, as settings_dialog.py:65 does | high; not executed | `MainApp.OkAddsNothingAsWritten` (on `MainApp.SettingsDialog.AddReminderAsWritten`) | `MainApp.SettingsDialog.AddReminder` |

## Left out

- Widget construction and layout (`__init__`/`init_UI`/`initUI` beyond filling the table) are left out, along with `open_settings`/`openSettings`, which only build a dialog and run it. The file picker `select_image` is left out too. These are user interface.
- Message boxes, movies and media players are not rendered. Each shows up as an `Event`. For an animated popup the intended event records only the animation path. The label that main.py creates and the movie left running when the call raises are not modelled.
- QTimer and the wall clock are left out: the clock is the `now` parameter. main.py's `start_reminder` also starts its timer with a `secsTo` delay (main.py:56-57), and main.py:33 connects the timeout to `show_reminder`, which needs an argument. Neither is modelled. Start shows every reminder at once, and the model says so.
- TickApp.ReminderApp.CheckReminders: returning the KeyError is where the model stops. In PyQt6 an exception escaping a Qt slot is fatal by default (qFatal, then abort), so the process ends there. The abort is not modelled.
- TickApp.ReminderApp.CheckReminders: `msg.exec()` runs a nested event loop, so a timer can enter `checkReminders` again while a box is open. The model treats each tick as one atomic step and does not model that re-entry.
- MainApp.DispatchAllAsWritten: the TypeError escaping start_reminder's slot also ends the process. The model stops the dispatch and returns the error. `QMessageBox.information` in main.py likewise runs a nested event loop, and its re-entry is not modelled.
- `TickApp.ReminderApp.StartTimer` only counts running timers. That each of them calls `checkReminders` once per second is not modelled.
- JSON text is not modelled: no parsing, no serialisation, no encoding options. The file is an optional list of records. A malformed file (where `json.load` raises) and records missing `time`, `action` or `type` are not modelled.
- The `__main__` blocks of main.py and main2.py (process start-up and the initial file read) are left out.
- The order in which Qt's `selectedRows()` returns the selection is not modelled. Deletion requires distinct, ascending, in-range row indices.
- settings_dialog.py also keeps `self.reminders`, which is the same list object as the parent's but which none of its methods read. It also keeps `self.add_dialog`. Both are modelled only through the parent's list and a local dialog.
- A write to the file is modelled as one step. Partial or interrupted writes are not modelled.
