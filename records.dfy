/**
 * The reminder record as reminders.json stores it, the table row the settings
 * dialogs show for it, the notifications the program raises, and the file
 * itself.
 */
module Records {
  import opened Wrappers
  import opened TimeFormat

  /** The two entries of the type combo box: popup window and scrolling banner. */
  const POPUP: string := "彈窗"
  const BANNER: string := "彈幕"

  /** Window title of every message box ("reminder"). */
  const TITLE: string := "提醒"

  /**
   * One object of reminders.json. `kind` holds the JSON key "type" (a Dafny
   * keyword). The JSON text may hold any string there; `image` is None when
   * the key is absent.
   */
  datatype Reminder = Reminder(time: string, action: string, kind: string, image: Option<string>)

  /** Python truthiness of the image value: present and not the empty path. */
  predicate HasMedia(r: Reminder) {
    r.image.Some? && r.image.value != ""
  }

  /** A notification put on screen, in the order the program raises them. */
  datatype Event =
    | Information(title: string, text: string)                              // QMessageBox.information
    | InformationWithMovie(title: string, text: string, movie: string)      // the same, with a QMovie started
    | PlayMedia(path: string)                                                // QMediaPlayer.play
    | MessageBox(title: string, text: string, informative: Option<string>)  // QMessageBox.exec

  /** A message box titled TITLE whose text is `message`. */
  predicate ShowsMessage(e: Event, message: string) {
    !e.PlayMedia? && e.title == TITLE && e.text == message
  }

  /** One row of the settings table: time, content, type, image. */
  datatype Row = Row(time: string, action: string, kind: string, image: string)

  /** The cells of a reminder's row; `reminder.get("image", "")` for the last one. */
  function RowOf(r: Reminder): (row: Row)
    ensures row.time == r.time && row.action == r.action && row.kind == r.kind
    ensures row.image == "" <==> !HasMedia(r)
    ensures HasMedia(r) ==> row.image == r.image.value
  {
    Row(r.time, r.action, r.kind, if r.image.Some? then r.image.value else "")
  }

  /** The table after it is filled from `rs`: one row per reminder, in list order. */
  function Rows(rs: seq<Reminder>): (t: seq<Row>)
    ensures |t| == |rs|
    ensures forall i :: 0 <= i < |rs| ==> t[i] == RowOf(rs[i])
  {
    if rs == [] then [] else Rows(rs[..|rs| - 1]) + [RowOf(rs[|rs| - 1])]
  }

  /** reminders.json; `contents` is None while the file does not exist. */
  class ReminderFile {
    var contents: Option<seq<Reminder>>

    constructor (initial: Option<seq<Reminder>>)
      ensures contents == initial
    {
      contents := initial;
    }
  }

  /** What `json.load` yields, with FileNotFoundError read as the empty list. */
  function StoredOrEmpty(f: Option<seq<Reminder>>): (rs: seq<Reminder>)
    ensures f.None? ==> rs == []
    ensures f.Some? ==> rs == f.value
  {
    if f.Some? then f.value else []
  }

  /** The style chosen in the type combo box. */
  datatype Style = Popup | Banner

  /** `type_combo.currentText()`: always one of the two combo entries. */
  function Label(s: Style): (l: string)
    ensures l == POPUP || l == BANNER
    ensures l == POPUP <==> s == Popup
  {
    match s
    case Popup => POPUP
    case Banner => BANNER
  }

  /** The fields of the add-reminder form when OK is pressed. */
  datatype Form = Form(time: TimeOfDay, action: string, style: Style, image: string)

  /**
   * The record built from the form: exactly the four keys, the time as
   * "HH:mm:ss", the type one of the two entries, the image always present
   * (possibly empty).
   */
  function NewRecord(f: Form): (r: Reminder)
    requires ValidTime(f.time)
    ensures Parse(r.time) == Some(f.time)
    ensures |r.time| == 8 && r.time[2] == ':' && r.time[5] == ':'
    ensures r.action == f.action
    ensures r.kind == POPUP || r.kind == BANNER
    ensures r.kind == POPUP <==> f.style == Popup
    ensures r.image == Some(f.image)
    ensures HasMedia(r) <==> f.image != ""
  {
    ParseFormat(f.time);
    Reminder(Format(f.time), f.action, Label(f.style), Some(f.image))
  }

  /** A record made by the form is due at `now` exactly when its chosen time is `now`. */
  lemma NewRecordDueIff(f: Form, now: TimeOfDay)
    requires ValidTime(f.time) && ValidTime(now)
    ensures NewRecord(f).time == Format(now) <==> f.time == now
  {
    FormatInjective(f.time, now);
  }
}
