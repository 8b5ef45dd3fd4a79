/**
 * The reminder preferences hook: the default preference written on first
 * use, and the add, remove and toggle operations, each of which replaces the
 * list in state and in the `notification_preferences` AsyncStorage entry.
 * The clock (for ids and creation times) and the outcome of each storage
 * write are parameters.
 */
module UseNotifications {
  import opened Common

  datatype ReminderType = DefaultReminder | CustomReminder

  /** A reminder offset before the due date, and whether it is on. */
  datatype NotificationPreference = NotificationPreference(
    id: string,
    debtId: string,
    kind: ReminderType,
    daysBefore: int,
    hoursBefore: int,
    minutesBefore: int,
    isEnabled: bool,
    createdAt: string)

  /** The stored entry: nothing (or an empty string), text that cannot be read or parsed, or a list. */
  datatype StoredPreferences = NoPreferences | UnreadablePreferences | SavedPreferences(preferences: seq<NotificationPreference>)

  /** The preference created on first use: two days before, switched on. */
  function DefaultPreference(createdAt: string): (p: NotificationPreference)
    ensures p.kind == DefaultReminder && p.isEnabled
    ensures p.daysBefore == 2 && p.hoursBefore == 0 && p.minutesBefore == 0
  {
    NotificationPreference("default", "default", DefaultReminder, 2, 0, 0, true, createdAt)
  }

  /** The new entry of `addCustomNotification`. */
  function CustomPreference(id: string, daysBefore: int, hoursBefore: int, minutesBefore: int, createdAt: string)
    : (p: NotificationPreference)
    ensures p.kind == CustomReminder && p.isEnabled && p.debtId == "default"
    ensures p.daysBefore == daysBefore && p.hoursBefore == hoursBefore && p.minutesBefore == minutesBefore
  {
    NotificationPreference(id, "default", CustomReminder, daysBefore, hoursBefore, minutesBefore, true, createdAt)
  }

  /** `preferences.filter(pref => pref.id !== preferenceId)`. */
  function WithoutPreference(ps: seq<NotificationPreference>, preferenceId: string): seq<NotificationPreference> {
    if ps == [] then []
    else (if ps[0].id == preferenceId then [] else [ps[0]]) + WithoutPreference(ps[1..], preferenceId)
  }

  /** `preferences.map(...)`: the entries with the id have `isEnabled` flipped. */
  function Toggled(ps: seq<NotificationPreference>, preferenceId: string): seq<NotificationPreference> {
    seq(|ps|, i requires 0 <= i < |ps| =>
      if ps[i].id == preferenceId then ps[i].(isEnabled := !ps[i].isEnabled) else ps[i])
  }

  /** An entry whose id occurs in the list. */
  predicate HasPreference(ps: seq<NotificationPreference>, preferenceId: string) {
    exists i :: 0 <= i < |ps| && ps[i].id == preferenceId
  }

  /**
   * Removing drops every entry with the id and keeps every other entry; an
   * id that is not there leaves the list as it was.
   */
  lemma {:induction false} RemoveShape(ps: seq<NotificationPreference>, preferenceId: string)
    ensures forall p :: p in WithoutPreference(ps, preferenceId) <==> p in ps && p.id != preferenceId
    ensures !HasPreference(ps, preferenceId) ==> WithoutPreference(ps, preferenceId) == ps
  {
    if ps != [] {
      RemoveShape(ps[1..], preferenceId);
      assert ps == [ps[0]] + ps[1..];
      if !HasPreference(ps, preferenceId) {
        assert ps[0].id != preferenceId;
        assert !HasPreference(ps[1..], preferenceId) by {
          forall i | 0 <= i < |ps[1..]| ensures ps[1..][i].id != preferenceId {
            assert ps[1..][i] == ps[i + 1];
          }
        }
      }
    }
  }

  /**
   * Toggling keeps length and order, flips `isEnabled` on the entries with
   * the id and changes nothing else.
   */
  lemma ToggleShape(ps: seq<NotificationPreference>, preferenceId: string)
    ensures var t := Toggled(ps, preferenceId);
      && |t| == |ps|
      && forall i :: 0 <= i < |ps| ==>
           && t[i].(isEnabled := ps[i].isEnabled) == ps[i]
           && (t[i].isEnabled <==> (if ps[i].id == preferenceId then !ps[i].isEnabled else ps[i].isEnabled))
  {
  }

  /** Toggling the same id twice gives back the original list. */
  lemma ToggleTwice(ps: seq<NotificationPreference>, preferenceId: string)
    ensures Toggled(Toggled(ps, preferenceId), preferenceId) == ps
  {
    var t := Toggled(Toggled(ps, preferenceId), preferenceId);
    assert forall i :: 0 <= i < |ps| ==> t[i] == ps[i];
  }

  class NotificationPreferences {
    /** The hook's `preferences` state. */
    var preferences: seq<NotificationPreference>
    var stored: StoredPreferences

    constructor (stored: StoredPreferences)
      ensures preferences == [] && this.stored == stored
    {
      preferences := [];
      this.stored := stored;
    }

    /**
     * `loadPreferences`: a stored list is taken as it is; with nothing stored
     * the default preference is set and saved; an unreadable entry is logged
     * and the state stays as it was.
     */
    method LoadPreferences(createdAt: string, writeOk: bool)
      modifies this
      ensures old(stored).SavedPreferences? ==> preferences == old(stored).preferences && stored == old(stored)
      ensures old(stored).NoPreferences? ==>
        preferences == [DefaultPreference(createdAt)]
        && stored == (if writeOk then SavedPreferences(preferences) else old(stored))
      ensures old(stored).UnreadablePreferences? ==> preferences == old(preferences) && stored == old(stored)
    {
      match stored
      case SavedPreferences(ps) =>
        preferences := ps;
      case NoPreferences =>
        var defaultPrefs := [DefaultPreference(createdAt)];
        preferences := defaultPrefs;
        if writeOk {
          stored := SavedPreferences(defaultPrefs);
        }
      case UnreadablePreferences =>
    }

    /** `updatePreferences`: the state takes the list, and so does storage when the write succeeds. */
    method UpdatePreferences(newPreferences: seq<NotificationPreference>, writeOk: bool)
      modifies this
      ensures preferences == newPreferences
      ensures stored == (if writeOk then SavedPreferences(newPreferences) else old(stored))
    {
      preferences := newPreferences;
      if writeOk {
        stored := SavedPreferences(newPreferences);
      }
    }

    method AddCustomNotification(daysBefore: int, hoursBefore: int, minutesBefore: int,
                                 newId: string, createdAt: string, writeOk: bool)
      returns (p: NotificationPreference)
      modifies this
      ensures p == CustomPreference(newId, daysBefore, hoursBefore, minutesBefore, createdAt)
      ensures preferences == old(preferences) + [p]
      ensures stored == (if writeOk then SavedPreferences(preferences) else old(stored))
    {
      p := CustomPreference(newId, daysBefore, hoursBefore, minutesBefore, createdAt);
      UpdatePreferences(preferences + [p], writeOk);
    }

    method RemoveNotification(preferenceId: string, writeOk: bool)
      modifies this
      ensures preferences == WithoutPreference(old(preferences), preferenceId)
      ensures stored == (if writeOk then SavedPreferences(preferences) else old(stored))
    {
      UpdatePreferences(WithoutPreference(preferences, preferenceId), writeOk);
    }

    method ToggleNotification(preferenceId: string, writeOk: bool)
      modifies this
      ensures preferences == Toggled(old(preferences), preferenceId)
      ensures stored == (if writeOk then SavedPreferences(preferences) else old(stored))
    {
      UpdatePreferences(Toggled(preferences, preferenceId), writeOk);
    }
  }
}
