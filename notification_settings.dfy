/**
 * The reminder settings screen: the label of each reminder offset, the
 * default/custom labelling with its delete button, and adding a preset or
 * removing a reminder through the preferences hook.
 */
module NotificationSettings {
  import opened JsText
  import opened UseNotifications
  import opened NotificationService

  /** `formatNotificationTime`: the largest non-zero unit decides the label. */
  function FormatNotificationTime(daysBefore: int, hoursBefore: int, minutesBefore: int): string {
    if daysBefore > 0 then
      (if daysBefore == 1 then "1 day before" else NatToString(daysBefore) + " days before")
    else if hoursBefore > 0 then
      (if hoursBefore == 1 then "1 hour before" else NatToString(hoursBefore) + " hours before")
    else if minutesBefore > 0 then
      NatToString(minutesBefore) + " minutes before"
    else "At due time"
  }

  /**
   * Days hide hours and minutes, hours hide minutes, and "At due time" is
   * left exactly when no unit is positive.
   */
  lemma LabelLeadingUnit(d: int, h: int, m: int)
    ensures d > 0 ==> FormatNotificationTime(d, h, m) == FormatNotificationTime(d, 0, 0)
    ensures d <= 0 && h > 0 ==> FormatNotificationTime(d, h, m) == FormatNotificationTime(0, h, 0)
    ensures FormatNotificationTime(d, h, m) == "At due time" <==> d <= 0 && h <= 0 && m <= 0
  {
    LabelAtDueIff(d, h, m);
  }

  lemma LabelAtDueIff(d: int, h: int, m: int)
    ensures FormatNotificationTime(d, h, m) == "At due time" <==> d <= 0 && h <= 0 && m <= 0
  {
    var caption := FormatNotificationTime(d, h, m);
    if d > 1 || (d <= 0 && h > 1) || (d <= 0 && h <= 0 && m > 0) {
      assert IsDigit(caption[0]);
    }
  }

  /** Minutes have no singular form: one minute is "1 minutes before". */
  lemma OneMinuteLabel()
    ensures FormatNotificationTime(0, 0, 1) == "1 minutes before"
  {
    assert NatToString(1) == "1";
    assert FormatNotificationTime(0, 0, 1) == "1" + " minutes before";
  }

  /**
   * The settings label and the phrase in the notification body name the
   * same time: "At due time" goes with "now", and apart from a single day
   * ("tomorrow") or a single hour ("in 1 hour") the body reads "in "
   * followed by the label without its trailing " before".
   */
  lemma LabelMatchesDueText(p: NotificationPreference)
    ensures var caption := FormatNotificationTime(p.daysBefore, p.hoursBefore, p.minutesBefore);
      var text := FormatTimeUntilDue(p);
      && (caption == "At due time" <==> text == "now")
      && (caption != "At due time" && p.daysBefore != 1 && !(p.daysBefore <= 0 && p.hoursBefore == 1) ==>
            |caption| > 7 && text == "in " + caption[..|caption| - 7])
  {
    LabelAtDueIff(p.daysBefore, p.hoursBefore, p.minutesBefore);
    TimeUntilDueNowIff(p);
    if p.daysBefore > 1 {
      StripBefore(NatToString(p.daysBefore) + " days");
    } else if p.daysBefore <= 0 && p.hoursBefore > 1 {
      StripBefore(NatToString(p.hoursBefore) + " hours");
    } else if p.daysBefore <= 0 && p.hoursBefore <= 0 && p.minutesBefore > 0 {
      StripBefore(NatToString(p.minutesBefore) + " minutes");
    }
  }

  lemma StripBefore(stem: string)
    ensures var caption := stem + " before"; |caption| == |stem| + 7 && caption[..|stem|] == stem
  {
  }

  /** The label under a reminder's time. */
  function TypeLabel(p: NotificationPreference): string {
    if p.kind == DefaultReminder then "Default reminder" else "Custom reminder"
  }

  /** Only custom reminders get a delete button. */
  predicate HasDeleteButton(p: NotificationPreference) {
    p.kind == CustomReminder
  }

  /** A reminder can be deleted exactly when it is labelled a custom reminder. */
  lemma DeleteButtonOnCustomOnly(p: NotificationPreference)
    ensures HasDeleteButton(p) <==> TypeLabel(p) == "Custom reminder"
    ensures !HasDeleteButton(p) <==> TypeLabel(p) == "Default reminder"
  {
    if p.kind == DefaultReminder {
      assert TypeLabel(p)[0] == 'D';
    }
  }

  datatype Preset = Preset(caption: string, days: int, hours: int, minutes: int)

  const Presets: seq<Preset> := [
    Preset("1 week before", 7, 0, 0),
    Preset("2 days before", 2, 0, 0),
    Preset("1 day before", 1, 0, 0),
    Preset("1 hour before", 0, 1, 0),
    Preset("30 minutes before", 0, 0, 30)
  ]

  lemma DaysLabel(n: nat, digit: char)
    requires 2 <= n < 10 && digit == DigitChar(n)
    ensures FormatNotificationTime(n, 0, 0) == [digit] + " days before"
  {
  }

  lemma ThirtyMinutesLabel()
    ensures FormatNotificationTime(0, 0, 30) == "30 minutes before"
  {
    assert NatToString(30) == NatToString(3) + [DigitChar(0)];
    assert NatToString(3) == [DigitChar(3)];
  }

  /**
   * Once added, every preset is listed under its own label, except the
   * week, which is listed as "7 days before".
   */
  lemma PresetLabels()
    ensures FormatNotificationTime(Presets[0].days, Presets[0].hours, Presets[0].minutes) == "7 days before"
    ensures FormatNotificationTime(Presets[1].days, Presets[1].hours, Presets[1].minutes) == Presets[1].caption
    ensures FormatNotificationTime(Presets[2].days, Presets[2].hours, Presets[2].minutes) == Presets[2].caption
    ensures FormatNotificationTime(Presets[3].days, Presets[3].hours, Presets[3].minutes) == Presets[3].caption
    ensures FormatNotificationTime(Presets[4].days, Presets[4].hours, Presets[4].minutes) == Presets[4].caption
  {
    DaysLabel(7, '7');
    DaysLabel(2, '2');
    ThirtyMinutesLabel();
  }

  class SettingsScreen {
    var showPresets: bool
    /** Alerts shown, oldest first. */
    var alerts: seq<string>

    constructor ()
      ensures !showPresets && alerts == []
    {
      showPresets := false;
      alerts := [];
    }

    /** `handleAddPreset`: the preset's offsets become a new custom reminder. */
    method HandleAddPreset(hook: NotificationPreferences, preset: Preset, newId: string, createdAt: string, writeOk: bool)
      modifies this, hook
      ensures hook.preferences == old(hook.preferences) + [CustomPreference(newId, preset.days, preset.hours, preset.minutes, createdAt)]
      ensures hook.stored == (if writeOk then SavedPreferences(hook.preferences) else old(hook.stored))
      ensures !showPresets && alerts == old(alerts) + ["Notification reminder added!"]
    {
      var _ := hook.AddCustomNotification(preset.days, preset.hours, preset.minutes, newId, createdAt, writeOk);
      showPresets := false;
      alerts := alerts + ["Notification reminder added!"];
    }

    /** `handleRemoveNotification`: the reminder goes only once the user confirms. */
    method HandleRemoveNotification(hook: NotificationPreferences, preferenceId: string, confirmed: bool, writeOk: bool)
      modifies hook
      ensures confirmed ==> hook.preferences == WithoutPreference(old(hook.preferences), preferenceId)
                            && hook.stored == (if writeOk then SavedPreferences(hook.preferences) else old(hook.stored))
      ensures !confirmed ==> hook.preferences == old(hook.preferences) && hook.stored == old(hook.stored)
    {
      if confirmed {
        hook.RemoveNotification(preferenceId, writeOk);
      }
    }
  }
}
