/**
 * The reminder scheduler: which preferences of a debt give a notification
 * and when, the record returned for each, the phrase naming the time left,
 * and cancelling and rescheduling the notifications of a debt. The
 * platform's queue of pending notifications is the field `pending` of
 * `NotificationScheduler`; the permission answer, the clock and how many
 * scheduling requests the platform accepts are parameters.
 */
module NotificationService {
  import opened JsText
  import opened UseNotifications

  const MsPerDay := 86400000
  const MsPerHour := 3600000
  const MsPerMinute := 60000

  const ReminderTitle := "\U{1F4B0} Debt Reminder"

  /** The due time moved back by the preference's days, hours and minutes (milliseconds). */
  function TriggerTime(dueDate: int, p: NotificationPreference): (t: int)
    ensures p.daysBefore >= 0 && p.hoursBefore >= 0 && p.minutesBefore >= 0 ==> t <= dueDate
  {
    dueDate - p.daysBefore * MsPerDay - p.hoursBefore * MsPerHour - p.minutesBefore * MsPerMinute
  }

  /** A preference gives a notification when it is on and its trigger is still ahead. */
  predicate Schedules(p: NotificationPreference, dueDate: int, now: int) {
    p.isEnabled && TriggerTime(dueDate, p) > now
  }

  /** `formatTimeUntilDue`: the largest non-zero unit decides the phrase. */
  function FormatTimeUntilDue(p: NotificationPreference): string {
    if p.daysBefore > 0 then
      (if p.daysBefore == 1 then "tomorrow" else "in " + NatToString(p.daysBefore) + " days")
    else if p.hoursBefore > 0 then
      (if p.hoursBefore == 1 then "in 1 hour" else "in " + NatToString(p.hoursBefore) + " hours")
    else if p.minutesBefore > 0 then
      "in " + NatToString(p.minutesBefore) + " minutes"
    else "now"
  }

  /**
   * The phrase depends only on the largest non-zero unit: days hide hours
   * and minutes, hours hide minutes, and "now" is left when none is positive.
   */
  lemma TimeUntilDueLeadingUnit(p: NotificationPreference)
    ensures p.daysBefore > 0 ==>
      FormatTimeUntilDue(p) == FormatTimeUntilDue(p.(hoursBefore := 0, minutesBefore := 0))
    ensures p.daysBefore <= 0 && p.hoursBefore > 0 ==>
      FormatTimeUntilDue(p) == FormatTimeUntilDue(p.(daysBefore := 0, minutesBefore := 0))
    ensures FormatTimeUntilDue(p) == "now" <==> p.daysBefore <= 0 && p.hoursBefore <= 0 && p.minutesBefore <= 0
  {
    TimeUntilDueNowIff(p);
  }

  lemma TimeUntilDueNowIff(p: NotificationPreference)
    ensures FormatTimeUntilDue(p) == "now" <==> p.daysBefore <= 0 && p.hoursBefore <= 0 && p.minutesBefore <= 0
  {
    if p.daysBefore > 1 {
      assert FormatTimeUntilDue(p)[0] == 'i';
    } else if p.daysBefore <= 0 && p.hoursBefore > 0 {
      assert FormatTimeUntilDue(p)[0] == 'i' && FormatTimeUntilDue(p)[1] == 'n';
    } else if p.daysBefore <= 0 && p.hoursBefore <= 0 && p.minutesBefore > 0 {
      assert FormatTimeUntilDue(p)[1] == 'n';
    }
  }

  /** The record `scheduleDebtNotification` returns for one scheduled preference. */
  datatype ScheduledNotification = ScheduledNotification(
    id: string,
    debtId: string,
    title: string,
    dueText: string,
    scheduledDate: int,
    isDelivered: bool)

  function EntryFor(debtId: string, p: NotificationPreference, dueDate: int): (e: ScheduledNotification)
    ensures e.id == debtId + "_" + p.id && e.debtId == debtId && !e.isDelivered
    ensures e.scheduledDate == TriggerTime(dueDate, p)
  {
    ScheduledNotification(debtId + "_" + p.id, debtId, ReminderTitle, FormatTimeUntilDue(p), TriggerTime(dueDate, p), false)
  }

  /** The records for the preferences that schedule, in preference order. */
  function Entries(debtId: string, dueDate: int, prefs: seq<NotificationPreference>, now: int)
    : (es: seq<ScheduledNotification>)
    ensures |es| <= |prefs|
  {
    if prefs == [] then []
    else
      var p := prefs[|prefs| - 1];
      Entries(debtId, dueDate, prefs[..|prefs| - 1], now)
      + (if Schedules(p, dueDate, now) then [EntryFor(debtId, p, dueDate)] else [])
  }

  /** Scheduling a list in two parts gives the records of the first part, then of the second. */
  lemma {:induction false} EntriesAppend(debtId: string, dueDate: int, a: seq<NotificationPreference>,
                                         b: seq<NotificationPreference>, now: int)
    ensures Entries(debtId, dueDate, a + b, now) == Entries(debtId, dueDate, a, now) + Entries(debtId, dueDate, b, now)
    decreases |b|
  {
    if b == [] {
      assert a + b == a;
    } else {
      var init := b[..|b| - 1];
      assert (a + b)[..|a + b| - 1] == a + init;
      assert (a + b)[|a + b| - 1] == b[|b| - 1];
      EntriesAppend(debtId, dueDate, a, init, now);
    }
  }

  /**
   * A record is returned exactly for each preference that is on and whose
   * trigger is after now, with the id `debtId_prefId`, not yet delivered.
   */
  lemma {:induction false} EntriesMembers(debtId: string, dueDate: int, prefs: seq<NotificationPreference>, now: int)
    ensures forall e :: e in Entries(debtId, dueDate, prefs, now) <==>
      exists p :: p in prefs && Schedules(p, dueDate, now) && e == EntryFor(debtId, p, dueDate)
    decreases |prefs|
  {
    if prefs != [] {
      var init := prefs[..|prefs| - 1];
      var last := prefs[|prefs| - 1];
      EntriesMembers(debtId, dueDate, init, now);
      assert prefs == init + [last];
      forall e | e in Entries(debtId, dueDate, prefs, now)
        ensures exists p :: p in prefs && Schedules(p, dueDate, now) && e == EntryFor(debtId, p, dueDate)
      {
        if e in Entries(debtId, dueDate, init, now) {
          var p :| p in init && Schedules(p, dueDate, now) && e == EntryFor(debtId, p, dueDate);
          assert p in prefs;
        } else {
          assert Schedules(last, dueDate, now) && e == EntryFor(debtId, last, dueDate);
        }
      }
    }
  }

  /** The records of a prefix are a prefix of the records. */
  lemma EntriesPrefix(debtId: string, dueDate: int, prefs: seq<NotificationPreference>, i: nat, now: int)
    requires i <= |prefs|
    ensures var es := Entries(debtId, dueDate, prefs, now);
      var front := Entries(debtId, dueDate, prefs[..i], now);
      |front| <= |es| && es[..|front|] == front
  {
    assert prefs == prefs[..i] + prefs[i..];
    EntriesAppend(debtId, dueDate, prefs[..i], prefs[i..], now);
  }

  /** A notification waiting in the platform queue: the debt in its data and its trigger time. */
  datatype PendingNotification = PendingNotification(debtId: string, trigger: int)

  function Pending(es: seq<ScheduledNotification>): (ps: seq<PendingNotification>)
    ensures |ps| == |es|
  {
    seq(|es|, i requires 0 <= i < |es| => PendingNotification(es[i].debtId, es[i].scheduledDate))
  }

  /** The queue without the notifications of `debtId`, defined from the end. */
  function OtherDebts(queue: seq<PendingNotification>, debtId: string): seq<PendingNotification> {
    if queue == [] then []
    else
      OtherDebts(queue[..|queue| - 1], debtId)
      + (if queue[|queue| - 1].debtId == debtId then [] else [queue[|queue| - 1]])
  }

  /** Cancelling keeps exactly the notifications of other debts. */
  lemma {:induction false} OtherDebtsMembers(queue: seq<PendingNotification>, debtId: string)
    ensures forall n :: n in OtherDebts(queue, debtId) <==> n in queue && n.debtId != debtId
  {
    if queue != [] {
      var init := queue[..|queue| - 1];
      OtherDebtsMembers(init, debtId);
      assert queue == init + [queue[|queue| - 1]];
    }
  }

  /** How many notifications in the queue belong to `debtId`. */
  function Matching(queue: seq<PendingNotification>, debtId: string): nat {
    if queue == [] then 0
    else Matching(queue[..|queue| - 1], debtId) + (if queue[|queue| - 1].debtId == debtId then 1 else 0)
  }

  /**
   * The queue after the cancelling loop when the platform cancels `k`
   * requests and throws on the next: the first `k` notifications of
   * `debtId` are gone, everything else stays in place. Defined from the end.
   */
  function CancelFirst(queue: seq<PendingNotification>, debtId: string, k: nat): seq<PendingNotification> {
    if queue == [] then []
    else
      var init, last := queue[..|queue| - 1], queue[|queue| - 1];
      CancelFirst(init, debtId, k)
      + (if last.debtId == debtId && Matching(init, debtId) < k then [] else [last])
  }

  /** When the platform accepts every cancel, exactly the debt's notifications go. */
  lemma {:induction false} CancelAllIsOtherDebts(queue: seq<PendingNotification>, debtId: string, k: nat)
    requires Matching(queue, debtId) <= k
    ensures CancelFirst(queue, debtId, k) == OtherDebts(queue, debtId)
  {
    if queue != [] {
      CancelAllIsOtherDebts(queue[..|queue| - 1], debtId, k);
    }
  }

  /**
   * Once `k` of the debt's notifications have been met, the rest of the
   * queue is left exactly as it was.
   */
  lemma {:induction false} CancelFirstSaturated(a: seq<PendingNotification>, b: seq<PendingNotification>,
                                                debtId: string, k: nat)
    requires k <= Matching(a, debtId)
    ensures CancelFirst(a + b, debtId, k) == CancelFirst(a, debtId, k) + b
    ensures k <= Matching(a + b, debtId)
    decreases |b|
  {
    if b == [] {
      assert a + b == a;
    } else {
      var init := b[..|b| - 1];
      assert (a + b)[..|a + b| - 1] == a + init;
      assert (a + b)[|a + b| - 1] == b[|b| - 1];
      CancelFirstSaturated(a, init, debtId, k);
      assert b == init + [b[|b| - 1]];
    }
  }

  /** A cancel that stops partway never touches another debt's notifications. */
  lemma {:induction false} CancelFirstKeepsOthers(queue: seq<PendingNotification>, debtId: string, k: nat)
    ensures OtherDebts(CancelFirst(queue, debtId, k), debtId) == OtherDebts(queue, debtId)
  {
    if queue != [] {
      var init, last := queue[..|queue| - 1], queue[|queue| - 1];
      var c, cq := CancelFirst(init, debtId, k), CancelFirst(queue, debtId, k);
      CancelFirstKeepsOthers(init, debtId, k);
      if last.debtId == debtId && Matching(init, debtId) < k {
        assert cq == c;
      } else {
        assert cq == c + [last];
        assert cq[..|cq| - 1] == c && cq[|cq| - 1] == last;
      }
    }
  }

  /** Each cancel removes one of the debt's notifications, up to `k` of them. */
  lemma {:induction false} CancelFirstLength(queue: seq<PendingNotification>, debtId: string, k: nat)
    ensures |CancelFirst(queue, debtId, k)|
            == |queue| - (if Matching(queue, debtId) <= k then Matching(queue, debtId) else k)
  {
    if queue != [] {
      CancelFirstLength(queue[..|queue| - 1], debtId, k);
    }
  }

  /**
   * The cancelling loop meets the debt's `k + 1`-th notification at `i`:
   * the queue as the loop has left it is the queue with the first `k` gone.
   */
  lemma CancelStopsAt(queue: seq<PendingNotification>, i: nat, debtId: string, k: nat)
    requires i < |queue| && queue[i].debtId == debtId && Matching(queue[..i], debtId) == k
    ensures OtherDebts(queue[..i], debtId) + queue[i..] == CancelFirst(queue, debtId, k)
    ensures Matching(queue, debtId) > k
  {
    CancelAllIsOtherDebts(queue[..i], debtId, k);
    CancelFirstSaturated(queue[..i], queue[i..], debtId, k);
    assert queue[..i] + queue[i..] == queue;
    MatchingStep(queue, i, debtId);
    MatchingPrefix(queue, i + 1, debtId);
  }

  /** A prefix of the queue holds no more of the debt's notifications than the queue. */
  lemma {:induction false} MatchingPrefix(queue: seq<PendingNotification>, j: nat, debtId: string)
    requires j <= |queue|
    ensures Matching(queue[..j], debtId) <= Matching(queue, debtId)
    decreases |queue|
  {
    if j < |queue| {
      var init := queue[..|queue| - 1];
      assert init[..j] == queue[..j];
      MatchingPrefix(init, j, debtId);
    } else {
      assert queue[..j] == queue;
    }
  }

  lemma MatchingStep(queue: seq<PendingNotification>, i: nat, debtId: string)
    requires i < |queue|
    ensures Matching(queue[..i + 1], debtId) == Matching(queue[..i], debtId) + (if queue[i].debtId == debtId then 1 else 0)
  {
    assert queue[..i + 1][..i] == queue[..i];
  }

  lemma OtherDebtsStep(queue: seq<PendingNotification>, i: nat, debtId: string)
    requires i < |queue|
    ensures OtherDebts(queue[..i + 1], debtId)
         == OtherDebts(queue[..i], debtId) + (if queue[i].debtId == debtId then [] else [queue[i]])
    ensures queue[i..] == [queue[i]] + queue[i + 1..]
  {
    assert queue[..i + 1][..i] == queue[..i];
  }

  lemma SpliceOut(front: seq<PendingNotification>, n: PendingNotification, rest: seq<PendingNotification>)
    ensures var s := front + ([n] + rest); s[..|front|] + s[|front| + 1..] == front + rest
  {
    var s := front + ([n] + rest);
    assert s[..|front|] == front;
    assert s[|front| + 1..] == rest;
  }

  class NotificationScheduler {
    var pending: seq<PendingNotification>

    constructor ()
      ensures pending == []
    {
      pending := [];
    }

    /**
     * `scheduleDebtNotification`. `hasPermission` is the permission answer
     * (false on the web and when asking fails); the platform accepts
     * `accepted` scheduling requests and throws on the next one. Without
     * permission or after a throw the result is empty; the notifications
     * queued before a throw stay queued.
     */
    method ScheduleDebtNotification(debtId: string, dueDate: int, preferences: seq<NotificationPreference>,
                                    now: int, hasPermission: bool, accepted: nat)
      returns (r: seq<ScheduledNotification>)
      modifies this
      ensures var es := Entries(debtId, dueDate, preferences, now);
        && (!hasPermission ==> r == [] && pending == old(pending))
        && (hasPermission && |es| <= accepted ==> r == es && pending == old(pending) + Pending(es))
        && (hasPermission && |es| > accepted ==> r == [] && pending == old(pending) + Pending(es[..accepted]))
    {
      if !hasPermission {
        return [];
      }
      var scheduled: seq<ScheduledNotification> := [];
      var i := 0;
      while i < |preferences|
        invariant 0 <= i <= |preferences|
        invariant scheduled == Entries(debtId, dueDate, preferences[..i], now)
        invariant |scheduled| <= accepted
        invariant pending == old(pending) + Pending(scheduled)
      {
        var pref := preferences[i];
        assert preferences[..i + 1] == preferences[..i] + [pref];
        assert preferences[..i + 1][..i] == preferences[..i];
        if pref.isEnabled {
          var notificationDate := TriggerTime(dueDate, pref);
          if notificationDate > now {
            if |scheduled| == accepted {
              EntriesPrefix(debtId, dueDate, preferences, i + 1, now);
              EntriesPrefix(debtId, dueDate, preferences, i, now);
              return [];
            }
            pending := pending + [PendingNotification(debtId, notificationDate)];
            scheduled := scheduled + [EntryFor(debtId, pref, dueDate)];
            assert Pending(scheduled) == Pending(scheduled[..|scheduled| - 1]) + [PendingNotification(debtId, notificationDate)];
          }
        }
        i := i + 1;
      }
      assert preferences[..i] == preferences;
      return scheduled;
    }

    /**
     * `cancelDebtNotifications`: every queued notification whose data names
     * the debt is cancelled, one at a time. When reading the queue fails
     * (`readOk` false) nothing is cancelled; the platform cancels
     * `cancelled` requests and throws on the next, which ends the loop and
     * leaves the debt's later notifications queued.
     */
    method CancelDebtNotifications(debtId: string, readOk: bool, cancelled: nat)
      modifies this
      ensures pending == (if readOk then CancelFirst(old(pending), debtId, cancelled) else old(pending))
      ensures readOk && Matching(old(pending), debtId) <= cancelled ==> pending == OtherDebts(old(pending), debtId)
    {
      if !readOk {
        return;
      }
      var queue := pending;
      var done := 0;
      var i := 0;
      while i < |queue|
        invariant 0 <= i <= |queue|
        invariant pending == OtherDebts(queue[..i], debtId) + queue[i..]
        invariant done == Matching(queue[..i], debtId) <= cancelled
      {
        MatchingStep(queue, i, debtId);
        if queue[i].debtId == debtId {
          if done == cancelled {
            // The platform throws; the catch ends the loop.
            CancelStopsAt(queue, i, debtId, cancelled);
            return;
          }
          done := done + 1;
        }
        CancelStep(queue, i, debtId);
        i := i + 1;
      }
      assert queue[..i] == queue;
      CancelAllIsOtherDebts(queue, debtId, cancelled);
    }

    /** `cancelScheduledNotificationAsync` on the entry at index `k`. */
    method CancelAt(k: nat)
      requires k < |pending|
      modifies this
      ensures pending == old(pending)[..k] + old(pending)[k + 1..]
    {
      pending := pending[..k] + pending[k + 1..];
    }

    /** One turn of the cancelling loop: the entry for `queue[i]` goes if it belongs to the debt. */
    method CancelStep(queue: seq<PendingNotification>, i: nat, debtId: string)
      requires i < |queue| && pending == OtherDebts(queue[..i], debtId) + queue[i..]
      modifies this
      ensures pending == OtherDebts(queue[..i + 1], debtId) + queue[i + 1..]
    {
      var front := OtherDebts(queue[..i], debtId);
      OtherDebtsStep(queue, i, debtId);
      if queue[i].debtId == debtId {
        SpliceOut(front, queue[i], queue[i + 1..]);
        CancelAt(|front|);
      } else {
        assert front + queue[i..] == front + [queue[i]] + queue[i + 1..];
      }
    }

    /** `updateDebtNotifications`: cancel the debt's notifications, then schedule anew. */
    method UpdateDebtNotifications(debtId: string, dueDate: int, preferences: seq<NotificationPreference>,
                                   now: int, readOk: bool, cancelled: nat, hasPermission: bool, accepted: nat)
      modifies this
      ensures var kept := if readOk then CancelFirst(old(pending), debtId, cancelled) else old(pending);
        var es := Entries(debtId, dueDate, preferences, now);
        && (!hasPermission ==> pending == kept)
        && (hasPermission && |es| <= accepted ==> pending == kept + Pending(es))
        && (hasPermission && |es| > accepted ==> pending == kept + Pending(es[..accepted]))
    {
      CancelDebtNotifications(debtId, readOk, cancelled);
      var _ := ScheduleDebtNotification(debtId, dueDate, preferences, now, hasPermission, accepted);
    }
  }

  /**
   * After an update with permission and no refusal, the queue holds the
   * other debts' notifications and, for this debt, one per preference that
   * is on and still ahead.
   */
  lemma RescheduleReplaces(queue: seq<PendingNotification>, debtId: string, dueDate: int,
                           preferences: seq<NotificationPreference>, now: int, n: PendingNotification)
    ensures var after := OtherDebts(queue, debtId) + Pending(Entries(debtId, dueDate, preferences, now));
      n in after <==>
        (n in queue && n.debtId != debtId)
        || (n.debtId == debtId && exists p :: p in preferences && Schedules(p, dueDate, now) && n.trigger == TriggerTime(dueDate, p))
  {
    var es := Entries(debtId, dueDate, preferences, now);
    OtherDebtsMembers(queue, debtId);
    EntriesMembers(debtId, dueDate, preferences, now);
    if n in Pending(es) {
      var k :| 0 <= k < |es| && Pending(es)[k] == n;
      assert es[k] in es;
    }
    if n.debtId == debtId && exists p :: p in preferences && Schedules(p, dueDate, now) && n.trigger == TriggerTime(dueDate, p) {
      var p :| p in preferences && Schedules(p, dueDate, now) && n.trigger == TriggerTime(dueDate, p);
      var e := EntryFor(debtId, p, dueDate);
      assert e in es;
      var k :| 0 <= k < |es| && es[k] == e;
      assert Pending(es)[k] == n;
    }
  }
}
