/** When each step of a unit of work is booked, and which steps a run cut
    off at its horizon has booked.

    A resource step books its cost once its service time has elapsed,
    after any wait for the resource. The first postage charge is booked
    as soon as packaging finishes, before the transit delay; a resend is
    booked at the loss check, after the first transit; the reminder waits
    for the last transit. Queue waits and transit delays come from the
    resource queues and the random generator, which this model does not
    contain, so they are inputs. A unit is described by its step list and
    a parallel list of gaps, the time from one booking (or the spawn) to
    the next. A booking at time `b` is recorded when `b < horizon`. */
module Horizon {
  import opened Costs
  import opened Pathways

  predicate NonNegGaps(gaps: seq<real>) {
    forall i :: 0 <= i < |gaps| ==> gaps[i] >= 0.0
  }

  /** Booking times of successive steps started at `start`. */
  function BookTimes(start: real, gaps: seq<real>): (r: seq<real>)
    ensures |r| == |gaps|
    ensures NonNegGaps(gaps) ==> forall i :: 0 <= i < |r| ==> start <= r[i]
    ensures NonNegGaps(gaps) ==> forall i, j :: 0 <= i <= j < |r| ==> r[i] <= r[j]
    decreases |gaps|
  {
    if gaps == [] then []
    else
      assert NonNegGaps(gaps) ==> NonNegGaps(gaps[1..]) by {
        if NonNegGaps(gaps) {
          forall i | 0 <= i < |gaps[1..]| ensures gaps[1..][i] >= 0.0 {
            assert gaps[1..][i] == gaps[i + 1];
          }
        }
      }
      [start + gaps[0]] + BookTimes(start + gaps[0], gaps[1..])
  }

  /** Number of leading steps booked before the horizon. */
  function Booked(start: real, gaps: seq<real>, horizon: real): (k: nat)
    ensures k <= |gaps|
    decreases |gaps|
  {
    if gaps == [] || start + gaps[0] >= horizon then 0
    else 1 + Booked(start + gaps[0], gaps[1..], horizon)
  }

  /** With non-negative gaps the booked steps are exactly those whose
      booking time is before the horizon. */
  lemma {:induction false} BookedExactly(start: real, gaps: seq<real>, horizon: real, i: nat)
    requires NonNegGaps(gaps)
    requires i < |gaps|
    ensures i < Booked(start, gaps, horizon) <==> BookTimes(start, gaps)[i] < horizon
    decreases |gaps|
  {
    var t := BookTimes(start, gaps);
    if i > 0 {
      assert NonNegGaps(gaps[1..]) by {
        forall j | 0 <= j < |gaps[1..]| ensures gaps[1..][j] >= 0.0 {
          assert gaps[1..][j] == gaps[j + 1];
        }
      }
      BookedExactly(start + gaps[0], gaps[1..], horizon, i - 1);
      assert t[i] == BookTimes(start + gaps[0], gaps[1..])[i - 1];
      assert t[0] <= t[i];
    }
  }

  /** What a unit cut off at the horizon contributes: the fold of the
      steps it booked. */
  function Abandon(l: Ledger, steps: seq<Step>, start: real, gaps: seq<real>, horizon: real): (r: Ledger)
    requires |gaps| == |steps|
    ensures Le(l, r) && Le(r, Run(l, steps))
  {
    var k := Booked(start, gaps, horizon);
    RunAppend(l, steps[..k], steps[k..]);
    assert steps[..k] + steps[k..] == steps;
    Run(l, steps[..k])
  }

  /** A unit whose every booking precedes the horizon contributes its full
      effect. */
  lemma CompletedUnit(l: Ledger, steps: seq<Step>, start: real, gaps: seq<real>, horizon: real)
    requires |gaps| == |steps| && NonNegGaps(gaps)
    requires forall i :: 0 <= i < |gaps| ==> BookTimes(start, gaps)[i] < horizon
    ensures Abandon(l, steps, start, gaps, horizon) == Run(l, steps)
  {
    if steps != [] {
      BookedExactly(start, gaps, horizon, |gaps| - 1);
      assert steps[..|steps|] == steps;
    }
  }

  /** A later horizon never books less. */
  lemma {:induction false} BookedMonotone(start: real, gaps: seq<real>, h1: real, h2: real)
    requires h1 <= h2
    ensures Booked(start, gaps, h1) <= Booked(start, gaps, h2)
    decreases |gaps|
  {
    if gaps != [] && start + gaps[0] < h1 {
      BookedMonotone(start + gaps[0], gaps[1..], h1, h2);
    }
  }

  /** A later horizon never contributes less. */
  lemma AbandonMonotone(l: Ledger, steps: seq<Step>, start: real, gaps: seq<real>, h1: real, h2: real)
    requires |gaps| == |steps| && h1 <= h2
    ensures Le(Abandon(l, steps, start, gaps, h1), Abandon(l, steps, start, gaps, h2))
  {
    var k1 := Booked(start, gaps, h1);
    var k2 := Booked(start, gaps, h2);
    BookedMonotone(start, gaps, h1, h2);
    assert steps[..k2] == steps[..k1] + steps[k1..k2];
    RunAppend(l, steps[..k1], steps[k1..k2]);
  }

  /** Waits of the clinic pathway at its two resources. */
  datatype ClinicDelays = ClinicDelays(clinicianWait: real, labWait: real)

  predicate ValidClinicDelays(d: ClinicDelays) {
    d.clinicianWait >= 0.0 && d.labWait >= 0.0
  }

  /** Waits and transit delays of the mail pathway. `resendTransit` is the
      second transit, used only when the kit is lost. */
  datatype MailDelays = MailDelays(
    nurseWait: real,
    handlerWait: real,
    transit: real,
    resendTransit: real,
    reminderWait: real,
    labWait: real)

  predicate ValidMailDelays(m: MailDelays) {
    && m.nurseWait >= 0.0 && m.handlerWait >= 0.0
    && m.transit >= 0.0 && m.resendTransit >= 0.0
    && m.reminderWait >= 0.0 && m.labWait >= 0.0
  }

  /** Gap of the reception unit: the front desk books no earlier than
      its 2-minute service after the arrival. */
  function ReceptionGaps(wait: real): (g: seq<real>)
    ensures |g| == |ReceptionSteps()|
    ensures wait >= 0.0 ==> NonNegGaps(g) && g[0] >= 2.0
  {
    [wait + ServiceMinutes(Reception) as real]
  }

  /** Gaps of the clinic pathway: the clinician books no earlier than 10
      minutes after the spawn, the lab no earlier than 30 minutes after the
      clinician. */
  function ClinicGaps(d: ClinicDelays): (g: seq<real>)
    ensures |g| == |ClinicSteps()|
    ensures ValidClinicDelays(d) ==> NonNegGaps(g) && g[0] >= 10.0 && g[1] >= 30.0
  {
    [d.clinicianWait + ServiceMinutes(ClinicianSample) as real, d.labWait + ServiceMinutes(ClinicLab) as real]
  }

  /** Gaps of the mail pathway. Postage is charged with no gap after
      packaging; a resend follows the first transit; the reminder follows
      the last transit and the nurse's wait and service. */
  function MailGaps(lost: bool, m: MailDelays): (g: seq<real>)
    ensures |g| == |MailSteps(lost)|
    ensures g[2] == 0.0
    ensures lost ==> g[3] == m.transit
    ensures ValidMailDelays(m) ==> NonNegGaps(g)
    ensures ValidMailDelays(m) ==> g[0] >= 5.0 && g[1] >= 5.0 && g[|g| - 1] >= 30.0
    ensures ValidMailDelays(m) ==> g[|g| - 2] >= (if lost then m.resendTransit else m.transit) + 3.0
  {
    [m.nurseWait + ServiceMinutes(Instruction) as real, m.handlerWait + ServiceMinutes(Packaging) as real, 0.0]
    + (if lost then [m.transit] else [])
    + [(if lost then m.resendTransit else m.transit) + m.reminderWait + ServiceMinutes(Reminder) as real,
       m.labWait + ServiceMinutes(MailLab) as real]
  }

  /** The third booking time is the start plus the first three gaps. */
  lemma ThirdBookTime(start: real, gaps: seq<real>)
    requires |gaps| >= 3
    ensures BookTimes(start, gaps)[2] == start + gaps[0] + gaps[1] + gaps[2]
  {
    var t1 := BookTimes(start + gaps[0], gaps[1..]);
    var t2 := BookTimes(start + gaps[0] + gaps[1], gaps[1..][1..]);
    assert BookTimes(start, gaps)[2] == t1[1] == t2[0];
  }

  /** Any prefix of the mail pathway reaching its postage step has paid
      one kit. */
  lemma MailPrefixCharged(l: Ledger, lost: bool, k: nat)
    requires 3 <= k <= |MailSteps(lost)|
    ensures Run(l, MailSteps(lost)[..k]).mailing >= l.mailing + MailingPerKit
  {
    var steps := MailSteps(lost);
    var s := steps[..3];
    assert steps[..k] == s + steps[3..k];
    RunAppend(l, s, steps[3..k]);
    assert s == [Instruction, Packaging, Mailing];
    RunAddsSpent(l, s, MailingCost);
    assert Spent(s, MailingCost) == MailingPerKit by {
      assert s[1..] == [Packaging, Mailing];
      assert s[1..][1..] == [Mailing];
      assert s[1..][1..][1..] == [];
      assert Spent([Mailing], MailingCost) == MailingPerKit + Spent([], MailingCost);
      assert Spent(s[1..], MailingCost) == Spent([Mailing], MailingCost);
    }
    var m := Run(l, s);
    assert m.mailing == Get(m, MailingCost) == l.mailing + MailingPerKit;
    assert Le(m, Run(m, steps[3..k]));
  }

  /** A kit whose packaging finished before the horizon has been charged
      its postage, even while still in transit at the horizon. */
  lemma MailChargedBeforeTransit(l: Ledger, lost: bool, m: MailDelays, start: real, horizon: real)
    requires ValidMailDelays(m)
    requires start + m.nurseWait + 5.0 + m.handlerWait + 5.0 < horizon
    ensures Abandon(l, MailSteps(lost), start, MailGaps(lost, m), horizon).mailing >= l.mailing + MailingPerKit
  {
    var gaps := MailGaps(lost, m);
    assert NonNegGaps(gaps);
    ThirdBookTime(start, gaps);
    BookedExactly(start, gaps, horizon, 2);
    MailPrefixCharged(l, lost, Booked(start, gaps, horizon));
  }
}
