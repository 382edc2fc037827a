/** The steps each unit of work books, and what a completed unit adds to
    the ledger. A unit spawned by an arrival is the reception step or one
    of the two care pathways; the mail pathway has one extra postage step
    when its kit is lost. */
module Pathways {
  import opened Costs
  import opened Routing

  /** Probability that a mailed kit is lost and sent again. */
  const LostMailRate: real := 0.1

  /** The loss check: the kit is lost when the draw is below the rate. */
  predicate IsLost(lossDraw: real) {
    lossDraw < LostMailRate
  }

  function ReceptionSteps(): seq<Step> {
    [Reception]
  }

  function ClinicSteps(): seq<Step> {
    [ClinicianSample, ClinicLab]
  }

  function MailSteps(lost: bool): seq<Step> {
    [Instruction, Packaging, Mailing] + (if lost then [Resend] else []) + [Reminder, MailLab]
  }

  /** The steps of a pathway; the loss draw only matters on the mail one. */
  function PathwaySteps(p: Pathway, lossDraw: real): seq<Step> {
    match p
    case Clinic => ClinicSteps()
    case Mail => MailSteps(IsLost(lossDraw))
  }

  /** A reception adds 2.0 to the receptionist total and nothing else. */
  lemma ReceptionEffect(l: Ledger)
    ensures Run(l, ReceptionSteps()) == l.(receptionist := l.receptionist + 2.0)
  {
  }

  /** A completed clinic visit adds 20.0 to the clinician, 15.0 to the lab
      and one screened sample, and nothing else. */
  lemma ClinicEffect(l: Ledger)
    ensures Run(l, ClinicSteps())
         == l.(clinician := l.clinician + 20.0, lab := l.lab + 15.0, screened := l.screened + 1)
  {
  }

  /** A completed mail pathway adds 12.0 to the nurse, 5.0 to the mail
      handler, 15.0 to the lab, one screened sample, and one or two kits of
      postage, two exactly when the kit was lost. Receptionist and
      clinician are untouched. */
  lemma MailEffect(l: Ledger, lossDraw: real)
    ensures var r := Run(l, MailSteps(IsLost(lossDraw)));
      && r.receptionist == l.receptionist
      && r.clinician == l.clinician
      && r.nurse == l.nurse + 12.0
      && r.mailHandler == l.mailHandler + 5.0
      && r.lab == l.lab + 15.0
      && r.mailing == l.mailing + (if lossDraw < 0.1 then 20.0 else 10.0)
      && r.screened == l.screened + 1
  {
    var lost := IsLost(lossDraw);
    var head := [Instruction, Packaging, Mailing];
    var tail := (if lost then [Resend] else []) + [Reminder, MailLab];
    assert MailSteps(lost) == head + tail;
    RunAppend(l, head, tail);
    var m := Run(l, head);
    assert head[1..] == [Packaging, Mailing];
    assert head[1..][1..] == [Mailing];
    assert head[1..][1..][1..] == [];
    if lost {
      assert tail[1..] == [Reminder, MailLab];
    }
    assert [Reminder, MailLab][1..] == [MailLab];
    assert [MailLab][1..] == [];
  }

  /** Each pathway ends at its only lab step, so a prefix of it counts one
      screened sample exactly when it is the whole pathway. */
  lemma PathwayScreensOnceAtEnd(p: Pathway, lossDraw: real, k: nat)
    requires k <= |PathwaySteps(p, lossDraw)|
    ensures LabCount(PathwaySteps(p, lossDraw)[..k]) == if k == |PathwaySteps(p, lossDraw)| then 1 else 0
  {
    var s := PathwaySteps(p, lossDraw);
    var n := |s|;
    assert forall i :: 0 <= i < n - 1 ==> !IsLabStep(s[i]);
    assert IsLabStep(s[n - 1]);
    NoLabBefore(s[..k], if k == n then k - 1 else k);
  }

  /** `LabCount` of a list whose only possible lab step is its last one. */
  lemma {:induction false} NoLabBefore(s: seq<Step>, j: nat)
    requires j <= |s|
    requires forall i :: 0 <= i < |s| && i != j ==> !IsLabStep(s[i])
    requires j < |s| ==> IsLabStep(s[j])
    ensures LabCount(s) == if j < |s| then 1 else 0
    decreases |s|
  {
    if s != [] {
      if j == 0 {
        assert forall i :: 0 <= i < |s[1..]| ==> !IsLabStep(s[1..][i]) by {
          forall i | 0 <= i < |s[1..]| ensures !IsLabStep(s[1..][i]) {
            assert s[1..][i] == s[i + 1];
          }
        }
        NoLabBefore(s[1..], |s[1..]|);
      } else {
        assert !IsLabStep(s[0]);
        NoLabBefore(s[1..], j - 1);
      }
    }
  }
}
