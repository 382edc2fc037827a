/** The cost ledger and count tracker, and the steps that update them.

    The source keeps two global dictionaries: six cost categories, each a
    float total, and a `screened` counter. Here they are one immutable
    `Ledger` value, and every completed service step is a `Step` whose
    fixed delta `ApplyStep` adds. All rates and service times are small
    integers or halves, so `real` arithmetic gives the same totals as the
    source's floats. */
module Costs {

  // Cost rates: dollars per minute of service, and a flat charge per kit.
  const ReceptionistPerMin: real := 1.0
  const ClinicianPerMin: real := 2.0
  const NursePerMin: real := 1.5
  const MailHandlerPerMin: real := 1.0
  const LabPerMin: real := 0.5
  const MailingPerKit: real := 10.0

  // Service times in minutes.
  const ReceptionMinutes: nat := 2
  const InClinicMinutes: nat := 10
  const InstructionMinutes: nat := 5
  const ReminderMinutes: nat := 3
  const MailHandleMinutes: nat := 5
  const LabMinutes: nat := 30

  /** The keys of the cost dictionary. */
  datatype Category =
    | ReceptionistCost
    | ClinicianCost
    | NurseCost
    | MailHandlerCost
    | LabCost
    | MailingCost

  datatype Ledger = Ledger(
    receptionist: real,
    clinician: real,
    nurse: real,
    mailHandler: real,
    lab: real,
    mailing: real,
    screened: nat)

  /** Reads one category, as the source indexes its cost dictionary. */
  function Get(l: Ledger, c: Category): real {
    match c
    case ReceptionistCost => l.receptionist
    case ClinicianCost => l.clinician
    case NurseCost => l.nurse
    case MailHandlerCost => l.mailHandler
    case LabCost => l.lab
    case MailingCost => l.mailing
  }

  /** Every step that books a cost. `Mailing` is the first postage charge
      and `Resend` the second one paid when the kit is lost. */
  datatype Step =
    | Reception
    | ClinicianSample
    | ClinicLab
    | Instruction
    | Packaging
    | Mailing
    | Resend
    | Reminder
    | MailLab

  /** The category a step charges. */
  function CategoryOf(s: Step): Category {
    match s
    case Reception => ReceptionistCost
    case ClinicianSample => ClinicianCost
    case ClinicLab | MailLab => LabCost
    case Instruction | Reminder => NurseCost
    case Packaging => MailHandlerCost
    case Mailing | Resend => MailingCost
  }

  /** Minutes a step holds its resource; postage uses none. */
  function ServiceMinutes(s: Step): nat {
    match s
    case Reception => ReceptionMinutes
    case ClinicianSample => InClinicMinutes
    case ClinicLab | MailLab => LabMinutes
    case Instruction => InstructionMinutes
    case Reminder => ReminderMinutes
    case Packaging => MailHandleMinutes
    case Mailing | Resend => 0
  }

  /** The two lab steps are where a sample counts as screened. */
  predicate IsLabStep(s: Step) {
    s == ClinicLab || s == MailLab
  }

  /** The amount a step adds to its category: service time times the
      role's rate, or one kit's postage. */
  function StepCost(s: Step): (r: real)
    ensures r > 0.0
    ensures s == Reception ==> r == 2.0
    ensures s == ClinicianSample ==> r == 20.0
    ensures IsLabStep(s) ==> r == 15.0
    ensures s == Instruction ==> r == 7.5
    ensures s == Reminder ==> r == 4.5
    ensures s == Packaging ==> r == 5.0
    ensures s == Mailing || s == Resend ==> r == 10.0
  {
    match s
    case Reception => ReceptionMinutes as real * ReceptionistPerMin
    case ClinicianSample => InClinicMinutes as real * ClinicianPerMin
    case ClinicLab | MailLab => LabMinutes as real * LabPerMin
    case Instruction => InstructionMinutes as real * NursePerMin
    case Reminder => ReminderMinutes as real * NursePerMin
    case Packaging => MailHandleMinutes as real * MailHandlerPerMin
    case Mailing | Resend => MailingPerKit
  }

  /** Books one completed step: its cost goes to its own category, a lab
      step also counts one screened sample, and nothing else changes. */
  function ApplyStep(l: Ledger, s: Step): (r: Ledger)
    ensures forall c :: Get(r, c) == Get(l, c) + (if c == CategoryOf(s) then StepCost(s) else 0.0)
    ensures r.screened == l.screened + (if IsLabStep(s) then 1 else 0)
  {
    match s
    case Reception => l.(receptionist := l.receptionist + StepCost(s))
    case ClinicianSample => l.(clinician := l.clinician + StepCost(s))
    case ClinicLab | MailLab => l.(lab := l.lab + StepCost(s), screened := l.screened + 1)
    case Instruction | Reminder => l.(nurse := l.nurse + StepCost(s))
    case Packaging => l.(mailHandler := l.mailHandler + StepCost(s))
    case Mailing | Resend => l.(mailing := l.mailing + StepCost(s))
  }

  /** Field-wise order on ledgers: `b` is `a` with things added. */
  predicate Le(a: Ledger, b: Ledger) {
    && a.receptionist <= b.receptionist
    && a.clinician <= b.clinician
    && a.nurse <= b.nurse
    && a.mailHandler <= b.mailHandler
    && a.lab <= b.lab
    && a.mailing <= b.mailing
    && a.screened <= b.screened
  }

  predicate NonNegative(l: Ledger) {
    forall c :: Get(l, c) >= 0.0
  }

  /** Number of lab steps in a step list. */
  function LabCount(steps: seq<Step>): nat {
    if steps == [] then 0
    else (if IsLabStep(steps[0]) then 1 else 0) + LabCount(steps[1..])
  }

  /** Lab steps of concatenated lists add up. */
  lemma {:induction false} LabCountAppend(a: seq<Step>, b: seq<Step>)
    ensures LabCount(a + b) == LabCount(a) + LabCount(b)
    decreases |a|
  {
    if a == [] {
      assert a + b == b;
    } else {
      assert (a + b)[0] == a[0];
      assert (a + b)[1..] == a[1..] + b;
      LabCountAppend(a[1..], b);
    }
  }

  /** Total cost the steps of a list charge to one category: a reference
      definition of what booking them adds. */
  function Spent(steps: seq<Step>, c: Category): real {
    if steps == [] then 0.0
    else (if CategoryOf(steps[0]) == c then StepCost(steps[0]) else 0.0) + Spent(steps[1..], c)
  }

  /** Books the steps one after another, in list order. The ledger only
      grows, and `screened` grows by exactly the number of lab steps. */
  function Run(l: Ledger, steps: seq<Step>): (r: Ledger)
    ensures Le(l, r)
    ensures r.screened == l.screened + LabCount(steps)
    decreases |steps|
  {
    if steps == [] then l else Run(ApplyStep(l, steps[0]), steps[1..])
  }

  /** Booking a list adds, to every category, exactly what its steps
      charge to that category. */
  lemma {:induction false} RunAddsSpent(l: Ledger, steps: seq<Step>, c: Category)
    ensures Get(Run(l, steps), c) == Get(l, c) + Spent(steps, c)
    decreases |steps|
  {
    if steps != [] {
      RunAddsSpent(ApplyStep(l, steps[0]), steps[1..], c);
    }
  }

  /** Booking two lists in turn is booking their concatenation. */
  lemma {:induction false} RunAppend(l: Ledger, a: seq<Step>, b: seq<Step>)
    ensures Run(l, a + b) == Run(Run(l, a), b)
    decreases |a|
  {
    if a == [] {
      assert a + b == b;
    } else {
      assert (a + b)[0] == a[0];
      assert (a + b)[1..] == a[1..] + b;
      RunAppend(ApplyStep(l, a[0]), a[1..], b);
    }
  }

  /** Starting from a ledger with no negative total, no total becomes
      negative. */
  lemma RunKeepsNonNegative(l: Ledger, steps: seq<Step>)
    requires NonNegative(l)
    ensures NonNegative(Run(l, steps))
  {
    var r := Run(l, steps);
    forall c ensures Get(r, c) >= 0.0 {
      assert Get(l, c) >= 0.0;
    }
  }

  /** Two steps commute: the accumulators are plain sums. */
  lemma ApplyStepCommutes(l: Ledger, x: Step, y: Step)
    ensures ApplyStep(ApplyStep(l, x), y) == ApplyStep(ApplyStep(l, y), x)
  {
  }

  /** A step booked in the middle of a list has the same effect as booked
      first. */
  lemma {:induction false} RunMoveToFront(l: Ledger, p: seq<Step>, x: Step, q: seq<Step>)
    ensures Run(l, p + [x] + q) == Run(ApplyStep(l, x), p + q)
    decreases |p|
  {
    var whole := p + [x] + q;
    if p == [] {
      assert whole == [x] + q && whole[1..] == q && p + q == q;
    } else {
      var y, rest := p[0], p[1..];
      assert whole[0] == y && whole[1..] == rest + [x] + q;
      assert (p + q)[0] == y && (p + q)[1..] == rest + q;
      calc {
        Run(l, whole);
        Run(ApplyStep(l, y), rest + [x] + q);
        { RunMoveToFront(ApplyStep(l, y), rest, x, q); }
        Run(ApplyStep(ApplyStep(l, y), x), rest + q);
        { ApplyStepCommutes(l, y, x); }
        Run(ApplyStep(ApplyStep(l, x), y), rest + q);
        Run(ApplyStep(l, x), p + q);
      }
    }
  }

  /** Removing one occurrence of a step from a list leaves the rest of
      its multiset. */
  lemma SplitMultiset(a: seq<Step>, p: seq<Step>, x: Step, q: seq<Step>)
    requires a != [] && a[0] == x
    requires multiset(a) == multiset(p + [x] + q)
    ensures multiset(a[1..]) == multiset(p + q)
  {
    assert a == [x] + a[1..];
    assert multiset(a[1..]) == multiset(a) - multiset{x};
    assert p + [x] + q == p + ([x] + q);
    assert multiset(p + [x] + q) == multiset(p) + multiset{x} + multiset(q);
    assert multiset(p + q) == multiset(p + [x] + q) - multiset{x};
  }

  /** The order in which steps are booked does not matter: any
      rearrangement of the same steps yields the same ledger. */
  lemma {:induction false} RunPermutation(l: Ledger, a: seq<Step>, b: seq<Step>)
    requires multiset(a) == multiset(b)
    ensures Run(l, a) == Run(l, b)
    decreases |a|
  {
    if a == [] {
      assert |b| == |multiset(b)| == 0;
    } else {
      var x := a[0];
      assert x in multiset(b);
      var i :| 0 <= i < |b| && b[i] == x;
      var p, q := b[..i], b[i + 1..];
      assert b == p + [x] + q;
      SplitMultiset(a, p, x, q);
      RunMoveToFront(l, p, x, q);
      RunPermutation(ApplyStep(l, x), a[1..], p + q);
    }
  }
}
