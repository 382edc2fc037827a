/** One iteration of the arrival loop after its inter-arrival delay: the
    gate, the units of work it spawns, and what those units book.

    An admitted arrival spawns a reception unit and one pathway unit; they
    share nothing and are booked independently. A rejected arrival spawns
    nothing. */
module Arrivals {
  import opened Calendar
  import opened Routing
  import opened Costs
  import opened Pathways
  import opened Scenario

  datatype Unit = ReceptionUnit | PathwayUnit(pathway: Pathway)

  /** The units spawned by an arrival at time `t` with routing draws `u1`
      and `u2`. */
  function Spawn(t: real, u1: real, u2: real, pShift: real, pNew: real): (r: seq<Unit>)
    requires pNew > -1.0
    ensures |r| == if Admitted(t) then 2 else 0
    ensures multiset(r)[ReceptionUnit] == if Admitted(t) then 1 else 0
    ensures forall i :: 0 <= i < |r| && r[i] != ReceptionUnit ==>
              (r[i].pathway == Mail <==> (Classify(u1, pNew) == New || u2 < pShift))
  {
    if Admitted(t) then [ReceptionUnit, PathwayUnit(Route(u1, u2, pShift, pNew))] else []
  }

  /** The steps a unit books when it runs to completion. */
  function UnitSteps(u: Unit, lossDraw: real): seq<Step> {
    match u
    case ReceptionUnit => ReceptionSteps()
    case PathwayUnit(p) => PathwaySteps(p, lossDraw)
  }

  function UnitsSteps(units: seq<Unit>, lossDraw: real): (r: seq<seq<Step>>)
    ensures |r| == |units|
    ensures forall i :: 0 <= i < |units| ==> r[i] == UnitSteps(units[i], lossDraw)
  {
    seq(|units|, i requires 0 <= i < |units| => UnitSteps(units[i], lossDraw))
  }

  /** What an arrival adds once all its units have completed. */
  function ArrivalEffect(l: Ledger, t: real, u1: real, u2: real, pShift: real, pNew: real, lossDraw: real): Ledger
    requires pNew > -1.0
  {
    FoldUnits(l, UnitsSteps(Spawn(t, u1, u2, pShift, pNew), lossDraw))
  }

  /** A rejected arrival leaves every total and the screened count as they
      were. */
  lemma RejectedArrivalChangesNothing(l: Ledger, t: real, u1: real, u2: real, pShift: real, pNew: real, lossDraw: real)
    requires pNew > -1.0
    requires !Admitted(t)
    ensures ArrivalEffect(l, t, u1, u2, pShift, pNew, lossDraw) == l
  {
  }

  /** A completed admitted arrival adds one reception's 2.0, the full
      effect of its pathway, and exactly one screened sample. */
  lemma AdmittedArrivalEffect(l: Ledger, t: real, u1: real, u2: real, pShift: real, pNew: real, lossDraw: real)
    requires pNew > -1.0
    requires Admitted(t)
    ensures var r := ArrivalEffect(l, t, u1, u2, pShift, pNew, lossDraw);
      && r.receptionist == l.receptionist + 2.0
      && r.screened == l.screened + 1
      && (Route(u1, u2, pShift, pNew) == Clinic ==>
            r == l.(receptionist := l.receptionist + 2.0, clinician := l.clinician + 20.0,
                    lab := l.lab + 15.0, screened := l.screened + 1))
      && (Route(u1, u2, pShift, pNew) == Mail ==>
            && r.clinician == l.clinician
            && r.nurse == l.nurse + 12.0
            && r.mailHandler == l.mailHandler + 5.0
            && r.lab == l.lab + 15.0
            && r.mailing == l.mailing + (if lossDraw < 0.1 then 20.0 else 10.0))
  {
    var p := Route(u1, u2, pShift, pNew);
    var units := UnitsSteps(Spawn(t, u1, u2, pShift, pNew), lossDraw);
    assert units == [ReceptionSteps(), PathwaySteps(p, lossDraw)];
    var l1 := Run(l, ReceptionSteps());
    ReceptionEffect(l);
    assert units[1..] == [PathwaySteps(p, lossDraw)];
    assert FoldUnits(l, units) == FoldUnits(l1, units[1..]);
    assert FoldUnits(l1, units[1..]) == FoldUnits(Run(l1, PathwaySteps(p, lossDraw)), []);
    match p
    case Clinic => ClinicEffect(l1);
    case Mail => MailEffect(l1, lossDraw);
  }

  /** A new patient's arrival, once completed, never reaches the
      clinician: it books a reception and a mail kit, paying one or two
      kits of postage. */
  lemma NewArrivalGoesByMail(l: Ledger, t: real, u1: real, u2: real, pShift: real, pNew: real, lossDraw: real)
    requires pNew > -1.0
    requires u1 >= ExistingShare(pNew)
    ensures var r := ArrivalEffect(l, t, u1, u2, pShift, pNew, lossDraw);
      Admitted(t) ==>
        && r.clinician == l.clinician
        && r.nurse == l.nurse + 12.0
        && r.mailing == l.mailing + (if lossDraw < 0.1 then 20.0 else 10.0)
  {
    if Admitted(t) {
      assert Route(u1, u2, pShift, pNew) == Mail;
      AdmittedArrivalEffect(l, t, u1, u2, pShift, pNew, lossDraw);
    }
  }

  /** A unit of work as the horizon found it: the steps it had booked are
      the first `booked` of its full list. */
  datatype CutUnit = CutUnit(unit: Unit, lossDraw: real, booked: nat)

  predicate ValidCut(c: CutUnit) {
    c.booked <= |UnitSteps(c.unit, c.lossDraw)|
  }

  /** The steps a cut unit has booked. */
  function BookedSteps(c: CutUnit): seq<Step>
    requires ValidCut(c)
  {
    UnitSteps(c.unit, c.lossDraw)[..c.booked]
  }

  /** A pathway unit that reached its final lab step. */
  predicate CompletedPathway(c: CutUnit) {
    c.unit.PathwayUnit? && c.booked == |UnitSteps(c.unit, c.lossDraw)|
  }

  function CountCompleted(cuts: seq<CutUnit>): nat {
    if cuts == [] then 0
    else (if CompletedPathway(cuts[0]) then 1 else 0) + CountCompleted(cuts[1..])
  }

  function AllBooked(cuts: seq<CutUnit>): seq<Step>
    requires forall i :: 0 <= i < |cuts| ==> ValidCut(cuts[i])
  {
    if cuts == [] then [] else BookedSteps(cuts[0]) + AllBooked(cuts[1..])
  }

  /** A cut unit books a lab step exactly when it is a completed pathway. */
  lemma CutUnitScreens(c: CutUnit)
    requires ValidCut(c)
    ensures LabCount(BookedSteps(c)) == if CompletedPathway(c) then 1 else 0
  {
    match c.unit
    case ReceptionUnit =>
      if c.booked == 1 {
        assert BookedSteps(c) == [Reception];
      } else {
        assert BookedSteps(c) == [];
      }
    case PathwayUnit(p) =>
      PathwayScreensOnceAtEnd(p, c.lossDraw, c.booked);
  }

  /** The booked steps of all units screen one sample per completed
      pathway. */
  lemma {:induction false} AllBookedScreens(cuts: seq<CutUnit>)
    requires forall i :: 0 <= i < |cuts| ==> ValidCut(cuts[i])
    ensures LabCount(AllBooked(cuts)) == CountCompleted(cuts)
    decreases |cuts|
  {
    if cuts != [] {
      CutUnitScreens(cuts[0]);
      LabCountAppend(BookedSteps(cuts[0]), AllBooked(cuts[1..]));
      AllBookedScreens(cuts[1..]);
    }
  }

  /** At the end of a run, whatever the interleaving of the bookings, the
      screened count is the number of pathways that reached their final
      lab step; abandoned ones and receptions count nothing. */
  lemma ScreenedCountsCompletedPathways(cuts: seq<CutUnit>, events: seq<Step>)
    requires forall i :: 0 <= i < |cuts| ==> ValidCut(cuts[i])
    requires multiset(events) == multiset(AllBooked(cuts))
    ensures Run(Initial(), events).screened == CountCompleted(cuts)
  {
    RunPermutation(Initial(), events, AllBooked(cuts));
    AllBookedScreens(cuts);
  }
}
