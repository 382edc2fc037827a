/** One run of the simulation, seen through its ledger.

    A run starts from an empty ledger. Every unit of work books its
    completed steps in its own order, but the event queue interleaves the
    units in an order this model does not fix. Because every booking is an
    addition, the final ledger is the same for every interleaving: it is
    the initial ledger plus each unit's contribution. */
module Scenario {
  import opened Costs

  /** The ledger reset at the start of a run: all six totals 0.0 and no
      screened samples. */
  function Initial(): (l: Ledger)
    ensures forall c :: Get(l, c) == 0.0
    ensures l.screened == 0
  {
    Ledger(0.0, 0.0, 0.0, 0.0, 0.0, 0.0, 0)
  }

  /** The steps of several units, one unit after another. */
  function Concat(units: seq<seq<Step>>): (r: seq<Step>)
    decreases |units|
  {
    if units == [] then [] else units[0] + Concat(units[1..])
  }

  /** Books the units one after another. */
  function FoldUnits(l: Ledger, units: seq<seq<Step>>): Ledger
    decreases |units|
  {
    if units == [] then l else FoldUnits(Run(l, units[0]), units[1..])
  }

  /** Booking unit by unit is booking the concatenated steps. */
  lemma {:induction false} FoldUnitsIsRunConcat(l: Ledger, units: seq<seq<Step>>)
    ensures FoldUnits(l, units) == Run(l, Concat(units))
    decreases |units|
  {
    if units != [] {
      RunAppend(l, units[0], Concat(units[1..]));
      FoldUnitsIsRunConcat(Run(l, units[0]), units[1..]);
    }
  }

  /** However the event queue interleaves the units' bookings, the run
      ends with the ledger obtained by booking them unit by unit. */
  lemma InterleavingIrrelevant(units: seq<seq<Step>>, events: seq<Step>)
    requires multiset(events) == multiset(Concat(units))
    ensures Run(Initial(), events) == FoldUnits(Initial(), units)
  {
    RunPermutation(Initial(), events, Concat(units));
    FoldUnitsIsRunConcat(Initial(), units);
  }

  /** The final ledger of a run: each total is what the booked steps
      charge to it, none is negative, and `screened` is the number of lab
      steps booked. */
  lemma RunTotals(events: seq<Step>)
    ensures NonNegative(Run(Initial(), events))
    ensures forall c :: Get(Run(Initial(), events), c) == Spent(events, c)
    ensures Run(Initial(), events).screened == LabCount(events)
  {
    RunKeepsNonNegative(Initial(), events);
    forall c ensures Get(Run(Initial(), events), c) == Spent(events, c) {
      RunAddsSpent(Initial(), events, c);
    }
  }

  /** The record returned at the end of a run: the scenario parameters,
      the cost dictionary keyed by category, and the screened count. */
  datatype RunResult = RunResult(pShift: real, pNew: real, costs: map<Category, real>, screened: nat)

  /** The result record carries the scenario parameters, one entry for
      every category holding its final total, and the screened count. */
  function Report(pShift: real, pNew: real, l: Ledger): (r: RunResult)
    ensures r.pShift == pShift && r.pNew == pNew
    ensures forall c :: c in r.costs && r.costs[c] == Get(l, c)
    ensures r.screened == l.screened
  {
    var costs := map[
      ReceptionistCost := l.receptionist, ClinicianCost := l.clinician,
      NurseCost := l.nurse, MailHandlerCost := l.mailHandler,
      LabCost := l.lab, MailingCost := l.mailing];
    assert forall c :: c in costs && costs[c] == Get(l, c) by {
      forall c ensures c in costs && costs[c] == Get(l, c) {
        assert c.ReceptionistCost? || c.ClinicianCost? || c.NurseCost?
          || c.MailHandlerCost? || c.LabCost? || c.MailingCost?;
      }
    }
    RunResult(pShift, pNew, costs, l.screened)
  }

  /** The record a run returns, whatever order its steps were booked in:
      each category's entry is what the booked steps charge to it and is
      never negative, and the screened count is the number of lab steps. */
  lemma ReportOfRun(pShift: real, pNew: real, events: seq<Step>)
    ensures var r := Report(pShift, pNew, Run(Initial(), events));
      && (forall c :: c in r.costs && r.costs[c] == Spent(events, c) && r.costs[c] >= 0.0)
      && r.screened == LabCount(events)
  {
    RunTotals(events);
  }
}
