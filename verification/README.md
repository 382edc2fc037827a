# HPV kit adoption workflow: a Dafny model of its deterministic core

The repository simulates a clinical HPV-screening workflow as a discrete-event
simulation. Patients arrive at random times. Admitted arrivals go through a
reception step and then one of two care pathways: an in-clinic visit
(clinician sample, then lab) or a mail-order kit (nurse instruction,
packaging, postage, transit, a possible resend, a reminder call, then lab).
Each completed service step adds a fixed cost to a six-category ledger. Each
pathway that reaches its lab step adds one to a `screened` counter.

This project models the parts the repository decides itself, with every
random draw taken as an input:

- **Calendar** (`calendar.dfy`): the Mon–Fri 08:00–16:00 admission gate on
  real-valued virtual time. It is proved equal to an interval description of
  the opening hours, periodic by week, and exact at its boundaries.
- **Routing** (`routing.dfy`): the existing/new classification from the first
  draw, and the clinic/mail choice from the second.
- **Costs** (`costs.dfy`): the `Ledger` record, the `Step` datatype, the cost
  constants, `ApplyStep`, and the fold `Run`. The fold is proved additive,
  monotone, compositional and independent of the order of its steps.
- **Pathways** (`pathways.dfy`): the step lists of the reception unit and the
  two pathways, with the exact amount each one adds when it completes.
- **Horizon** (`horizon.dfy`): when each step books its cost, and which prefix
  of a unit's steps has been booked when the run stops at its horizon.
- **Scenario** (`scenario.dfy`): the reset ledger, the fact that the
  interleaving of units does not change the final ledger, and the result
  record.
- **Arrivals** (`arrivals.dfy`): the units of work one arrival spawns, their
  combined effect, and the screened count as the number of completed
  pathways.

Design points:

- The source keeps its cost and count trackers in global dictionaries. Here
  the ledger is an immutable value that is threaded through the fold.
- Every cost is an integer or a half, and every sum is an exact multiple of
  a half. So `real` arithmetic gives the totals the source's floats give
  (while the totals stay far below 2^52).
- A step booked at exactly the horizon time is treated as not booked.
  SimPy's `run(until=...)` schedules its stop event ahead of ordinary events
  that share its time, so a booking due at the horizon never happens.

## Model

| member | source | states |
|---|---|---|
| Calendar.DayOfWeek | code/DES_HPVkitadoption.py:49 | the day number taken modulo 7 lies in 0..6 |
| Calendar.MinuteOfDay | code/DES_HPVkitadoption.py:50 | the minute of day lies in [0, 1440) for every real time |
| Calendar.AdmittedIffInWindow | code/DES_HPVkitadoption.py:36-51 | an arrival is admitted exactly when its time lies in [1440n+480, 1440n+960) for some day number n with n mod 7 < 5, in both directions |
| Calendar.WeeklyPeriod | code/DES_HPVkitadoption.py:48-51 | admission at t and at t + 7 days agree |
| Calendar.OpeningMinute | code/DES_HPVkitadoption.py:36-51 | minute 480 of day k is admitted exactly when k mod 7 < 5 |
| Calendar.ClosingMinuteRejected | code/DES_HPVkitadoption.py:37-51 | minute 960 of any day is rejected |
| Calendar.WeekendRejected | code/DES_HPVkitadoption.py:49-51 | any time inside a day k with k mod 7 >= 5 is rejected |
| Calendar.BeforeOpeningRejected | code/DES_HPVkitadoption.py:36-51 | nothing before 08:00 is admitted |
| Routing.ExistingShare | code/DES_HPVkitadoption.py:41-45 | the exact real quotient rate_existing/total_rate equals 1/(1+p_new); it is positive, at most 1 when p_new >= 0, and equal to 1 exactly when p_new = 0 (float rounding not modelled, see Left out) |
| Routing.Classify | code/DES_HPVkitadoption.py:53 | the arrival is existing iff u1 * (1 + p_new) < 1, that is, iff u1 is below the existing share |
| Routing.Route | code/DES_HPVkitadoption.py:53-59 | the pathway is Mail iff u1 >= the existing share or u2 < p_shift, and Clinic iff the arrival is existing and u2 >= p_shift |
| Routing.NoNewPatients | code/DES_HPVkitadoption.py:41-56 | with p_new = 0 every draw u1 in [0,1) is an existing patient, who goes to Mail iff u2 < p_shift |
| Routing.FullShiftAllMail | code/DES_HPVkitadoption.py:53-59 | with p_shift >= 1 every arrival goes to Mail |
| Routing.NoShiftOnlyNewMail | code/DES_HPVkitadoption.py:53-59 | with p_shift <= 0 only new patients go to Mail |
| Costs.StepCost | code/DES_HPVkitadoption.py:9-26 | step costs are reception 2.0, clinician 20.0, each lab 15.0, instruction 7.5, reminder 4.5, packaging 5.0, each postage 10.0, all positive |
| Costs.ApplyStep | code/DES_HPVkitadoption.py:62-108 | a step adds its cost to its own category only, and adds 1 to screened exactly when it is a lab step |
| Costs.Run | code/DES_HPVkitadoption.py:66-108 | booking steps never decreases any field, and screened grows by exactly the number of lab steps |
| Costs.RunAddsSpent | code/DES_HPVkitadoption.py:66-108 | each category grows by exactly the sum of the costs its steps charge |
| Costs.RunAppend | code/DES_HPVkitadoption.py:68-108 | booking a concatenation is booking its parts in turn |
| Costs.RunKeepsNonNegative | code/DES_HPVkitadoption.py:66-108 | totals that start non-negative stay non-negative |
| Costs.ApplyStepCommutes | code/DES_HPVkitadoption.py:66-108 | any two bookings commute |
| Costs.RunMoveToFront | code/DES_HPVkitadoption.py:66-108 | a booking anywhere in a list has the same effect as booking it first |
| Costs.RunPermutation | code/DES_HPVkitadoption.py:66-108 | any rearrangement of the same bookings gives the same ledger |
| Pathways.ReceptionEffect | code/DES_HPVkitadoption.py:62-66 | a reception adds exactly 2.0 to receptionist and changes nothing else |
| Pathways.ClinicEffect | code/DES_HPVkitadoption.py:68-79 | a completed clinic visit adds 20.0 to clinician, 15.0 to lab and 1 to screened, and nothing else |
| Pathways.MailEffect | code/DES_HPVkitadoption.py:81-108 | a completed mail pathway adds 12.0 to nurse, 5.0 to mail_handler, 15.0 to lab, 1 to screened, and 20.0 to mailing if the loss draw is below 0.1, else 10.0; receptionist and clinician are unchanged |
| Pathways.PathwayScreensOnceAtEnd | code/DES_HPVkitadoption.py:75-108 | a prefix of a pathway counts one screened sample exactly when it is the whole pathway |
| Horizon.BookTimes | code/DES_HPVkitadoption.py:63-108 | with non-negative waits the booking times are non-decreasing and never before the spawn time |
| Horizon.Booked | code/DES_HPVkitadoption.py:123 | the booked count never exceeds the number of steps |
| Horizon.BookedExactly | code/DES_HPVkitadoption.py:123 | step i is booked iff its booking time is before the horizon |
| Horizon.Abandon | code/DES_HPVkitadoption.py:63-123 | a unit cut off at the horizon contributes at least nothing and at most its full effect |
| Horizon.CompletedUnit | code/DES_HPVkitadoption.py:123 | a unit whose bookings all precede the horizon contributes its full effect |
| Horizon.AbandonMonotone | code/DES_HPVkitadoption.py:123 | a later horizon never contributes less |
| Horizon.ReceptionGaps | code/DES_HPVkitadoption.py:62-66 | reception books no earlier than its 2-minute service after the arrival |
| Horizon.ClinicGaps | code/DES_HPVkitadoption.py:68-79 | the clinician books at least 10 minutes after the spawn and the lab at least 30 minutes after the clinician |
| Horizon.MailGaps | code/DES_HPVkitadoption.py:83-107 | postage is booked with gap 0 right after packaging; a resend is booked exactly one first transit later; the reminder comes at least the last transit plus 3 minutes later; instruction and packaging take at least 5 minutes and the lab at least 30 |
| Horizon.MailChargedBeforeTransit | code/DES_HPVkitadoption.py:88-97 | once packaging finishes before the horizon, the first postage is charged even if the kit is still in transit |
| Scenario.Initial | code/DES_HPVkitadoption.py:119-120 | a run starts with all six totals 0.0 and screened 0 |
| Scenario.FoldUnitsIsRunConcat | code/DES_HPVkitadoption.py:52-59 | booking units one after another is booking their concatenated steps |
| Scenario.InterleavingIrrelevant | code/DES_HPVkitadoption.py:111-123 | every interleaving of the units' bookings ends with the same ledger |
| Scenario.RunTotals | code/DES_HPVkitadoption.py:119-131 | from the reset ledger, each total equals the costs charged to it, none is negative, and screened equals the lab steps booked |
| Scenario.Report | code/DES_HPVkitadoption.py:126-131 | the result record carries p_shift, p_new, a cost dictionary with an entry for every category holding its final total, and the screened count |
| Scenario.ReportOfRun | code/DES_HPVkitadoption.py:119-131 | the record a run returns from the reset ledger has, whatever the booking order, each category's entry equal to the costs its booked steps charge and never negative, and screened equal to the lab steps booked |
| Arrivals.Spawn | code/DES_HPVkitadoption.py:51-60 | an admitted arrival spawns exactly one reception and one pathway, and a rejected one spawns nothing; the pathway is Mail iff the arrival is new or u2 < p_shift |
| Arrivals.RejectedArrivalChangesNothing | code/DES_HPVkitadoption.py:51-60 | a rejected arrival leaves every total and screened unchanged |
| Arrivals.AdmittedArrivalEffect | code/DES_HPVkitadoption.py:51-108 | a completed admitted arrival adds 2.0 to receptionist and 1 to screened, plus the exact clinic or mail amounts of its pathway |
| Arrivals.NewArrivalGoesByMail | code/DES_HPVkitadoption.py:51-59 | a completed admitted arrival with u1 >= the existing share leaves clinician unchanged, adds 12.0 to nurse and 20.0 or 10.0 to mailing by the loss draw |
| Arrivals.CutUnitScreens | code/DES_HPVkitadoption.py:62-108 | a unit cut at the horizon has booked a lab step iff it is a completed pathway |
| Arrivals.AllBookedScreens | code/DES_HPVkitadoption.py:75-108 | the steps booked by all units contain one lab step per completed pathway |
| Arrivals.ScreenedCountsCompletedPathways | code/DES_HPVkitadoption.py:68-123 | for any interleaving, the final screened count is the number of pathways that reached their lab step |

## Left out

- SimPy's environment, event queue, `Resource` FIFO queues and `run(until=...)`:
  this library is not part of this model. Queue waits and the order of
  bookings across units are inputs. The model proves that the ledger does
  not depend on that order. The capacity-1 safety invariant and FIFO
  granting belong to the library.
- The random draws themselves (`random.expovariate`, `random.uniform`,
  `random.random`, seeding): draws are inputs. The model makes no claim about
  distributions or long-run loss fractions. It does not model the order in
  which units consume the shared generator's stream.
- Routing.ExistingShare: the share is the exact real quotient. The source
  divides binary floats, so a tiny positive `p_new` (1e-17, say) rounds the
  total rate to the existing rate and gives a share of exactly 1.0 there,
  while the model's share is below 1. Float rounding of the rates is not
  modelled, and `Routing.Classify` compares against the exact share too.
- The routing members require `p_new > -1`. With a
  non-positive total rate, the inter-arrival draw that comes before every
  routing decision already fails in the source. No routing happens then.
- The inter-arrival loop itself (line 44 onwards) as an infinite process: one
  iteration after its delay is modelled by `Arrivals.Spawn`.
- Transit delays in the mail pathway are any non-negative reals. The
  uniform [1440, 4320] range they are drawn from is not used by any property.
- Floating-point time: `env.now` is a float sum of draws. Here it is a real.
- `experiment` (reseeding, repetitions and pandas column means) and the
  `__main__` block (printing and the CSV write): aggregation and I/O.
- `business_days = 0`: what the library does with a zero horizon is not part
  of this model.
