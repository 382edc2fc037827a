/** The routing decision of an admitted arrival.

    Arrivals come from two streams: existing patients at `BaseRate` per
    minute and new patients at `BaseRate * pNew`. The source draws
    `u1 = random.random()` and compares it with the existing share of the
    total rate; an existing patient then draws `u2` and takes the mail
    pathway when `u2 < pShift`. New patients always take the mail pathway.
    The draws are inputs here; `u2` is ignored when the arrival is new, as
    the source does not draw it then. */
module Routing {

  /** Default arrival rate of existing patients, per minute. */
  const BaseRate: real := 1.0 / 60.0

  datatype Pathway = Clinic | Mail

  datatype Origin = Existing | New

  const RateExisting: real := BaseRate

  function RateNew(pNew: real): real {
    BaseRate * pNew
  }

  function TotalRate(pNew: real): real {
    RateExisting + RateNew(pNew)
  }

  /** `rate_existing / total_rate`. The total rate must be positive: with a
      non-positive rate the inter-arrival draw that precedes every routing
      decision already fails. */
  function ExistingShare(pNew: real): (r: real)
    requires pNew > -1.0
    ensures r * (1.0 + pNew) == 1.0
    ensures r > 0.0
    ensures pNew >= 0.0 ==> r <= 1.0
    ensures r == 1.0 <==> pNew == 0.0
  {
    RateExisting / TotalRate(pNew)
  }

  /** Which stream the arrival came from, decided by the first draw. */
  function Classify(u1: real, pNew: real): (o: Origin)
    requires pNew > -1.0
    ensures o == Existing <==> u1 * (1.0 + pNew) < 1.0
  {
    if u1 < ExistingShare(pNew) then Existing else New
  }

  /** The pathway an admitted arrival is sent down. */
  function Route(u1: real, u2: real, pShift: real, pNew: real): (p: Pathway)
    requires pNew > -1.0
    ensures p == Mail <==> (u1 >= ExistingShare(pNew) || u2 < pShift)
    ensures p == Clinic <==> (Classify(u1, pNew) == Existing && !(u2 < pShift))
  {
    match Classify(u1, pNew)
    case Existing => if u2 < pShift then Mail else Clinic
    case New => Mail
  }

  /** With no new-patient stream every draw in [0, 1) is an existing
      patient, and the mail pathway is taken exactly when `u2 < pShift`. */
  lemma NoNewPatients(u1: real, u2: real, pShift: real)
    requires 0.0 <= u1 < 1.0
    ensures Classify(u1, 0.0) == Existing
    ensures Route(u1, u2, pShift, 0.0) == Mail <==> u2 < pShift
  {
  }

  /** A shift probability of at least one sends every arrival to mail. */
  lemma FullShiftAllMail(u1: real, u2: real, pShift: real, pNew: real)
    requires pNew > -1.0
    requires 0.0 <= u2 < 1.0 && pShift >= 1.0
    ensures Route(u1, u2, pShift, pNew) == Mail
  {
  }

  /** A shift probability of zero or less leaves only new patients on mail. */
  lemma NoShiftOnlyNewMail(u1: real, u2: real, pShift: real, pNew: real)
    requires pNew > -1.0
    requires 0.0 <= u2 && pShift <= 0.0
    ensures Route(u1, u2, pShift, pNew) == Mail <==> Classify(u1, pNew) == New
  {
  }
}
