/** The log that the bounds count is a faithful record of the steps taken. */
module PubSubLog {
  import opened Common
  import opened PubSubProtocol
  import opened PubSubWork

  predicate FlightAt(s: State, f: nat, g: nat, i: nat) {
    f < |s.flights| && s.flights[f].g == g && s.flights[f].i == i
  }

  /** The flight is one of a readable entry holding v. */
  predicate FlightOf(s: State, f: nat, v: Value) {
    f < |s.flights| && s.flights[f].entry.Readable? && s.flights[f].entry.copy.v == v
  }

  /** What a query asks about, said of a step and the state it is taken in. */
  ghost predicate Happens(c: Config, q: Query, s: State, step: Step)
    requires Enabled(c, s, step)
  {
    match q
    case CallsOf(v) => step.Call? && FlightOf(s, step.f, v)
    case PublishesOf(v) => step == Publish(v)
    case ClaimsOf(v) => step.Claim? && s.stream[step.i].Readable? && s.stream[step.i].copy.v == v
    case CallsAt(g, i) => step.Call? && FlightAt(s, step.f, g, i)
    case DeliveriesAt(g, i) => (step == Read(g) && s.groups[g].cursor == i) || step == Claim(g, i)
    case BlindReadsAt(g, i) =>
      && step.CountRead? && FlightAt(s, step.f, g, i)
      && !(step.ok && i in s.groups[g].pending && s.groups[g].pending[i] > 0)
    case SuccessesOf(g, v) => step.Call? && step.ok && FlightOf(s, step.f, v) && s.flights[step.f].g == g
    case DropsOf(g, v) => step.Drop? && FlightOf(s, step.f, v) && s.flights[step.f].g == g
  }

  ghost function Occurrences(c: Config, q: Query, s: State, steps: seq<Step>, t: State): nat
    requires Reaches(c, s, steps, t)
    decreases |steps|
  {
    if steps == [] then 0
    else (if Happens(c, q, s, steps[0]) then 1 else 0) + Occurrences(c, q, Do(c, s, steps[0]), steps[1..], t)
  }

  lemma StepIsLogged(c: Config, q: Query, s: State, step: Step)
    requires Enabled(c, s, step)
    ensures Count(q, Do(c, s, step).log) == Count(q, s.log) + if Happens(c, q, s, step) then 1 else 0
  {
    hide Count, DueAt, NextCopy, RetryDelay, UnixMilli, StoredAttempt;
    var log := Do(c, s, step).log;
    if log != s.log {
      assert log == s.log + [log[|s.log|]];
      CountAppend(q, s.log, log[|s.log|]);
    }
  }

  /**
   Over every run the log counts publishes, deliveries, blind reads, handler calls, successes and drops
   exactly as often as they happen.
   */
  lemma {:induction false} LogIsExact(c: Config, q: Query, s: State, steps: seq<Step>, t: State)
    requires Reaches(c, s, steps, t)
    ensures Count(q, t.log) == Count(q, s.log) + Occurrences(c, q, s, steps, t)
    decreases |steps|
  {
    if steps != [] {
      StepIsLogged(c, q, s, steps[0]);
      LogIsExact(c, q, Do(c, s, steps[0]), steps[1..], t);
    }
  }
}
