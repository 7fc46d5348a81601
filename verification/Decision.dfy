/** How one piece of evidence changes one attempt and what it allows routing to do next. */
module Decision {
  import opened Prelude
  import opened Records

  datatype SuppressScope = SuppressNone | SuppressFallback | SuppressAll

  datatype Decision = Decision(
    evidence: Evidence,
    applies: bool,
    recipientInvalid: bool,
    stopAutomatic: bool,
    suppress: SuppressScope,
    advance: bool)

  function ResultingState(current: AttemptState, incoming: AttemptState): AttemptState {
    if current.Delivered? || current.Suppressed? then current
    else if current.Failed? && !incoming.Delivered? then current
    else if current.Accepted? && incoming.Uncertain? then current
    else incoming
  }

  function OrElse<T>(a: Option<T>, b: Option<T>): Option<T> {
    if a.Some? then a else b
  }

  function MergeEvidence(previous: Evidence, outcome: Outcome): Evidence {
    var repeated := previous.state.Failed? && outcome.state.Failed?;
    Evidence(
      outcome.state,
      Some(if outcome.state.Delivered? || previous.acceptance == Some(WasAccepted) then WasAccepted
           else outcome.acceptance),
      if repeated then OrElse(previous.failureCategory, outcome.failureCategory) else outcome.failureCategory,
      if repeated then OrElse(previous.diagnosticCode, outcome.diagnosticCode) else outcome.diagnosticCode)
  }

  predicate MayAdvance(d: Delivery, i: nat, recipientInvalid: bool)
    requires i < |d.attempts|
  {
    && d.op.state.Active?
    && !d.op.automaticStopped
    && !recipientInvalid
    && d.op.current == Some(i)
    && d.op.revision == d.attempts[i].route.revision
  }

  function DecideOutcome(d: Delivery, i: nat, outcome: Outcome): Decision
    requires i < |d.attempts|
  {
    var previous := d.attempts[i].evidence;
    var state := ResultingState(previous.state, outcome.state);
    var applies := state == outcome.state;
    var recipientInvalid := d.op.recipientInvalid || (applies && outcome.stop);
    var newAcceptance := applies && state.Accepted? && !previous.state.Accepted?;
    var newDelivery := applies && state.Delivered? && !previous.state.Delivered?;
    Decision(
      if applies then MergeEvidence(previous, outcome) else previous,
      applies,
      recipientInvalid,
      recipientInvalid || newDelivery,
      if applies && outcome.stop then SuppressAll
      else if newAcceptance || newDelivery then SuppressFallback
      else SuppressNone,
      applies && state.Failed? && !previous.state.Failed? && MayAdvance(d, i, recipientInvalid))
  }

  /** Strength of what is known about a committed invocation. */
  function Rank(s: AttemptState): (r: int) {
    match s
    case Dispatching => 0
    case Uncertain => 1
    case Accepted => 2
    case Failed => 3
    case Delivered => 4
    case Pending => -1
    case Suppressed => -2
  }

  predicate Invoked(s: AttemptState) { s.Dispatching? || Evidential(s) }

  /** Merging is taking the maximum, so it is commutative, associative and idempotent. */
  lemma ResultIsMaximum(current: AttemptState, incoming: AttemptState)
    requires Invoked(current) && Evidential(incoming)
    ensures Invoked(ResultingState(current, incoming))
    ensures Rank(ResultingState(current, incoming)) == Max(Rank(current), Rank(incoming))
  {
  }

  lemma RankInjective(a: AttemptState, b: AttemptState)
    requires Rank(a) == Rank(b)
    ensures a == b
  {
  }

  /** The state of an attempt after a history of evidence, oldest first. */
  function Fold(start: AttemptState, history: seq<AttemptState>): AttemptState {
    if history == [] then start
    else ResultingState(Fold(start, history[..|history|-1]), history[|history|-1])
  }

  /** The folded state is the strongest evidence seen, whatever the arrival order. */
  lemma {:induction false} FoldIsStrongest(start: AttemptState, history: seq<AttemptState>)
    requires Invoked(start)
    requires forall k | 0 <= k < |history| :: Evidential(history[k])
    ensures var last := Fold(start, history);
            && Invoked(last)
            && (last == start || last in history)
            && Rank(start) <= Rank(last)
            && forall k | 0 <= k < |history| :: Rank(history[k]) <= Rank(last)
  {
    if history != [] {
      FoldIsStrongest(start, history[..|history|-1]);
      ResultIsMaximum(Fold(start, history[..|history|-1]), history[|history|-1]);
    }
  }

  /** Reordering or repeating evidence cannot change where the attempt ends. */
  lemma FoldIgnoresOrderAndRepetition(start: AttemptState, a: seq<AttemptState>, b: seq<AttemptState>)
    requires Invoked(start)
    requires forall k | 0 <= k < |a| :: Evidential(a[k])
    requires forall s :: s in a <==> s in b
    ensures Fold(start, a) == Fold(start, b)
  {
    forall k | 0 <= k < |b| ensures Evidential(b[k]) {
      assert b[k] in a;
    }
    FoldIsStrongest(start, a);
    FoldIsStrongest(start, b);
    RankInjective(Fold(start, a), Fold(start, b));
  }
}
