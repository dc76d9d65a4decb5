/**
 The task lifecycle: the five states a task can be in, the fixed table of
 legal transitions between them, and what that table implies about how far a
 task can travel through its lifecycle.
 */
module TaskState {
  import opened Wrappers

  /** Lifecycle states, declared in the order of the source's `iota` constants. */
  datatype State = Pending | Scheduled | Running | Completed | Failed

  /** The integer value the source gives each state: Pending = 0 up to Failed = 4. */
  function Code(s: State): (n: nat)
    ensures n < 5
  {
    match s
    case Pending => 0
    case Scheduled => 1
    case Running => 2
    case Completed => 3
    case Failed => 4
  }

  /** Reads an integer back as a state; an integer outside 0..4 names no state. */
  function FromCode(n: int): (r: Option<State>)
    ensures r.Some? <==> 0 <= n < 5
    ensures r.Some? ==> Code(r.value) == n
  {
    if n == 0 then Some(Pending)
    else if n == 1 then Some(Scheduled)
    else if n == 2 then Some(Running)
    else if n == 3 then Some(Completed)
    else if n == 4 then Some(Failed)
    else None
  }

  /** Every state, in code order. */
  const AllStates: seq<State> := [Pending, Scheduled, Running, Completed, Failed]

  /** The five states are distinct, exhaust the type and carry the codes 0..4 in order. */
  lemma AllStatesEnumerated()
    ensures |AllStates| == 5
    ensures forall s: State :: s in AllStates
    ensures forall i :: 0 <= i < |AllStates| ==> Code(AllStates[i]) == i
    ensures forall i, j :: 0 <= i < j < |AllStates| ==> AllStates[i] != AllStates[j]
    ensures forall s: State :: FromCode(Code(s)) == Some(s)
  {
    forall s: State ensures s in AllStates {
      match s
      case Pending => assert AllStates[0] == s;
      case Scheduled => assert AllStates[1] == s;
      case Running => assert AllStates[2] == s;
      case Completed => assert AllStates[3] == s;
      case Failed => assert AllStates[4] == s;
    }
  }

  /** The transition table: the successors each state lists, in the source's order. */
  function Successors(s: State): (r: seq<State>)
    ensures forall d :: d in r <==> (s, d) in LegalTransitions
    ensures forall i, j :: 0 <= i < j < |r| ==> r[i] != r[j]
  {
    match s
    case Pending => [Scheduled]
    case Scheduled => [Scheduled, Running, Failed]
    case Running => [Running, Completed, Failed]
    case Completed => []
    case Failed => []
  }

  /** Linear membership test over a list of states. */
  function Contains(states: seq<State>, s: State): (r: bool)
    ensures r <==> s in states
    ensures r <==> exists i :: 0 <= i < |states| && states[i] == s
  {
    if |states| == 0 then false
    else states[0] == s || Contains(states[1..], s)
  }

  /** The seven legal (source, destination) pairs, written out as an independent reference. */
  const LegalTransitions: set<(State, State)> :=
    { (Pending, Scheduled),
      (Scheduled, Scheduled), (Scheduled, Running), (Scheduled, Failed),
      (Running, Running), (Running, Completed), (Running, Failed) }

  /** True exactly when `dst` is listed among the successors of `src`. */
  function ValidStateTransition(src: State, dst: State): (r: bool)
    ensures r <==> (src, dst) in LegalTransitions
  {
    Contains(Successors(src), dst)
  }

  /** A state with no legal way out. */
  predicate IsTerminal(s: State) {
    s == Completed || s == Failed
  }

  /** The pairs of states the table admits are exactly the reference set. */
  lemma LegalPairsMatchTable()
    ensures (set a, b | a in AllStates && b in AllStates && ValidStateTransition(a, b) :: (a, b))
            == LegalTransitions
  {
    var legal := set a, b | a in AllStates && b in AllStates && ValidStateTransition(a, b) :: (a, b);
    forall p | p in LegalTransitions
      ensures p in legal
    {
      assert p.0 in AllStates && p.1 in AllStates;
    }
  }

  /** The reference set holds seven distinct pairs. */
  lemma SevenLegalPairs()
    ensures |LegalTransitions| == 7
  {
    // Growing the set one pair at a time keeps the solver's work small; the lemma does not need it to hold.
    var s1 := {(Pending, Scheduled)};
    var s2 := s1 + {(Scheduled, Scheduled)};
    assert |s2| == 2;
    var s3 := s2 + {(Scheduled, Running)};
    assert |s3| == 3;
    var s4 := s3 + {(Scheduled, Failed)};
    assert |s4| == 4;
    var s5 := s4 + {(Running, Running)};
    assert |s5| == 5;
    var s6 := s5 + {(Running, Completed)};
    assert |s6| == 6;
    var s7 := s6 + {(Running, Failed)};
    assert |s7| == 7;
    assert s7 == LegalTransitions;
  }

  /** Of the 25 ordered pairs of states, exactly 7 are legal transitions. */
  lemma ExactlySevenLegal()
    ensures |set a, b | a in AllStates && b in AllStates && ValidStateTransition(a, b) :: (a, b)| == 7
  {
    LegalPairsMatchTable();
    SevenLegalPairs();
  }

  /** Completed and Failed are terminal: nothing may follow them, not even themselves. */
  lemma TerminalStatesHaveNoSuccessor(s: State, x: State)
    requires IsTerminal(s)
    ensures !ValidStateTransition(s, x)
  {
  }

  /** The only legal self-loops are Scheduled -> Scheduled and Running -> Running. */
  lemma SelfLoops(s: State)
    ensures ValidStateTransition(s, s) <==> s == Scheduled || s == Running
  {
  }

  /** No state, Pending included, may move into Pending. */
  lemma NothingEntersPending(s: State)
    ensures !ValidStateTransition(s, Pending)
  {
  }

  /** Pending can only move to Scheduled; it cannot skip ahead. */
  lemma PendingOnlySchedules(dst: State)
    ensures ValidStateTransition(Pending, dst) <==> dst == Scheduled
  {
  }

  /** A legal transition never lowers the state's code, and a proper one raises it. */
  lemma TransitionNeverRegresses(src: State, dst: State)
    requires ValidStateTransition(src, dst)
    ensures Code(src) <= Code(dst)
    ensures src != dst ==> Code(src) < Code(dst)
    ensures !IsTerminal(src)
  {
  }

  /** `path` is a walk along legal transitions. */
  predicate IsChain(path: seq<State>) {
    forall i :: 0 <= i < |path| - 1 ==> ValidStateTransition(path[i], path[i + 1])
  }

  /**
   Closed form of "some chain of legal transitions leads from `a` to `b`":
   either stay put, or leave a non-terminal state for one with a higher code.
   */
  predicate CanReach(a: State, b: State) {
    a == b || (!IsTerminal(a) && Code(a) < Code(b))
  }

  /** Every chain ends in a state its first state can reach. */
  lemma {:induction false} ChainOnlyAdvances(path: seq<State>)
    requires |path| > 0 && IsChain(path)
    ensures CanReach(path[0], path[|path| - 1])
    decreases |path|
  {
    if |path| > 1 {
      var tail := path[1..];
      assert IsChain(tail) by {
        forall i | 0 <= i < |tail| - 1
          ensures ValidStateTransition(tail[i], tail[i + 1])
        {
          assert tail[i] == path[i + 1] && tail[i + 1] == path[i + 2];
        }
      }
      ChainOnlyAdvances(tail);
      assert ValidStateTransition(path[0], path[1]);
      TransitionNeverRegresses(path[0], path[1]);
    }
  }

  /** The next state on the main line Pending -> Scheduled -> Running -> Completed. */
  function MainLineNext(s: State): (n: State)
    requires !IsTerminal(s)
    ensures ValidStateTransition(s, n) && Code(n) == Code(s) + 1
  {
    match s
    case Pending => Scheduled
    case Scheduled => Running
    case Running => Completed
  }

  /** A chain of legal transitions from `a` to `b`, built for any pair `CanReach` admits. */
  function ChainBetween(a: State, b: State): (path: seq<State>)
    requires CanReach(a, b)
    ensures |path| > 0 && path[0] == a && path[|path| - 1] == b
    ensures IsChain(path)
    decreases 5 - Code(a)
  {
    if a == b then [a]
    else if b == Failed && a != Pending then [a, Failed]
    else [a] + ChainBetween(MainLineNext(a), b)
  }

  /** Every state lies on some chain of legal transitions that starts at Pending. */
  lemma EveryStateReachableFromPending(s: State)
    ensures CanReach(Pending, s)
    ensures var path := ChainBetween(Pending, s);
            path[0] == Pending && path[|path| - 1] == s && IsChain(path)
  {
  }

  /** Reachability is transitive, so any number of steps that each advance still advance. */
  lemma CanReachTransitive(a: State, b: State, c: State)
    requires CanReach(a, b) && CanReach(b, c)
    ensures CanReach(a, c)
  {
  }
}
