/**
  ObjectTracker.Watch as a concurrent protocol over a shared sync.Map
  (cluster-api/controllers/external/tracker.go).
 */
module ObjectTracker {
  import opened Common

  /** Where one call of Watch for a group-kind is. */
  datatype Pc =
    | Idle
    | Entering(k: string)    // 52, LoadOrStore
    | Calling(k: string)     // 57, Controller.Watch
    | Cleaning(k: string)    // 64, Delete after a failure

  datatype Outcome = Nil | Failed

  /**
    The map, and history: who is in flight for a key, the controller watches that succeeded, and what each
    goroutine's last call returned.
   */
  datatype State = State(
    pcs: map<nat, Pc>,
    keys: set<string>,
    inFlight: map<string, nat>,
    succeeded: multiset<string>,
    returned: map<nat, Outcome>)

  datatype Step = Call(g: nat, k: string) | Enter(g: nat) | Succeed(g: nat) | Fail(g: nat) | CleanUp(g: nat)

  const INIT := State(map[], {}, map[], multiset{}, map[])

  function PcOf(s: State, g: nat): Pc {
    if g in s.pcs then s.pcs[g] else Idle
  }

  function Return(s: State, g: nat, o: Outcome): State {
    s.(pcs := s.pcs[g := Idle], returned := s.returned[g := o])
  }

  function Next(s: State, step: Step): Option<State> {
    var pc := PcOf(s, step.g);
    match step
    case Call(g, k) => if pc.Idle? then Some(s.(pcs := s.pcs[g := Entering(k)])) else None
    case Enter(g) =>
      if !pc.Entering? then None
      else if pc.k in s.keys then Some(Return(s, g, Nil))
      else Some(s.(pcs := s.pcs[g := Calling(pc.k)], keys := s.keys + {pc.k}, inFlight := s.inFlight[pc.k := g]))
    case Succeed(g) =>
      if !pc.Calling? then None
      else Some(Return(s, g, Nil).(inFlight := s.inFlight - {pc.k}, succeeded := s.succeeded + multiset{pc.k}))
    case Fail(g) => if pc.Calling? then Some(s.(pcs := s.pcs[g := Cleaning(pc.k)])) else None
    case CleanUp(g) =>
      if !pc.Cleaning? then None
      else Some(Return(s, g, Failed).(keys := s.keys - {pc.k}, inFlight := s.inFlight - {pc.k}))
  }

  function Exec(s: State, run: seq<Step>): Option<State> {
    if run == [] then Some(s)
    else match Exec(s, run[..|run| - 1])
      case None => None
      case Some(m) => Next(m, run[|run| - 1])
  }

  /** The goroutine has stored the key and has not finished with it. */
  predicate Busy(pc: Pc, k: string) {
    pc == Calling(k) || pc == Cleaning(k)
  }

  ghost predicate Inv(s: State) {
    && (forall k :: k in s.inFlight ==> Busy(PcOf(s, s.inFlight[k]), k))
    && (forall g, k :: Busy(PcOf(s, g), k) ==> k in s.inFlight && s.inFlight[k] == g)
    && (forall k :: k in s.inFlight ==> k in s.keys && k !in s.succeeded)
    && (forall k :: s.succeeded[k] <= 1)
    && (forall k :: k in s.keys <==> k in s.inFlight || k in s.succeeded)
  }

  lemma CallOrFailInv(s: State, step: Step)
    requires Inv(s) && Next(s, step).Some? && (step.Call? || step.Fail?)
    ensures Inv(Next(s, step).value)
  {
    var s' := Next(s, step).value;
    assert forall h {:trigger PcOf(s', h)} :: h != step.g ==> PcOf(s', h) == PcOf(s, h);
  }

  lemma EnterInv(s: State, step: Step)
    requires Inv(s) && Next(s, step).Some? && step.Enter?
    ensures Inv(Next(s, step).value)
  {
    var s' := Next(s, step).value;
    assert forall h {:trigger PcOf(s', h)} :: h != step.g ==> PcOf(s', h) == PcOf(s, h);
  }

  lemma SucceedInv(s: State, step: Step)
    requires Inv(s) && Next(s, step).Some? && step.Succeed?
    ensures Inv(Next(s, step).value)
  {
    var s' := Next(s, step).value;
    assert forall h {:trigger PcOf(s', h)} :: h != step.g ==> PcOf(s', h) == PcOf(s, h);
    assert Busy(PcOf(s, step.g), PcOf(s, step.g).k);
  }

  lemma CleanUpInv(s: State, step: Step)
    requires Inv(s) && Next(s, step).Some? && step.CleanUp?
    ensures Inv(Next(s, step).value)
  {
    var s' := Next(s, step).value;
    assert forall h {:trigger PcOf(s', h)} :: h != step.g ==> PcOf(s', h) == PcOf(s, h);
    assert Busy(PcOf(s, step.g), PcOf(s, step.g).k);
  }

  lemma StepInv(s: State, step: Step)
    requires Inv(s) && Next(s, step).Some?
    ensures Inv(Next(s, step).value)
  {
    match step {
      case Call(_, _) | Fail(_) => CallOrFailInv(s, step);
      case Enter(_) => EnterInv(s, step);
      case Succeed(_) => SucceedInv(s, step);
      case CleanUp(_) => CleanUpInv(s, step);
    }
  }

  lemma {:induction false} RunInv(run: seq<Step>)
    requires Exec(INIT, run).Some?
    ensures Inv(Exec(INIT, run).value)
  {
    if run == [] {
    } else {
      RunInv(run[..|run| - 1]);
      StepInv(Exec(INIT, run[..|run| - 1]).value, run[|run| - 1]);
    }
  }

  ghost predicate Reachable(s: State) {
    exists run :: Exec(INIT, run) == Some(s)
  }

  /**
    For every interleaving and every group-kind: at most one controller watch is in flight, at most one
    ever succeeds, and not after that; the key is stored exactly while one is in flight or awaits its
    clean-up, or has succeeded.
   */
  lemma WatchOncePerKind(s: State, k: string)
    requires Reachable(s)
    ensures forall g, h :: Busy(PcOf(s, g), k) && Busy(PcOf(s, h), k) ==> g == h
    ensures s.succeeded[k] <= 1
    ensures s.succeeded[k] == 1 ==> forall g :: !Busy(PcOf(s, g), k)
    ensures k in s.keys <==> s.succeeded[k] == 1 || exists g :: Busy(PcOf(s, g), k)
  {
    var run :| Exec(INIT, run) == Some(s);
    RunInv(run);
    if k in s.inFlight {
      assert Busy(PcOf(s, s.inFlight[k]), k);
    }
  }

  /** Once no call for the kind is under way, a stored key means an established watch. */
  lemma QuiescentKeyMeansWatch(s: State, k: string)
    requires Reachable(s) && forall g :: !Busy(PcOf(s, g), k)
    ensures k in s.keys <==> s.succeeded[k] == 1
  {
    WatchOncePerKind(s, k);
  }

  lemma {:induction false} SuccessIsForever(s: State, more: seq<Step>, k: string)
    requires Inv(s) && Exec(s, more).Some? && k in s.succeeded
    ensures Inv(Exec(s, more).value) && Exec(s, more).value.succeeded[k] == 1
  {
    if more == [] {
    } else {
      SuccessIsForever(s, more[..|more| - 1], k);
      StepInv(Exec(s, more[..|more| - 1]).value, more[|more| - 1]);
    }
  }

  /** A call that made the controller watch itself returns nil exactly when that watch succeeded. */
  lemma OwnCallReturns(s: State, step: Step)
    requires Inv(s) && Next(s, step).Some? && (step.Succeed? || step.CleanUp?)
    ensures var s' := Next(s, step).value; var k := PcOf(s, step.g).k;
            s'.returned[step.g] == (if s'.succeeded[k] == 1 then Nil else Failed)
  {
    assert Busy(PcOf(s, step.g), PcOf(s, step.g).k);
  }

  lemma Extend(run: seq<Step>, s: State, step: Step) returns (run': seq<Step>, s': State)
    requires Exec(INIT, run) == Some(s) && Next(s, step).Some?
    ensures run' == run + [step] && Exec(INIT, run') == Some(s') && s' == Next(s, step).value
  {
    run' := run + [step];
    s' := Next(s, step).value;
    assert run'[..|run'| - 1] == run;
  }

  /**
    To a concurrent caller nil promises nothing: it can return nil for a kind on which, when all calls have
    returned, no watch was ever established.
   */
  lemma NilIsNoPromise(k: string)
    ensures exists s :: Reachable(s) && 1 in s.returned && s.returned[1] == Nil && s.succeeded[k] == 0
                     && forall g :: PcOf(s, g).Idle?
  {
    var run, s := Extend([], INIT, Call(0, k));
    run, s := Extend(run, s, Enter(0));
    run, s := Extend(run, s, Call(1, k));
    run, s := Extend(run, s, Enter(1));
    run, s := Extend(run, s, Fail(0));
    run, s := Extend(run, s, CleanUp(0));
    assert Reachable(s);
  }

  /**
    Exactly when it does: a caller that finds the key stored gets nil, and at that moment a watch is established
    if and only if no other call for the kind is under way.
   */
  lemma NilMeansWatchIff(s: State, g: nat)
    requires Reachable(s) && PcOf(s, g).Entering? && PcOf(s, g).k in s.keys
    ensures Next(s, Enter(g)) == Some(Return(s, g, Nil))
    ensures var k := PcOf(s, g).k; s.succeeded[k] == 1 <==> forall h :: !Busy(PcOf(s, h), k)
  {
    WatchOncePerKind(s, PcOf(s, g).k);
  }

  /** The tracker itself, and a call of Watch that nobody interrupts. */
  class Tracker {
    var m: set<string>
    const hasController: bool

    constructor (hasController: bool)
      ensures m == {} && this.hasController == hasController
    {
      this.hasController := hasController;
      m := {};
    }

    method LoadOrStore(key: string) returns (loaded: bool)
      modifies this
      ensures loaded <==> key in old(m)
      ensures m == old(m) + {key}
    {
      loaded := key in m;
      m := m + {key};
    }

    method Delete(key: string)
      modifies this
      ensures m == old(m) - {key}
    {
      m := m - {key};
    }

    /** `watchSucceeds` is the outcome of Controller.Watch, should it be called. */
    method Watch(key: string, watchSucceeds: bool) returns (err: bool, called: bool)
      modifies this
      ensures called <==> hasController && key !in old(m)
      ensures err <==> called && !watchSucceeds
      ensures m == old(m) + (if called && watchSucceeds then {key} else {})
    {
      called := false;
      if !hasController {
        return false, false;
      }
      var loaded := LoadOrStore(key);
      if loaded {
        return false, false;
      }
      called := true;
      if !watchSucceeds {
        Delete(key);
        return true, true;
      }
      return false, true;
    }
  }
}
