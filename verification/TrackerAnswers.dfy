/** What the calls of the tracker return, and what its health checkers and its reconciler do, over whole runs. */
module TrackerAnswers {
  import opened Common
  import opened TrackerProtocol
  import opened TrackerInvariant
  import opened TrackerTheorems
  import HealthCheck

  // ------------------------------------------------------------------ what getClusterAccessor answers

  /** The accessor a visit should end with: loaded at once, loaded under the lock, or created and stored. */
  function Found(v: Visit): Option<nat> {
    if v.first.Some? then v.first
    else if v.locked then None
    else if v.second.Some? then v.second
    else if v.failed then None
    else v.stored
  }

  function CallOf(k: ObjectKey, use: Purpose): Action {
    match use
    case Return => CallGet(k)
    case Watch(name) => CallWatch(k, name)
  }

  /** The answer a visit should get. */
  function AnswerTo(v: Visit): Answer {
    if v.call.CallGet? then (if Found(v).Some? then Accessor(Found(v).value) else GetFailed)
    else if Found(v).Some? && !v.taken && !v.refused then WatchNil
    else WatchError
  }

  predicate IsCall(a: Action) {
    a.CallGet? || a.CallWatch?
  }

  /** A finished visit met one thing that decided it. */
  predicate Complete(v: Visit) {
    && (v.first.Some? ==> !v.locked && v.second.None? && !v.failed && v.stored.None?)
    && (v.locked ==> v.second.None? && !v.failed && v.stored.None?)
    && (v.second.Some? ==> !v.failed && v.stored.None?)
    && (v.first.None? && !v.locked && v.second.None? ==> (v.failed <==> v.stored.None?))
  }

  /** The goroutine has asked and not met anything yet that would decide. */
  predicate Asked(v: Visit, k: ObjectKey, use: Purpose) {
    v == NewVisit(CallOf(k, use)) && (use.Watch? ==> use.name != "")
  }

  /** Watch has its accessor. */
  predicate HasAccessor(v: Visit, k: ObjectKey, name: string, c: nat) {
    v.call == CallWatch(k, name) && name != "" && Complete(v) && Found(v) == Some(c)
  }

  predicate Nameless(a: Action) {
    a.CallWatch? && a.watch == ""
  }

  /** The visit of a goroutine that has returned explains its answer. */
  predicate Explains(v: Visit, answer: Option<Answer>, sh: Shared) {
    && answer == Some(AnswerTo(v))
    && (if Nameless(v.call) then Found(v).None? else Complete(v))
    && (answer.value.WatchNil? ==> v.call.CallWatch? && (Found(v).value, v.call.watch) in sh.watches)
  }

  /** A visit agrees with where its goroutine is. */
  predicate Fits(v: Visit, pc: Pc, answer: Option<Answer>, sh: Shared) {
    match pc
    case Idle => IsCall(v.call) ==> Explains(v, answer, sh)
    case LoadFirst(k, use) => Asked(v, k, use)
    case Locking(k, use) => Asked(v, k, use)
    case LoadAgain(k, use) => Asked(v, k, use)
    case Creating(k, use) => Asked(v, k, use)
    case Syncing(k, use, _) => Asked(v, k, use)
    case KeyGen(k, use, _) => Asked(v, k, use)
    case Storing(k, use, _) => Asked(v, k, use)
    case Unlocking(k, use, res) =>
      && Asked(v.(second := None, failed := false, stored := None), k, use) && Complete(v) && res == Found(v)
    case WatchLocking(k, name, c) => HasAccessor(v, k, name, c) && !v.taken && !v.refused
    case WatchChecking(k, name, c) => HasAccessor(v, k, name, c) && !v.taken && !v.refused
    case WatchCalling(k, name, c) => HasAccessor(v, k, name, c) && !v.taken && !v.refused
    case WatchInserting(k, name, c) => HasAccessor(v, k, name, c) && !v.taken && !v.refused
    case WatchUnlocking(k, name, c, ok) =>
      HasAccessor(v, k, name, c) && !v.taken && (ok <==> !v.refused) && (ok ==> (c, name) in sh.watches)
    case Deleting(k) => v.call == CallDelete(k)
    case _ => true
  }

  function AnswerOf(s: State, g: Gid): Option<Answer> {
    if g in s.answers then Some(s.answers[g]) else None
  }

  predicate VisitInv(s: State, g: Gid) {
    Fits(VisitOf(s, g), PcOf(s, g), AnswerOf(s, g), s.sh)
  }

  /** The goroutine's own steps, one kind after the other. */
  lemma BeginFits(s: State, g: Gid, a: Action)
    requires PcOf(s, g).Idle? && Next(s, Go(g, a)).Some?
    ensures VisitInv(Next(s, Go(g, a)).value, g)
  {
  }

  lemma GetFits(s: State, g: Gid, a: Action)
    requires VisitInv(s, g) && Getting(PcOf(s, g)) && Next(s, Go(g, a)).Some?
    ensures VisitInv(Next(s, Go(g, a)).value, g)
  {
  }

  lemma CreateFits(s: State, g: Gid, a: Action)
    requires VisitInv(s, g) && Building(PcOf(s, g)) && g.Caller? && Next(s, Go(g, a)).Some?
    ensures VisitInv(Next(s, Go(g, a)).value, g)
  {
  }

  lemma WatchReturnFits(s: State, g: Gid, a: Action)
    requires VisitInv(s, g) && (PcOf(s, g).WatchUnlocking? || PcOf(s, g).WatchLocking?) && Next(s, Go(g, a)).Some?
    ensures VisitInv(Next(s, Go(g, a)).value, g)
  {
  }

  lemma WatchRegionFits(s: State, g: Gid, a: Action)
    requires VisitInv(s, g) && Next(s, Go(g, a)).Some?
    requires PcOf(s, g).WatchChecking? || PcOf(s, g).WatchCalling? || PcOf(s, g).WatchInserting?
    ensures VisitInv(Next(s, Go(g, a)).value, g)
  {
  }

  lemma WatchFits(s: State, g: Gid, a: Action)
    requires VisitInv(s, g) && Watching(PcOf(s, g)) && Next(s, Go(g, a)).Some?
    ensures VisitInv(Next(s, Go(g, a)).value, g)
  {
    if PcOf(s, g).WatchUnlocking? || PcOf(s, g).WatchLocking? {
      WatchReturnFits(s, g, a);
    } else {
      WatchRegionFits(s, g, a);
    }
  }

  lemma RecordedStays(sh: Shared, g: Gid, e: Effect)
    ensures sh.watches <= Do(sh, g, e).watches
  {
  }

  /** Steps of others change neither the goroutine nor its visit; a recorded watch stays recorded. */
  lemma OtherFits(s: State, g: Gid, step: Step)
    requires VisitInv(s, g) && g.Caller? && Next(s, step).Some? && (step.Go? ==> step.g != g)
    ensures VisitInv(Next(s, step).value, g)
  {
    if step.Go? {
      RecordedStays(s.sh, step.g, MoveOf(s.sh, step.g, PcOf(s, step.g), step.a).value.effect);
    }
  }

  lemma VisitStep(s: State, g: Gid, step: Step)
    requires VisitInv(s, g) && g.Caller? && Next(s, step).Some?
    ensures VisitInv(Next(s, step).value, g)
  {
    if step.Go? && step.g == g {
      var pc := PcOf(s, g);
      if pc.Idle? {
        BeginFits(s, g, step.a);
      } else if Getting(pc) {
        GetFits(s, g, step.a);
      } else if Building(pc) {
        CreateFits(s, g, step.a);
      } else if Watching(pc) {
        WatchFits(s, g, step.a);
      }
    } else {
      OtherFits(s, g, step);
    }
  }

  lemma {:induction false} VisitRun(run: seq<Step>, g: Gid)
    requires Exec(INIT, run).Some? && g.Caller?
    ensures VisitInv(Exec(INIT, run).value, g)
  {
    if run == [] {
    } else {
      VisitRun(run[..|run| - 1], g);
      VisitStep(Exec(INIT, run[..|run| - 1]).value, g, run[|run| - 1]);
    }
  }

  /** The goroutine has returned from a call of this kind. */
  predicate Returned(s: State, g: Gid) {
    g.Caller? && PcOf(s, g).Idle? && IsCall(VisitOf(s, g).call)
  }

  lemma AnswerExplained(s: State, g: Gid)
    requires Reachable(s) && Returned(s, g)
    ensures Explains(VisitOf(s, g), AnswerOf(s, g), s.sh)
  {
    var run :| Exec(INIT, run) == Some(s);
    VisitRun(run, g);
  }

  /**
    In every interleaving, a call for an accessor fails if and only if it found none at first and then found the
    cluster locked, or found none again and failed to create one; otherwise it delivers the accessor that was in
    the map at one of its loads or that it stored itself.
   */
  lemma GetAnswers(s: State, g: Gid, c: nat)
    requires Reachable(s) && Returned(s, g) && VisitOf(s, g).call.CallGet?
    ensures g in s.answers && (s.answers[g].GetFailed? || s.answers[g].Accessor?)
    ensures var v := VisitOf(s, g);
      && (s.answers[g] == GetFailed <==> v.first.None? && (v.locked || (v.second.None? && v.failed)))
      && (s.answers[g] == Accessor(c) <==> v.first == Some(c) || v.second == Some(c) || v.stored == Some(c))
  {
    AnswerExplained(s, g);
  }

  lemma RecordedIsEstablished(s: State, c: nat, name: string)
    requires Reachable(s) && (c, name) in s.sh.watches
    ensures s.sh.established[(c, name)] == 1
  {
    ReachableInv(s);
    assert (c, name) in s.sh.established && s.sh.established[(c, name)] <= 1;
  }

  /**
    In every interleaving, Watch returns an error if and only if it has no name, gets no accessor, finds the
    cluster locked, or Watcher.Watch fails; when it returns nil the watch is established on the accessor it got,
    and recorded.
   */
  lemma WatchAnswers(s: State, g: Gid)
    requires Reachable(s) && Returned(s, g) && VisitOf(s, g).call.CallWatch?
    ensures g in s.answers && (s.answers[g].WatchNil? || s.answers[g].WatchError?)
    ensures var v := VisitOf(s, g); var name := v.call.watch;
      && (s.answers[g] == WatchError <==>
            name == "" || (v.first.None? && (v.locked || (v.second.None? && v.failed))) || v.taken || v.refused)
      && (s.answers[g] == WatchNil ==> exists c ::
            (v.first == Some(c) || v.second == Some(c) || v.stored == Some(c))
            && (c, name) in s.sh.watches && s.sh.established[(c, name)] == 1)
  {
    AnswerExplained(s, g);
    var v := VisitOf(s, g);
    if s.answers[g].WatchNil? {
      var c := Found(v).value;
      RecordedIsEstablished(s, c, v.call.watch);
      assert v.first == Some(c) || v.second == Some(c) || v.stored == Some(c);
    }
  }

  /** An accessor that is there is found under the lock, too: the watch goes on with it. */
  lemma SecondLoadDelivers(s: State, g: Gid, k: ObjectKey, name: string)
    requires PcOf(s, g) == LoadAgain(k, Watch(name)) && k in s.sh.accessors
    ensures Next(s, Go(g, Advance)).Some? && Next(Next(s, Go(g, Advance)).value, Go(g, Advance)).Some?
    ensures var s2 := Next(Next(s, Go(g, Advance)).value, Go(g, Advance)).value;
            PcOf(s2, g) == WatchLocking(k, name, s.sh.accessors[k])
  {
  }

  // ------------------------------------------------------------------ what deletes an accessor

  /** The accessor of `k` and its cache are gone, and no other accessor is touched. */
  predicate Gone(s: State, s': State, k: ObjectKey) {
    && s'.sh.accessors == s.sh.accessors - {k}
    && s'.sh.stopped == s.sh.stopped + (if k in s.sh.accessors then {s.sh.accessors[k]} else {})
  }

  /** The cache reconciler, told that a Cluster is gone, deletes its accessor and stops its cache. */
  lemma ReconcilerDeletes(s: State, g: Gid, k: ObjectKey, a: Action)
    requires PcOf(s, g) == Deleting(k) && Next(s, Go(g, a)).Some?
    ensures Gone(s, Next(s, Go(g, a)).value, k) && PcOf(Next(s, Go(g, a)).value, g).Idle?
  {
  }

  lemma ReconcilerStarts(s: State, g: Gid, k: ObjectKey)
    requires g.Caller? && PcOf(s, g).Idle?
    ensures Next(s, Go(g, CallDelete(k))).Some? && PcOf(Next(s, Go(g, CallDelete(k))).value, g) == Deleting(k)
  {
  }

  /** The last step of a health checker does the same. */
  lemma CheckerDeletes(s: State, c: nat, a: Action)
    requires PcOf(s, Checker(c)).FinalDeleting? && Next(s, Go(Checker(c), a)).Some?
    ensures var s' := Next(s, Go(Checker(c), a)).value; var k := PcOf(s, Checker(c)).k;
            Gone(s, s', k) && PcOf(s', Checker(c)) == Exited(k)
  {
  }

  // ------------------------------------------------------------------ a checker is the polling loop

  /** The poll that a step of the checker of `c` completes, if it completes one. */
  function PollOf(s: State, step: Step, c: nat): Option<HealthCheck.Poll> {
    if !step.Go? || step.g != Checker(c) then None
    else match PcOf(s, Checker(c))
      case Polling(_, _) =>
        if step.a.ClusterGone? then Some(HealthCheck.ClusterNotFound)
        else if step.a.ClusterNotReady? then Some(HealthCheck.ClusterNotReady) else None
      case CheckLocking(k, _) => if k in s.sh.locks then Some(HealthCheck.AccessorLocked) else None
      case CheckUnlocking(_) => Some(HealthCheck.AccessorGone)
      case Probing(_, _) => if step.a.Probe? then Some(step.a.result) else None
      case _ => None
  }

  function Add(polls: seq<HealthCheck.Poll>, p: Option<HealthCheck.Poll>): seq<HealthCheck.Poll> {
    if p.Some? then polls + [p.value] else polls
  }

  /** The polls the checker of `c` completes in a run. */
  function Polls(run: seq<Step>, c: nat): seq<HealthCheck.Poll> {
    if run == [] then []
    else
      match Exec(INIT, run[..|run| - 1])
      case None => []
      case Some(s) => Add(Polls(run[..|run| - 1], c), PollOf(s, run[|run| - 1], c))
  }

  /** None of the polls ends the loop. */
  ghost predicate AllGoOn(polls: seq<HealthCheck.Poll>) {
    forall i :: 0 <= i < |polls| ==> !HealthCheck.EndsAt(polls, i, HealthCheck.DEFAULT_UNHEALTHY_THRESHOLD)
  }

  /** The last poll, and no poll before it, ends the loop. */
  ghost predicate LastEnds(polls: seq<HealthCheck.Poll>) {
    && polls != [] && AllGoOn(polls[..|polls| - 1])
    && HealthCheck.EndsAt(polls, |polls| - 1, HealthCheck.DEFAULT_UNHEALTHY_THRESHOLD)
  }

  predicate Counting(pc: Pc) {
    pc.Polling? || pc.CheckLoading? || pc.CheckLocking? || pc.Probing?
  }

  /** A checker is where the polling loop would be after the same polls. */
  ghost predicate Follows(pc: Pc, polls: seq<HealthCheck.Poll>, cancelled: bool) {
    && (Counting(pc) ==> AllGoOn(polls) && pc.count == HealthCheck.CountOver(polls))
    && (pc.CheckUnlocking? ==> AllGoOn(polls))
    && (pc.FinalDeleting? || pc.Exited? ==> LastEnds(polls) || (AllGoOn(polls) && cancelled))
    && (pc.Idle? ==> polls == [])
  }

  /** One more poll. */
  lemma OneMore(polls: seq<HealthCheck.Poll>, p: HealthCheck.Poll)
    requires AllGoOn(polls)
    ensures HealthCheck.CountOver(polls + [p]) == HealthCheck.CountAfter(HealthCheck.CountOver(polls), p)
    ensures if HealthCheck.Outcome(HealthCheck.CountOver(polls + [p]), p, HealthCheck.DEFAULT_UNHEALTHY_THRESHOLD)
               == HealthCheck.KEEP_POLLING
            then AllGoOn(polls + [p]) else LastEnds(polls + [p])
  {
    var more := polls + [p];
    assert more[..|more| - 1] == polls && more[..|more|] == more;
    forall i | 0 <= i < |polls|
      ensures !HealthCheck.EndsAt(more, i, HealthCheck.DEFAULT_UNHEALTHY_THRESHOLD)
    {
      assert more[..i + 1] == polls[..i + 1];
      assert !HealthCheck.EndsAt(polls, i, HealthCheck.DEFAULT_UNHEALTHY_THRESHOLD);
    }
  }

  /** The checker's own steps: those that complete a poll, and the others. */
  lemma PollFollows(s: State, a: Action, c: nat, polls: seq<HealthCheck.Poll>)
    requires Follows(PcOf(s, Checker(c)), polls, c in s.sh.cancelled) && Next(s, Go(Checker(c), a)).Some?
    requires PollOf(s, Go(Checker(c), a), c).Some? && !PcOf(s, Checker(c)).Idle?
    ensures var s' := Next(s, Go(Checker(c), a)).value;
            Follows(PcOf(s', Checker(c)), polls + [PollOf(s, Go(Checker(c), a), c).value], c in s'.sh.cancelled)
  {
    OneMore(polls, PollOf(s, Go(Checker(c), a), c).value);
  }

  lemma CancelledStays(sh: Shared, g: Gid, e: Effect)
    ensures sh.cancelled <= Do(sh, g, e).cancelled
  {
  }

  lemma NoPollFollows(s: State, a: Action, c: nat, polls: seq<HealthCheck.Poll>)
    requires TypedPc(s.sh, Checker(c), PcOf(s, Checker(c))) && PollOf(s, Go(Checker(c), a), c).None?
    requires Follows(PcOf(s, Checker(c)), polls, c in s.sh.cancelled) && Next(s, Go(Checker(c), a)).Some?
    ensures var s' := Next(s, Go(Checker(c), a)).value; Follows(PcOf(s', Checker(c)), polls, c in s'.sh.cancelled)
  {
    CancelledStays(s.sh, Checker(c), MoveOf(s.sh, Checker(c), PcOf(s, Checker(c)), a).value.effect);
  }

  lemma StartedWasIdle(s: State, g: Gid, a: Action)
    requires Inv(s) && MoveOf(s.sh, g, PcOf(s, g), a).Some?
    ensures var e := MoveOf(s.sh, g, PcOf(s, g), a).value.effect; e.StartChecker? ==> PcOf(s, Checker(e.c)).Idle?
  {
    var e := MoveOf(s.sh, g, PcOf(s, g), a).value.effect;
    if e.StartChecker? {
      AllowedMove(s.sh, g, PcOf(s, g), a);
      assert ViewsOf(s)(g).builds == Unchecked(e.c);
      assert ViewsOf(s)(Checker(e.c)) == ABSENT;
      assert TypedPc(s.sh, Checker(e.c), PcOf(s, Checker(e.c)));
    }
  }

  /** Steps of others start the checker or leave it where it is. */
  lemma OtherFollows(s: State, step: Step, c: nat, polls: seq<HealthCheck.Poll>)
    requires Inv(s) && Next(s, step).Some? && (step.Go? ==> step.g != Checker(c))
    requires Follows(PcOf(s, Checker(c)), polls, c in s.sh.cancelled)
    ensures var s' := Next(s, step).value; Follows(PcOf(s', Checker(c)), polls, c in s'.sh.cancelled)
  {
    if step.Go? {
      var e := MoveOf(s.sh, step.g, PcOf(s, step.g), step.a).value.effect;
      CancelledStays(s.sh, step.g, e);
      if e.StartChecker? && e.c == c {
        StartedWasIdle(s, step.g, step.a);
      }
    }
  }

  ghost predicate At(s: State, c: nat, polls: seq<HealthCheck.Poll>) {
    Follows(PcOf(s, Checker(c)), polls, c in s.sh.cancelled)
  }

  lemma StepFollows(s: State, step: Step, c: nat, polls: seq<HealthCheck.Poll>)
    requires Reachable(s) && Next(s, step).Some? && At(s, c, polls)
    ensures At(Next(s, step).value, c, Add(polls, PollOf(s, step, c)))
  {
    ReachableInv(s);
    if step.Go? && step.g == Checker(c) {
      assert TypedPc(s.sh, Checker(c), PcOf(s, Checker(c)));
      if PollOf(s, step, c).Some? {
        PollFollows(s, step.a, c, polls);
      } else {
        NoPollFollows(s, step.a, c, polls);
      }
    } else {
      OtherFollows(s, step, c, polls);
    }
  }

  /**
    In every interleaving a health checker is the polling loop of its own polls: while it goes on, none of them
    ends the loop and its counter is the loop's; it comes to its last deleteAccessor at the first poll that ends
    the loop (an unauthorized probe, the tenth failed probe in a row, the Cluster or the accessor gone), or with
    the context of its cache done, and not otherwise.
   */
  lemma {:induction false} CheckerFollows(run: seq<Step>, c: nat)
    requires Exec(INIT, run).Some?
    ensures At(Exec(INIT, run).value, c, Polls(run, c))
  {
    if run == [] {
    } else {
      var front := run[..|run| - 1];
      CheckerFollows(front, c);
      assert Reachable(Exec(INIT, front).value);
      StepFollows(Exec(INIT, front).value, run[|run| - 1], c, Polls(front, c));
    }
  }

  /** A poll probes the cluster if and only if it finds the accessor in the map; it then leaves for the mutex. */
  lemma ProbesIffLoaded(s: State, c: nat)
    requires Reachable(s) && PcOf(s, Checker(c)).CheckLoading?
    ensures Next(s, Go(Checker(c), Advance)).Some?
    ensures var pc := PcOf(s, Checker(c)); var pc' := PcOf(Next(s, Go(Checker(c), Advance)).value, Checker(c));
      && (pc'.Probing? <==> pc.k in s.sh.accessors) && (pc'.CheckLocking? <==> pc.k !in s.sh.accessors)
  {
  }

  /** An unauthorized probe ends the checker, and so does a failed one exactly when it is the tenth in a row. */
  lemma ProbeEndsIff(run: seq<Step>, c: nat, p: HealthCheck.Poll)
    requires Exec(INIT, run).Some? && PcOf(Exec(INIT, run).value, Checker(c)).Probing?
    requires p.ProbeOk? || p.ProbeError? || p.ProbeUnauthorized?
    ensures var s := Exec(INIT, run).value;
      && Next(s, Go(Checker(c), Probe(p))).Some?
      && (PcOf(Next(s, Go(Checker(c), Probe(p))).value, Checker(c)).FinalDeleting? <==>
            p.ProbeUnauthorized? || (p.ProbeError? && |HealthCheck.UnhealedFailures(Polls(run, c))| >= 9))
  {
    CheckerFollows(run, c);
    HealthCheck.CounterCountsUnhealedFailures(Polls(run, c));
  }

  /** A polling checker whose Cluster is ready looks for the accessor; one whose context is done can end. */
  lemma PollingGoesOn(s: State, c: nat)
    requires Reachable(s) && PcOf(s, Checker(c)).Polling?
    ensures var pc := PcOf(s, Checker(c));
      && Next(s, Go(Checker(c), ClusterReady)).Some?
      && PcOf(Next(s, Go(Checker(c), ClusterReady)).value, Checker(c)) == CheckLoading(pc.k, pc.count)
      && (Next(s, Go(Checker(c), ContextDone)).Some? <==> c in s.sh.cancelled)
      && (c in s.sh.cancelled ==>
            PcOf(Next(s, Go(Checker(c), ContextDone)).value, Checker(c)) == FinalDeleting(pc.k))
  {
  }
}
