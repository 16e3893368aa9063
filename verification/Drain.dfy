/**
  Draining the node of an evacuated VMI before deleting the VMI, with a persisted deadline
  (cluster-api-provider-kubevirt/pkg/kubevirt/machine.go, DrainNodeIfNeeded and what it calls).

  Times are in nanoseconds. The deadline is kept in an annotation in the text form of section 5.6 of
  RFC 3339, which has whole seconds.
 */
module Drain {
  import opened Common

  const SECOND: int := 1_000_000_000
  const MILLISECOND: int := 1_000_000
  const GRACE_SECONDS: int := 600

  datatype EvictionStrategy = External | LiveMigrate | LiveMigrateIfPossible | NoEviction

  datatype Vmi = Vmi(deleting: bool, evictionStrategy: Option<EvictionStrategy>, evacuationNode: string)

  /** The annotation text: an RFC 3339 time, or something time.Parse rejects. */
  datatype Stamp = Time(ns: int) | Malformed(text: string)

  /** Text form of a time: fractions of a second are dropped. */
  function Format(ns: int): Stamp {
    Time(ns / SECOND * SECOND)
  }

  datatype DrainResult = ClientError | NodeGone | NodeError | CordonFailed | DrainFailed | Drained

  /** What one call of DrainNodeIfNeeded meets: the VMI, the clock and the outcomes of its API calls. */
  datatype Env = Env(
    vmi: Option<Vmi>,
    now: int,             // time.Now() in the deadline check
    setOk: bool,          // the merge patch that writes the annotation
    drain: DrainResult,
    deleteAt: int,        // when the VMI delete request is sent
    deleteOk: bool,
    removeOk: bool)       // the JSON patch that removes the annotation, if it is applicable

  predicate ShouldGracefulDelete(vmi: Vmi) {
    !vmi.deleting && vmi.evictionStrategy == Some(External) && vmi.evacuationNode != ""
  }

  predicate Evacuating(env: Env) {
    env.vmi.Some? && ShouldGracefulDelete(env.vmi.value)
  }

  /** One call: what it returns, the annotation it leaves, and what it did. */
  datatype Call = Call(
    retry: int,
    failed: bool,
    annotation: Option<Stamp>,
    wroteAt: Option<int>,     // the deadline was written, at this time
    tried: bool,              // the node drain was attempted
    deletedAt: Option<int>,   // the VMI was deleted, at this time
    removes: seq<bool>)       // for each `remove` patch sent, whether the annotation was there

  const NOTHING := Call(0, false, None, None, false, None, [])

  /** The deadline a call goes by: the one it finds, or else the one it writes. */
  function Deadline(a: Option<Stamp>, env: Env): Stamp {
    if a.Some? && a.value.Time? then a.value else Format(env.now + GRACE_SECONDS * SECOND)
  }

  /** The call has to write the deadline: there is none, or it cannot be read. */
  predicate MustWrite(a: Option<Stamp>) {
    a.None? || a.value.Malformed?
  }

  predicate Exceeded(a: Option<Stamp>, env: Env) {
    a.Some? && a.value.Time? && env.now > a.value.ns
  }

  /** The drain reports that nothing is left on the node, or that the node is gone. */
  predicate NodeEmpty(r: DrainResult) {
    r.Drained? || r.NodeGone?
  }

  /**
    The JSON patch `remove` is sent: section 4.2 of RFC 6902 has it fail unless its target exists. The record
    says whether it did.
   */
  function SendRemove(c: Call, env: Env, retry: int): Call {
    var there := c.annotation.Some?;
    var sent := c.(removes := c.removes + [there]);
    if there && env.removeOk then sent.(retry := retry, annotation := None)
    else sent.(retry := 100 * MILLISECOND, failed := true)
  }

  /** DrainNodeIfNeeded as a decision table over what it meets. */
  function DrainCall(a: Option<Stamp>, env: Env): Call {
    if !Evacuating(env) then
      if a.None? then NOTHING else SendRemove(NOTHING.(annotation := a), env, 0)
    else if MustWrite(a) && !env.setOk then NOTHING.(failed := true, annotation := a)
    else
      var started := NOTHING.(annotation := Some(Deadline(a, env)),
                              wroteAt := if MustWrite(a) then Some(env.now) else None,
                              tried := !Exceeded(a, env));
      if started.tried && !NodeEmpty(env.drain) then
        if env.drain.DrainFailed? then started.(retry := SECOND) else started.(failed := true)
      else if !env.deleteOk then started.(failed := true)
      else SendRemove(started.(deletedAt := Some(env.deleteAt)), env, 10 * SECOND)
  }

  /** The call sent a `remove` and it was applied. */
  predicate WentThrough(call: Call, env: Env) {
    call.removes != [] && env.removeOk
  }

  // ------------------------------------------------------------------ the code

  /** The machine helper, with the annotation it patches and a record of what it did. */
  class Machine {
    var annotation: Option<Stamp>
    var wroteAt: Option<int>
    var tried: bool
    var deletedAt: Option<int>
    var removes: seq<bool>

    constructor (annotation: Option<Stamp>)
      ensures this.annotation == annotation
      ensures wroteAt == None && !tried && deletedAt == None && removes == []
    {
      this.annotation := annotation;
      wroteAt, tried, deletedAt, removes := None, false, None, [];
    }

    /** shouldGracefulDeleteVMI, with its early returns. */
    method ShouldGracefulDeleteVmi(vmi: Vmi) returns (graceful: bool)
      ensures graceful == ShouldGracefulDelete(vmi)
      ensures graceful <==> !vmi.deleting && vmi.evictionStrategy == Some(External) && |vmi.evacuationNode| > 0
    {
      if vmi.deleting {
        return false;
      }
      if vmi.evictionStrategy.None? || vmi.evictionStrategy.value != External {
        return false;
      }
      if |vmi.evacuationNode| == 0 {
        return false;
      }
      return true;
    }

    /** A JSON patch `remove` fails unless its target exists, section 4.2 of RFC 6902. */
    method RemoveGracePeriodAnnotation(env: Env) returns (failed: bool)
      modifies this`annotation, this`removes
      ensures removes == old(removes) + [old(annotation).Some?]
      ensures failed <==> !(env.removeOk && old(annotation).Some?)
      ensures annotation == if failed then old(annotation) else None
    {
      removes := removes + [annotation.Some?];
      if env.removeOk && annotation.Some? {
        annotation := None;
        return false;
      }
      return true;
    }

    method SetVmiDeletionGraceTime(env: Env) returns (failed: bool)
      modifies this`annotation, this`wroteAt
      ensures failed <==> !env.setOk
      ensures failed ==> annotation == old(annotation) && wroteAt == old(wroteAt)
      ensures !failed ==> annotation == Some(Format(env.now + GRACE_SECONDS * SECOND)) && wroteAt == Some(env.now)
    {
      var graceTime := Format(env.now + GRACE_SECONDS * SECOND);
      if !env.setOk {
        return true;
      }
      annotation := Some(graceTime);
      wroteAt := Some(env.now);
      return false;
    }

    method DrainGracePeriodExceeded(env: Env) returns (exceeded: bool, failed: bool)
      modifies this`annotation, this`wroteAt
      ensures failed <==> MustWrite(old(annotation)) && !env.setOk
      ensures exceeded <==> Exceeded(old(annotation), env)
      ensures failed ==> annotation == old(annotation) && wroteAt == old(wroteAt)
      ensures !failed ==> annotation == Some(Deadline(old(annotation), env))
      ensures !failed ==> wroteAt == if MustWrite(old(annotation)) then Some(env.now) else old(wroteAt)
    {
      if annotation.Some? {
        if annotation.value.Malformed? {
          failed := SetVmiDeletionGraceTime(env);
          if failed {
            return false, true;
          }
        } else {
          return env.now > annotation.value.ns, false;
        }
      } else {
        failed := SetVmiDeletionGraceTime(env);
        if failed {
          return false, true;
        }
      }
      return false, false;
    }

    method DrainNode(env: Env) returns (retry: int, failed: bool)
      modifies this`tried
      ensures tried
      ensures failed <==> env.drain.ClientError? || env.drain.NodeError? || env.drain.CordonFailed?
      ensures retry == if env.drain.DrainFailed? then SECOND else 0
    {
      tried := true;
      match env.drain {
        case ClientError => return 0, true;
        case NodeGone => return 0, false;
        case NodeError => return 0, true;
        case CordonFailed => return 0, true;
        case DrainFailed => return SECOND, false;
        case Drained => return 0, false;
      }
    }

    method DrainNodeIfNeeded(env: Env) returns (retry: int, failed: bool)
      requires wroteAt == None && !tried && deletedAt == None && removes == []
      modifies this
      ensures Call(retry, failed, annotation, wroteAt, tried, deletedAt, removes) == DrainCall(old(annotation), env)
    {
      var graceful := false;
      if env.vmi.Some? {
        graceful := ShouldGracefulDeleteVmi(env.vmi.value);
      }
      if !graceful {
        if annotation.Some? {
          failed := RemoveGracePeriodAnnotation(env);
          if failed {
            return 100 * MILLISECOND, true;
          }
        }
        return 0, false;
      }

      var exceeded;
      exceeded, failed := DrainGracePeriodExceeded(env);
      if failed {
        return 0, true;
      }

      if !exceeded {
        retry, failed := DrainNode(env);
        if failed {
          return 0, true;
        }
        if retry > 0 {
          return retry, false;
        }
      }

      if !env.deleteOk {
        return 0, true;
      }
      deletedAt := Some(env.deleteAt);

      failed := RemoveGracePeriodAnnotation(env);
      if failed {
        return 100 * MILLISECOND, true;
      }
      return 10 * SECOND, false;
    }
  }

  // ------------------------------------------------------------------ one call

  /**
    A `remove` finds the annotation: on the deletion path because the deadline check has found it, or has
    written it where it was missing or could not be read.
   */
  lemma RemoveFindsAnnotation(a: Option<Stamp>, env: Env)
    ensures var call := DrainCall(a, env);
      && (call.removes == [] || call.removes == [true])
      && (call.deletedAt.Some? ==> call.removes == [true] && (MustWrite(a) <==> call.wroteAt.Some?))
  {
  }

  /** While the VMI stays evacuating, only a `remove` that goes through ends a readable deadline. */
  lemma DeadlineStays(a: Option<Stamp>, env: Env)
    requires Evacuating(env) && !MustWrite(a)
    ensures DrainCall(a, env).annotation == if WentThrough(DrainCall(a, env), env) then None else a
    ensures DrainCall(a, env).wroteAt == None
  {
  }

  /** The call comes to the end without a request failing. */
  predicate Succeeds(a: Option<Stamp>, env: Env) {
    if !Evacuating(env) then a.None? || env.removeOk
    else
      && (MustWrite(a) ==> env.setOk)
      && (Exceeded(a, env) || env.drain.NodeGone? || env.drain.Drained? || env.drain.DrainFailed?)
      && (Exceeded(a, env) || !env.drain.DrainFailed? ==> env.deleteOk && env.removeOk)
  }

  /**
    A call fails exactly when a request of it fails. Otherwise it lets the caller go on exactly when there is
    nothing to drain, asks for another try in a second while the node is not empty, and after the deletion of
    the VMI asks for ten seconds, so that the VMI is read again.
   */
  lemma CallOutcome(a: Option<Stamp>, env: Env)
    ensures var call := DrainCall(a, env);
      && (call.failed <==> !Succeeds(a, env))
      && (!call.failed ==> (call.retry == 0 <==> !Evacuating(env)))
      && (!call.failed ==> (call.retry == SECOND <==> call.tried && call.deletedAt.None?))
      && (!call.failed ==> (call.retry == 10 * SECOND <==> call.deletedAt.Some?))
      && (call.deletedAt.Some? ==> Evacuating(env) && call.deletedAt.value == env.deleteAt && env.deleteOk)
      && (call.failed ==> call.retry == if call.removes != [] then 100 * MILLISECOND else 0)
  {
  }

  /** An attempt to drain is made exactly when the VMI is evacuating, the deadline stands in place, and is not over. */
  lemma TriedIff(a: Option<Stamp>, env: Env)
    ensures DrainCall(a, env).tried <==> Evacuating(env) && (if MustWrite(a) then env.setOk else env.now <= a.value.ns)
  {
  }

  /** After deleting the VMI the deadline is gone exactly when the `remove` patch went through. */
  lemma DeletionClearsDeadline(a: Option<Stamp>, env: Env)
    requires DrainCall(a, env).deletedAt.Some?
    ensures DrainCall(a, env).annotation == None <==> env.removeOk
    ensures !env.removeOk ==> DrainCall(a, env).annotation == Some(Deadline(a, env))
  {
  }

  /** A call deletes the VMI without an attempt to drain exactly when it finds a deadline that has passed. */
  lemma UndrainedIff(a: Option<Stamp>, env: Env)
    ensures DrainCall(a, env).deletedAt.Some? && !DrainCall(a, env).tried
       <==> Evacuating(env) && Exceeded(a, env) && env.deleteOk
  {
  }

  /**
    A deadline that outlives its VMI this way also rules the next one: an evacuation of a new VMI after it
    is followed by deletion without a single attempt to drain.
   */
  lemma StaleDeadlineSkipsDrain(a: Option<Stamp>, env: Env, next: Env)
    requires DrainCall(a, env).deletedAt.Some? && !env.removeOk
    requires Evacuating(next) && next.now > Deadline(a, env).ns && next.deleteOk
    ensures var second := DrainCall(DrainCall(a, env).annotation, next);
            !second.tried && second.deletedAt == Some(next.deleteAt)
  {
    DeletionClearsDeadline(a, env);
    UndrainedIff(DrainCall(a, env).annotation, next);
  }

  // ------------------------------------------------------------------ runs of calls

  /** The clock does not go back. */
  predicate Ordered(run: seq<Env>) {
    && (forall i :: 0 <= i < |run| ==> run[i].now <= run[i].deleteAt)
    && (forall i :: 0 <= i < |run| - 1 ==> run[i].deleteAt <= run[i + 1].now)
  }

  /** The annotation, and when it was last written. */
  datatype Kept = Kept(annotation: Option<Stamp>, writtenAt: Option<int>)

  function Keep(k: Kept, env: Env): Kept {
    var call := DrainCall(k.annotation, env);
    Kept(call.annotation, if call.wroteAt.Some? then call.wroteAt else k.writtenAt)
  }

  function From(k: Kept, run: seq<Env>): Kept {
    if run == [] then k else Keep(From(k, run[..|run| - 1]), run[|run| - 1])
  }

  /** After a run of calls that starts without an annotation. */
  function After(run: seq<Env>): Kept {
    From(Kept(None, None), run)
  }

  /** What a run of calls makes of annotation `a`. */
  function Through(a: Option<Stamp>, run: seq<Env>): Option<Stamp> {
    From(Kept(a, None), run).annotation
  }

  /** Call `i` of a run that starts with annotation `a`. */
  function CallIn(a: Option<Stamp>, run: seq<Env>, i: nat): Call
    requires i < |run|
  {
    DrainCall(Through(a, run[..i]), run[i])
  }

  /** All `remove` patches of a run, and whether each found its target. */
  function RemovesIn(a: Option<Stamp>, run: seq<Env>): seq<bool> {
    if run == [] then [] else RemovesIn(a, run[..|run| - 1]) + CallIn(a, run, |run| - 1).removes
  }

  /**
    Over every run, whatever is in the annotation at first, each `remove` patch is sent while the annotation is
    there; a call that deletes the VMI sends exactly one.
   */
  lemma {:induction false} RemoveIsApplicable(a: Option<Stamp>, run: seq<Env>)
    ensures forall r :: r in RemovesIn(a, run) ==> r
    ensures forall i :: 0 <= i < |run| && CallIn(a, run, i).deletedAt.Some? ==> CallIn(a, run, i).removes == [true]
  {
    if run == [] {
    } else {
      RemoveIsApplicable(a, run[..|run| - 1]);
      forall i | 0 <= i < |run| && CallIn(a, run, i).deletedAt.Some? ensures CallIn(a, run, i).removes == [true] {
        RemoveFindsAnnotation(Through(a, run[..i]), run[i]);
      }
      RemoveFindsAnnotation(Through(a, run[..|run| - 1]), run[|run| - 1]);
    }
  }

  lemma CallInFront(a: Option<Stamp>, run: seq<Env>, j: nat)
    requires run != [] && j < |run| - 1
    ensures CallIn(a, run[..|run| - 1], j) == CallIn(a, run, j)
  {
    assert run[..|run| - 1][..j] == run[..j];
  }

  /**
    While the VMI stays evacuating and no `remove` goes through (so in particular while it is not deleted),
    any number of calls leave a readable deadline exactly as it is and write no other.
   */
  lemma {:induction false} DeadlineNeverMoves(deadline: int, run: seq<Env>)
    requires forall i :: 0 <= i < |run| ==>
      Evacuating(run[i]) && !WentThrough(CallIn(Some(Time(deadline)), run, i), run[i])
    ensures From(Kept(Some(Time(deadline)), None), run) == Kept(Some(Time(deadline)), None)
  {
    if run == [] {
    } else {
      var front := run[..|run| - 1];
      forall i | 0 <= i < |front|
        ensures Evacuating(front[i]) && !WentThrough(CallIn(Some(Time(deadline)), front, i), front[i])
      {
        CallInFront(Some(Time(deadline)), run, i);
        assert Evacuating(run[i]) && !WentThrough(CallIn(Some(Time(deadline)), run, i), run[i]);
      }
      DeadlineNeverMoves(deadline, front);
      assert !WentThrough(CallIn(Some(Time(deadline)), run, |run| - 1), run[|run| - 1]);
      DeadlineStays(Some(Time(deadline)), run[|run| - 1]);
    }
  }

  // ------------------------------------------------------------------ deadlines that are left behind

  /** Call `i` of a run that starts without annotation wrote the deadline. */
  predicate WritesAt(run: seq<Env>, i: nat) {
    i < |run| && CallIn(None, run, i).wroteAt.Some?
  }

  /** Call `i` of it sent a `remove` that was applied. */
  predicate RemovesAt(run: seq<Env>, i: nat) {
    i < |run| && WentThrough(CallIn(None, run, i), run[i])
  }

  /** Call `i` wrote the deadline, and no `remove` has gone through from then on. */
  predicate Standing(run: seq<Env>, i: nat) {
    WritesAt(run, i) && forall j: nat :: i <= j < |run| ==> !RemovesAt(run, j)
  }

  lemma InFront(run: seq<Env>, i: nat)
    requires run != [] && i < |run| - 1
    ensures WritesAt(run[..|run| - 1], i) == WritesAt(run, i) && RemovesAt(run[..|run| - 1], i) == RemovesAt(run, i)
  {
    CallInFront(None, run, i);
  }

  lemma StoodInFront(run: seq<Env>, i: nat)
    requires run != [] && i < |run| - 1 && Standing(run, i)
    ensures Standing(run[..|run| - 1], i) && !RemovesAt(run, |run| - 1)
  {
    var front := run[..|run| - 1];
    InFront(run, i);
    forall j: nat | i <= j < |front| ensures !RemovesAt(front, j) {
      InFront(run, j);
    }
  }

  lemma StillStanding(run: seq<Env>, i: nat)
    requires run != [] && i < |run| - 1 && Standing(run[..|run| - 1], i) && !RemovesAt(run, |run| - 1)
    ensures Standing(run, i)
  {
    InFront(run, i);
    forall j: nat | i <= j < |run| ensures !RemovesAt(run, j) {
      if j < |run| - 1 {
        InFront(run, j);
      }
    }
  }

  /** A call that removes nothing leaves a readable deadline, and leaves the one it writes. */
  lemma ReadableStays(a: Option<Stamp>, env: Env)
    requires !MustWrite(a) && !WentThrough(DrainCall(a, env), env)
    ensures DrainCall(a, env).annotation == a
  {
  }

  lemma WriteStays(a: Option<Stamp>, env: Env)
    requires DrainCall(a, env).wroteAt.Some? && !WentThrough(DrainCall(a, env), env)
    ensures DrainCall(a, env).annotation == Some(Format(env.now + GRACE_SECONDS * SECOND))
  {
  }

  /** The annotation holds what the standing write put there. */
  lemma {:induction false} StandingHolds(run: seq<Env>, i: nat)
    requires Standing(run, i)
    ensures After(run).annotation == Some(Format(run[i].now + GRACE_SECONDS * SECOND))
  {
    var front, last := run[..|run| - 1], run[|run| - 1];
    assert !RemovesAt(run, |run| - 1);
    if i == |front| {
      WriteStays(After(front).annotation, last);
    } else {
      StoodInFront(run, i);
      StandingHolds(front, i);
      ReadableStays(After(front).annotation, last);
    }
  }

  /** An annotation after a call was there, or was written, and was not removed. */
  lemma AnnotationStep(a: Option<Stamp>, env: Env)
    requires DrainCall(a, env).annotation.Some?
    ensures !WentThrough(DrainCall(a, env), env)
    ensures a.None? ==> DrainCall(a, env).wroteAt.Some?
  {
  }

  lemma {:induction false} StandingWrite(run: seq<Env>) returns (i: nat)
    requires After(run).annotation.Some?
    ensures Standing(run, i)
  {
    var front, last := run[..|run| - 1], run[|run| - 1];
    AnnotationStep(After(front).annotation, last);
    assert !RemovesAt(run, |run| - 1);
    if After(front).annotation.Some? {
      i := StandingWrite(front);
      StandingHolds(front, i);
      StillStanding(run, i);
    } else {
      i := |run| - 1;
    }
  }

  /** A deadline is left behind exactly when some call wrote it and no `remove` has gone through since. */
  lemma LeftBehindIff(run: seq<Env>)
    ensures After(run).annotation.Some? <==> exists i: nat :: Standing(run, i)
  {
    if After(run).annotation.Some? {
      var i := StandingWrite(run);
    }
    if i: nat :| Standing(run, i) {
      StandingHolds(run, i);
    }
  }

  /** At `now` the deadline that call `i` wrote, and that still stands, has passed. */
  predicate Overdue(run: seq<Env>, i: nat, now: int) {
    Standing(run, i) && now > Format(run[i].now + GRACE_SECONDS * SECOND).ns
  }

  lemma ExceededIff(run: seq<Env>, env: Env)
    ensures Exceeded(After(run).annotation, env) <==> exists i: nat :: Overdue(run, i, env.now)
  {
    if After(run).annotation.Some? {
      var i := StandingWrite(run);
      StandingHolds(run, i);
      assert Exceeded(After(run).annotation, env) <==> Overdue(run, i, env.now);
    }
    if i: nat :| Overdue(run, i, env.now) {
      StandingHolds(run, i);
    }
  }

  /**
    So these evacuations, and no others, are answered by deletion without an attempt to drain: those that meet
    a deadline in the past which some earlier call wrote, for this VMI or for another, and which no call has
    removed since.
   */
  lemma UndrainedRunIff(run: seq<Env>, env: Env)
    ensures var call := DrainCall(After(run).annotation, env);
      (call.deletedAt.Some? && !call.tried) <==>
        Evacuating(env) && env.deleteOk && exists i: nat :: Overdue(run, i, env.now)
  {
    UndrainedIff(After(run).annotation, env);
    ExceededIff(run, env);
  }

  // ------------------------------------------------------------------ the grace period

  /** With no other writer, what the annotation holds is the text form of the last write plus ten minutes. */
  lemma {:induction false} AnnotationIsLastWrite(run: seq<Env>)
    ensures After(run).annotation.Some? ==>
              && After(run).writtenAt.Some?
              && After(run).annotation == Some(Format(After(run).writtenAt.value + GRACE_SECONDS * SECOND))
  {
    if run == [] {
    } else {
      AnnotationIsLastWrite(run[..|run| - 1]);
    }
  }

  /** Dropping fractions costs less than a second. */
  lemma FormatDrops(ns: int)
    ensures ns - SECOND < Format(ns).ns <= ns
  {
  }

  /**
    A VMI the drain path deletes was reported drained (or its node gone) in the same call, or it is deleted
    strictly more than 599 seconds after the deadline was written.
   */
  lemma DeletedDrainedOrLate(run: seq<Env>)
    requires run != [] && Ordered(run)
    requires DrainCall(After(run[..|run| - 1]).annotation, run[|run| - 1]).deletedAt.Some?
    ensures var before := After(run[..|run| - 1]);
            var call := DrainCall(before.annotation, run[|run| - 1]);
            || (call.tried && NodeEmpty(run[|run| - 1].drain))
            || (before.writtenAt.Some? && call.deletedAt.value > before.writtenAt.value + 599 * SECOND)
  {
    var before := After(run[..|run| - 1]);
    AnnotationIsLastWrite(run[..|run| - 1]);
    if before.writtenAt.Some? {
      FormatDrops(before.writtenAt.value + GRACE_SECONDS * SECOND);
    }
  }

  /** The last call of the run deletes the VMI without draining it, `after` the deadline was written. */
  predicate DeletedUndrained(run: seq<Env>, after: int)
    requires run != []
  {
    var before := After(run[..|run| - 1]);
    var call := DrainCall(before.annotation, run[|run| - 1]);
    !call.tried && before.writtenAt.Some? && call.deletedAt == Some(before.writtenAt.value + after)
  }

  /** 599 is the best bound: an undrained VMI can be deleted two nanoseconds after it, well before 600. */
  lemma GraceBoundIsTight(vmi: Vmi)
    requires ShouldGracefulDelete(vmi)
    ensures exists run :: |run| == 2 && Ordered(run) && DeletedUndrained(run, 599 * SECOND + 2)
  {
    var first := Env(Some(vmi), SECOND - 1, true, DrainFailed, SECOND - 1, true, true);
    var second := Env(Some(vmi), 600 * SECOND + 1, true, DrainFailed, 600 * SECOND + 1, true, true);
    var run := [first, second];
    assert run[..1] == [first];
    assert [first][..0] == [];
    assert After([]) == Kept(None, None);
    assert After([first]) == Kept(Some(Time(600 * SECOND)), Some(SECOND - 1));
    assert Ordered(run);
  }

  /** The last write was not later than the last call. */
  lemma {:induction false} WrittenBefore(run: seq<Env>)
    requires run != [] && Ordered(run) && After(run).writtenAt.Some?
    ensures After(run).writtenAt.value <= run[|run| - 1].now
  {
    var front := run[..|run| - 1];
    if front == [] {
      assert After(front) == Kept(None, None);
    } else if After(front).writtenAt.Some? {
      assert run[|front| - 1].deleteAt <= run[|front| - 1 + 1].now;
      WrittenBefore(front);
    }
  }

  /** So a deadline that a run leaves is at most ten minutes ahead of the next call. */
  lemma DeadlineNotFarAhead(run: seq<Env>, next: Env)
    requires Ordered(run + [next])
    ensures !MustWrite(After(run).annotation) ==>
      After(run).annotation.value.ns <= next.now + GRACE_SECONDS * SECOND
  {
    AnnotationIsLastWrite(run);
    if run != [] && After(run).writtenAt.Some? {
      var all := run + [next];
      assert Ordered(run) by {
        assert forall i :: 0 <= i < |run| ==> run[i] == all[i];
      }
      WrittenBefore(run);
      assert all[|run| - 1] == run[|run| - 1] && all[|run| - 1 + 1] == next;
      FormatDrops(After(run).writtenAt.value + GRACE_SECONDS * SECOND);
    }
  }

  /** How many calls of a run try to drain, starting from annotation `a`. */
  function Tries(a: Option<Stamp>, run: seq<Env>): nat
    decreases |run|
  {
    if run == [] then 0
    else
      var call := DrainCall(a, run[0]);
      (if call.tried then 1 else 0) + Tries(call.annotation, run[1..])
  }

  /** What the annotation becomes does not depend on when it was written. */
  lemma {:induction false} AnnotationOnly(k: Kept, k': Kept, run: seq<Env>)
    requires k.annotation == k'.annotation
    ensures From(k, run).annotation == From(k', run).annotation
  {
    if run == [] {
    } else {
      AnnotationOnly(k, k', run[..|run| - 1]);
    }
  }

  lemma {:induction false} FromHead(k: Kept, run: seq<Env>)
    requires run != []
    ensures From(k, run) == From(Keep(k, run[0]), run[1..])
  {
    var front := run[..|run| - 1];
    if front == [] {
      assert From(k, front) == k;
    } else {
      FromHead(k, front);
      assert front[1..] == run[1..][..|run| - 2];
    }
  }

  lemma ThroughOne(a: Option<Stamp>, env: Env)
    ensures Through(a, [env]) == DrainCall(a, env).annotation
  {
    assert [env][..0] == [];
    assert From(Kept(a, None), []) == Kept(a, None);
  }

  /** Runs compose. */
  lemma {:induction false} ThroughAppend(a: Option<Stamp>, run: seq<Env>, more: seq<Env>)
    ensures Through(a, run + more) == Through(Through(a, run), more)
  {
    if more == [] {
      assert run + more == run;
    } else {
      ThroughAppend(a, run, more[..|more| - 1]);
      assert (run + more)[..|run + more| - 1] == run + more[..|more| - 1];
    }
  }

  /** One more call adds its own try. */
  lemma {:induction false} TriesAppend(a: Option<Stamp>, run: seq<Env>, env: Env)
    ensures Tries(a, run + [env]) ==
            Tries(a, run) + if DrainCall(Through(a, run), env).tried then 1 else 0
    decreases |run|
  {
    if run == [] {
      assert (run + [env])[1..] == [];
    } else {
      var a' := DrainCall(a, run[0]).annotation;
      TriesAppend(a', run[1..], env);
      assert (run + [env])[1..] == run[1..] + [env];
      FromHead(Kept(a, None), run);
      AnnotationOnly(Keep(Kept(a, None), run[0]), Kept(a', None), run[1..]);
    }
  }

  /** The same VMI stays evacuating and is not deleted, and calls are at least a second apart. */
  predicate Waiting(a: Option<Stamp>, run: seq<Env>)
    decreases |run|
  {
    run == [] ||
    (&& Evacuating(run[0])
     && DrainCall(a, run[0]).deletedAt.None?
     && (|run| > 1 ==> run[1].now >= run[0].now + SECOND)
     && Waiting(DrainCall(a, run[0]).annotation, run[1..]))
  }

  /** With a deadline in place, at most one try per second is left until it. */
  lemma {:induction false} TriesUntil(deadline: int, run: seq<Env>)
    requires Waiting(Some(Time(deadline)), run) && run != []
    ensures Tries(Some(Time(deadline)), run)
         <= if run[0].now > deadline then 0 else (deadline - run[0].now) / SECOND + 1
  {
    DeadlineStays(Some(Time(deadline)), run[0]);
    if |run| > 1 {
      TriesUntil(deadline, run[1..]);
    }
  }

  /**
    At most 601 drain attempts are made on an evacuating VMI, whatever is in the annotation at first, as
    long as a deadline found there is not further ahead than one this code would write now.
   */
  lemma {:induction false} AtMost601Tries(a: Option<Stamp>, run: seq<Env>)
    requires Waiting(a, run)
    requires run != [] && !MustWrite(a) ==> a.value.ns <= run[0].now + GRACE_SECONDS * SECOND
    ensures Tries(a, run) <= 601
  {
    if run == [] {
    } else {
      if !MustWrite(a) {
        TriesUntil(a.value.ns, run);
      } else if !run[0].setOk {
        AtMost601Tries(a, run[1..]);
      } else if |run| > 1 {
        FormatDrops(run[0].now + GRACE_SECONDS * SECOND);
        TriesUntil(Deadline(a, run[0]).ns, run[1..]);
      }
    }
  }

  function EverySecond(vmi: Vmi, from: nat, n: nat): seq<Env>
    decreases n
  {
    if n == 0 then []
    else
      [Env(Some(vmi), from * SECOND, true, DrainFailed, from * SECOND, true, true)] + EverySecond(vmi, from + 1, n - 1)
  }

  lemma TriesAt(vmi: Vmi, now: int)
    requires ShouldGracefulDelete(vmi) && now <= GRACE_SECONDS * SECOND
    ensures var a := Some(Time(GRACE_SECONDS * SECOND));
            DrainCall(a, Env(Some(vmi), now, true, DrainFailed, now, true, true))
            == Call(SECOND, false, a, None, true, None, [])
  {
  }

  lemma {:induction false} EverySecondTries(vmi: Vmi, from: nat, n: nat)
    requires ShouldGracefulDelete(vmi) && from + n <= 601
    ensures Waiting(Some(Time(GRACE_SECONDS * SECOND)), EverySecond(vmi, from, n))
    ensures Tries(Some(Time(GRACE_SECONDS * SECOND)), EverySecond(vmi, from, n)) == n
    decreases n
  {
    if n == 0 {
    } else {
      EverySecondTries(vmi, from + 1, n - 1);
      TriesAt(vmi, from * SECOND);
      assert EverySecond(vmi, from, n)[1..] == EverySecond(vmi, from + 1, n - 1);
    }
  }

  /** The bound is reached by calls exactly a second apart. */
  lemma TriesBoundIsReached(vmi: Vmi)
    requires ShouldGracefulDelete(vmi)
    ensures Waiting(None, EverySecond(vmi, 0, 601)) && Tries(None, EverySecond(vmi, 0, 601)) == 601
  {
    var run := EverySecond(vmi, 0, 601);
    EverySecondTries(vmi, 1, 600);
    assert run[1..] == EverySecond(vmi, 1, 600);
    assert DrainCall(None, run[0]).annotation == Some(Time(GRACE_SECONDS * SECOND));
    assert run[1] == EverySecond(vmi, 1, 600)[0];
  }

  /** The call after the deadline goes straight to deletion. */
  lemma PastDeadlineDeletes(deadline: int, env: Env)
    requires Evacuating(env) && env.now > deadline
    ensures var call := DrainCall(Some(Time(deadline)), env);
            !call.tried && (call.deletedAt == if env.deleteOk then Some(env.deleteAt) else None)
  {
  }
}
