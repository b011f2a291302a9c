/** Pods of a batch Job as the controller sees them, and how they may change (restart policy Never). */
module Pods {

  datatype Phase = PodPending | PodRunning | PodSucceeded | PodFailed

  datatype ContainerState = Waiting(reason: string) | Started | Terminated(exitCode: int)

  // `claimed` records that the pod's claimer has been handed its message; it is not a status field.
  datatype Pod = Pod(phase: Phase, containers: seq<ContainerState>, initContainers: seq<ContainerState>, claimed: bool)

  const NEW_POD := Pod(PodPending, [], [], false)

  // ---------------------------------------------------------------- what the checks are for

  // A running pod, one of whose main containers has terminated with an error.
  predicate HasCrashed(p: Pod) {
    && p.phase.PodRunning?
    && exists i :: 0 <= i < |p.containers| && p.containers[i].Terminated? && p.containers[i].exitCode != 0
  }

  predicate IsStartFailure(reason: string) {
    || reason == "ImagePullBackOff" || reason == "ErrImagePull" || reason == "InvalidImageName"
    || reason == "RegistryUnavailable" || reason == "CreateContainerConfigError" || reason == "CreateContainerError"
    || reason == "CrashLoopBackOff"
  }

  predicate HasStuck(cs: seq<ContainerState>) {
    exists i :: 0 <= i < |cs| && cs[i].Waiting? && IsStartFailure(cs[i].reason)
  }

  // A container of either kind waits for something that will not come.
  predicate CannotStart(p: Pod) {
    HasStuck(p.containers) || HasStuck(p.initContainers)
  }

  // A pod whose message the reclaimer must leave alone.
  predicate Alive(p: Pod) {
    (p.phase.PodPending? || p.phase.PodRunning?) && !HasCrashed(p)
  }

  predicate ShowsFailure(p: Pod) {
    p.phase.PodFailed? || CannotStart(p) || HasCrashed(p)
  }

  // ---------------------------------------------------------------- the checks

  method DetectContainerCrash(p: Pod) returns (crashed: bool)
    ensures crashed <==> HasCrashed(p)
  {
    if !p.phase.PodRunning? {
      return false;
    }
    for i := 0 to |p.containers|
      invariant forall k :: 0 <= k < i && p.containers[k].Terminated? ==> p.containers[k].exitCode == 0
    {
      if p.containers[i].Terminated? && p.containers[i].exitCode != 0 {
        return true;
      }
    }
    crashed := false;
  }

  method DetectContainerStartFailure(cs: seq<ContainerState>) returns (failing: bool)
    ensures failing <==> HasStuck(cs)
  {
    for i := 0 to |cs|
      invariant forall k :: 0 <= k < i && cs[k].Waiting? ==> !IsStartFailure(cs[k].reason)
    {
      if !cs[i].Waiting? {
        continue;
      }
      var reason := cs[i].reason;
      if reason in ["ImagePullBackOff", "ErrImagePull", "InvalidImageName", "RegistryUnavailable"] {
        return true;
      } else if reason in ["CreateContainerConfigError", "CreateContainerError"] {
        return true;
      } else if reason == "CrashLoopBackOff" {
        return true;
      }
    }
    failing := false;
  }

  method DetectPodStartFailure(p: Pod) returns (failing: bool)
    ensures failing <==> CannotStart(p)
  {
    failing := DetectContainerStartFailure(p.containers);
    if !failing {
      failing := DetectContainerStartFailure(p.initContainers);
    }
  }

  // ---------------------------------------------------------------- how a pod may change

  // Terminated containers are not restarted; a finished pod keeps its phase; main containers run only
  // once the claimer is done; a pod succeeds only if none of its containers exited with an error.
  predicate MayBecome(p: Pod, q: Pod) {
    && q.claimed == p.claimed
    && (p.phase.PodRunning? ==> !q.phase.PodPending?)
    && (p.phase.PodSucceeded? || p.phase.PodFailed? ==> q.phase == p.phase)
    && (q.phase.PodRunning? || q.phase.PodSucceeded? ==> p.claimed)
    && (q.phase.PodSucceeded? ==>
          forall i :: 0 <= i < |q.containers| && q.containers[i].Terminated? ==> q.containers[i].exitCode == 0)
    && |p.containers| <= |q.containers|
    && (forall i :: 0 <= i < |p.containers| && p.containers[i].Terminated? ==> q.containers[i] == p.containers[i])
  }

  /** Once the reclaimer would not protect a pod's message, it never has to again. */
  lemma NotAliveIsStable(p: Pod, q: Pod)
    requires !Alive(p) && MayBecome(p, q)
    ensures !Alive(q)
  {
    if p.phase.PodRunning? {
      var i :| 0 <= i < |p.containers| && p.containers[i].Terminated? && p.containers[i].exitCode != 0;
      assert q.containers[i] == p.containers[i];
    }
  }
}
