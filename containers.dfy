/**
 * The harness's process-wide container state: the stack of started containers,
 * which teardown drains, and the host-port counter handed out once per test.
 */
module Containers {
  import opened Wrappers
  import opened Errors

  /** A started container: the id the engine returned and the image it runs. */
  datatype ContainerInfo = ContainerInfo(containerId: string, imageName: string)

  /** `BASE_PORT_NUMBER`. */
  const BasePortNumber: int := 28080

  const ShortMin: int := -32768
  const ShortMax: int := 32767

  predicate IsShort(n: int)
  {
    ShortMin <= n <= ShortMax
  }

  /** `currentPortNumber++` on a Java `short`: one more, wrapping at the top of the range. */
  function NextPort(port: int): (r: int)
    requires IsShort(port)
    ensures IsShort(r)
    ensures port < ShortMax ==> r == port + 1
    ensures port == ShortMax ==> r == ShortMin
  {
    if port == ShortMax then ShortMin else port + 1
  }

  /** The ports `n` successive tests receive when the counter starts at `start`. */
  function Ports(start: int, n: nat): (r: seq<int>)
    requires IsShort(start)
    ensures |r| == n
    decreases n
  {
    if n == 0 then [] else [start] + Ports(NextPort(start), n - 1)
  }

  /** Until the counter reaches the top of the `short` range, the k-th test gets `start + k`. */
  lemma {:induction false} PortsCountUp(start: int, n: nat)
    requires IsShort(start) && start + n - 1 <= ShortMax
    ensures forall k :: 0 <= k < n ==> Ports(start, n)[k] == start + k
    decreases n
  {
    if n > 0 {
      if n > 1 {
        PortsCountUp(start + 1, n - 1);
      }
      var ps := Ports(start, n);
      assert ps[0] == start;
      assert n > 1 ==> ps[1..] == Ports(start + 1, n - 1);
      forall k | 0 <= k < n
        ensures ps[k] == start + k
      {
        if k > 0 {
          assert ps[k] == ps[1..][k - 1];
        }
      }
    }
  }

  /** Successive ports are strictly increasing, hence never repeat, as long as they stay in range. */
  lemma PortsIncreasing(n: nat)
    requires BasePortNumber + n - 1 <= ShortMax
    ensures forall i, j :: 0 <= i < j < n ==> Ports(BasePortNumber, n)[i] < Ports(BasePortNumber, n)[j]
    ensures forall k :: 0 <= k < n ==> Ports(BasePortNumber, n)[k] >= BasePortNumber
  {
    PortsCountUp(BasePortNumber, n);
  }

  /** `lastContainerId()`: the id of the top of the stack; `peek` throws on an empty stack. */
  function LastContainerId(stack: seq<ContainerInfo>): (r: Result<string, Error>)
    ensures r.Failure? <==> stack == []
    ensures r.Failure? ==> r.error == EmptyStack
    ensures r.Success? ==> r.value == stack[|stack| - 1].containerId
  {
    if stack == [] then Failure(EmptyStack) else Success(stack[|stack| - 1].containerId)
  }

  /** The order in which popping drains a stack whose top is its last element. */
  function PopOrder(stack: seq<ContainerInfo>): (r: seq<ContainerInfo>)
    ensures |r| == |stack|
  {
    if stack == [] then [] else [stack[|stack| - 1]] + PopOrder(stack[..|stack| - 1])
  }

  /** Popping a non-empty stack takes its top, then drains the rest. */
  lemma PopOrderUnfold(stack: seq<ContainerInfo>)
    requires stack != []
    ensures PopOrder(stack) == [stack[|stack| - 1]] + PopOrder(stack[..|stack| - 1])
  {
  }

  /** The k-th container popped is the k-th from the top. */
  lemma {:induction false} PopOrderAt(stack: seq<ContainerInfo>, k: nat)
    requires k < |stack|
    ensures PopOrder(stack)[k] == stack[|stack| - 1 - k]
  {
    if k > 0 {
      PopOrderAt(stack[..|stack| - 1], k - 1);
    }
  }

  /** Draining hands every entry to stop exactly as often as it was pushed: no loss, no double stop. */
  lemma {:induction false} PopOrderIsPermutation(stack: seq<ContainerInfo>)
    ensures multiset(PopOrder(stack)) == multiset(stack)
  {
    if stack != [] {
      var init := stack[..|stack| - 1];
      var top := stack[|stack| - 1];
      PopOrderIsPermutation(init);
      PopOrderUnfold(stack);
      assert stack == init + [top];
      calc {
        multiset(PopOrder(stack));
        multiset([top] + PopOrder(init));
        multiset([top]) + multiset(PopOrder(init));
        multiset([top]) + multiset(init);
        multiset(init + [top]);
      }
    }
  }

  /** Seconds `destroyAllContainers` waits for the parallel stops: 15 per container. */
  function StopBudgetSeconds(numToStop: nat): nat
  {
    numToStop * 15
  }

  /**
   * The static fields of the harness: `containerStack` (top is the last element),
   * `currentPortNumber`, and a record of the containers handed to `stopContainer`.
   */
  class Statics {
    var containerStack: seq<ContainerInfo>
    var currentPortNumber: int
    ghost var stopped: seq<ContainerInfo>

    ghost predicate Valid()
      reads this
    {
      IsShort(currentPortNumber)
    }

    constructor ()
      ensures Valid()
      ensures containerStack == [] && currentPortNumber == BasePortNumber && stopped == []
    {
      containerStack := [];
      currentPortNumber := BasePortNumber;
      stopped := [];
    }

    /** `appServerPort = currentPortNumber++`. */
    method AllocatePort() returns (port: int)
      requires Valid()
      modifies this`currentPortNumber
      ensures Valid()
      ensures port == old(currentPortNumber)
      ensures currentPortNumber == NextPort(old(currentPortNumber))
    {
      port := currentPortNumber;
      currentPortNumber := NextPort(currentPortNumber);
    }

    /** `containerStack.push(info)`. */
    method Push(info: ContainerInfo)
      modifies this`containerStack
      ensures containerStack == old(containerStack) + [info]
      ensures LastContainerId(containerStack) == Success(info.containerId)
    {
      containerStack := containerStack + [info];
    }

    /** `containerStack.pop()` on a non-empty stack. */
    method Pop() returns (info: ContainerInfo)
      requires containerStack != []
      modifies this`containerStack
      ensures info == old(containerStack)[|old(containerStack)| - 1]
      ensures containerStack == old(containerStack)[..|old(containerStack)| - 1]
    {
      info := containerStack[|containerStack| - 1];
      containerStack := containerStack[..|containerStack| - 1];
    }

    /** `stopContainer(info)`: the engine call is recorded, its failures are only logged. */
    method StopContainer(info: ContainerInfo)
      modifies this`stopped
      ensures stopped == old(stopped) + [info]
    {
      stopped := stopped + [info];
    }

    /** The `while (!containerStack.isEmpty())` loop: pop each entry and hand it to stop. */
    method DrainStack()
      modifies this`containerStack, this`stopped
      ensures containerStack == []
      ensures stopped == old(stopped) + PopOrder(old(containerStack))
    {
      ghost var drained := stopped + PopOrder(containerStack);
      while containerStack != []
        invariant stopped + PopOrder(containerStack) == drained
        decreases |containerStack|
      {
        PopOrderUnfold(containerStack);
        var info := Pop();
        StopContainer(info);
      }
    }

    /**
     * `destroyAllContainers`: a no-op on an empty stack; otherwise pops every entry
     * and hands each to `stopContainer`, then waits up to 15 s per container.
     * Returns the wait budget in seconds, `None` when there was nothing to stop.
     */
    method DestroyAllContainers() returns (budget: Option<nat>)
      modifies this`containerStack, this`stopped
      ensures old(containerStack) == [] ==> budget == None && stopped == old(stopped)
      ensures old(containerStack) != [] ==> budget == Some(StopBudgetSeconds(|old(containerStack)|))
      ensures containerStack == []
      ensures stopped == old(stopped) + PopOrder(old(containerStack))
    {
      if containerStack == [] {
        return None;
      }
      var numToStop := |containerStack|;
      DrainStack();
      budget := Some(StopBudgetSeconds(numToStop));
    }
  }
}
