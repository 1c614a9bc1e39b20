/** The resizable semaphore of src/agent_runtime/evals/runner.py, one critical section at a time. */
module DynamicSemaphore {
  import opened Numbers

  /** Its capacity, the slots in use, and the tasks on its condition: still waiting, or notified and on their way
      back to the lock. */
  datatype Semaphore = Semaphore(value: int, inUse: int, waiters: set<nat>, woken: set<nat>) {

    function NotifyAll(): Semaphore {
      this.(waiters := {}, woken := woken + waiters)
    }

    predicate Full() {
      inUse >= value
    }

    /** `while inUse >= value: wait()`, as far as the first wait. */
    function Enter(t: nat): Semaphore {
      if Full() then this.(waiters := waiters + {t}) else this.(inUse := inUse + 1)
    }

    function Exit(): Semaphore {
      this.(inUse := inUse - 1).NotifyAll()
    }

    function Resize(newValue: int): Semaphore {
      this.(value := Max(1, newValue)).NotifyAll()
    }

    /** A notified task asks for the lock again. */
    function Resume(t: nat): Semaphore {
      this.(woken := woken - {t})
    }
  }

  function Idle(initialValue: int): Semaphore {
    Semaphore(Max(1, initialValue), 0, {}, {})
  }

  /** The object itself. Every method is one section under the condition's lock. */
  class Gate {
    var value: int
    var inUse: int
    var waiters: set<nat>
    var woken: set<nat>

    function View(): Semaphore
      reads this
    {
      Semaphore(value, inUse, waiters, woken)
    }

    constructor (initialValue: int)
      ensures View() == Idle(initialValue)
    {
      value := Max(1, initialValue);
      inUse := 0;
      waiters, woken := {}, {};
    }

    method NotifyAll()
      modifies this`waiters, this`woken
      ensures View() == old(View()).NotifyAll()
    {
      woken := woken + waiters;
      waiters := {};
    }

    method Enter(t: nat) returns (admitted: bool)
      modifies this
      ensures View() == old(View()).Enter(t)
      ensures admitted <==> !old(View()).Full()
      ensures admitted ==> inUse <= value && inUse == old(inUse) + 1
      ensures !admitted ==> t in waiters && inUse == old(inUse)
    {
      if inUse >= value {
        waiters := waiters + {t};
        return false;
      }
      inUse := inUse + 1;
      return true;
    }

    method Exit()
      modifies this
      ensures View() == old(View()).Exit()
      ensures waiters == {}
    {
      inUse := inUse - 1;
      NotifyAll();
    }

    method Resize(newValue: int)
      modifies this
      ensures View() == old(View()).Resize(newValue)
      ensures waiters == {} && value >= 1
    {
      value := Max(1, newValue);
      NotifyAll();
    }

    method Resume(t: nat)
      modifies this`woken
      ensures View() == old(View()).Resume(t)
    {
      woken := woken - {t};
    }
  }
}
