/** Vocabulary shared by every module: optional values, removal from a list, and
    the life-cycle states of a coroutine. */
module Basics {

  datatype Option<+T> = None | Some(value: T) {
    function GetOr(default: T): T {
      if Some? then value else default
    }
  }

  /** The states a fiber goes through (fiber.h). */
  datatype FiberState = INIT | HOLD | EXEC | TERM | READY | EXCEPT

  /** A fiber that ran to its end, normally or by an exception. */
  predicate Ended(state: FiberState) {
    state == TERM || state == EXCEPT
  }

  /** A task for the given thread, if any, is not for worker w. */
  predicate PinnedElsewhere(thread: Option<nat>, w: nat) {
    thread.Some? && thread.value != w
  }

  /** The list without its i-th element, the others in their order. */
  function RemoveAt<T>(s: seq<T>, i: nat): (r: seq<T>)
    requires i < |s|
    ensures |r| == |s| - 1
    ensures forall j | 0 <= j < |r| :: r[j] == if j < i then s[j] else s[j + 1]
  {
    s[..i] + s[i + 1..]
  }

  lemma Regroup<T>(a: seq<T>, b: seq<T>, c: seq<T>)
    ensures (a + b) + c == a + (b + c)
  {
  }
}
