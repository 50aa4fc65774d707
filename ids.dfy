/// The process-wide identifier generator `new_id`
/// (engine/src/supervisor/linker.rs). The Rust code keeps the counter in a
/// lazily initialised global; here the counter is an object that every
/// constructor receives explicitly.
module Ids {

  /// The identifiers handed out by the first `n` calls to `new_id`, in order.
  function Drawn(n: nat): seq<nat>
  {
    if n == 0 then [] else Drawn(n - 1) + [n]
  }

  /// The k-th call returns k + 1: the first call returns 1.
  lemma {:induction false} DrawnAt(n: nat)
    ensures |Drawn(n)| == n
    ensures forall k :: 0 <= k < n ==> Drawn(n)[k] == k + 1
  {
    if n > 0 {
      DrawnAt(n - 1);
    }
  }

  /// Identifiers are handed out in strictly increasing order, so none repeats,
  /// and the next call returns a value that was never handed out before.
  lemma DrawnStrictlyIncreasing(n: nat)
    ensures forall i, j :: 0 <= i < j < |Drawn(n)| ==> Drawn(n)[i] < Drawn(n)[j]
    ensures n + 1 !in Drawn(n)
  {
    DrawnAt(n);
  }

  /// The global counter behind `new_id`. `last` is the last identifier handed
  /// out (0 before the first call, the value the lazy initialisation installs).
  class IdSource {
    var last: nat

    constructor ()
      ensures last == 0
    {
      last := 0;
    }

    /// `new_id`: bump the counter and return its new value.
    method NewId() returns (id: nat)
      modifies this
      ensures id == old(last) + 1 && last == id
      ensures Drawn(last) == Drawn(old(last)) + [id]
      ensures id !in Drawn(old(last))
    {
      DrawnStrictlyIncreasing(last);
      last := last + 1;
      id := last;
    }
  }
}
