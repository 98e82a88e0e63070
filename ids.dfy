/**
 * Identifiers used by the daemon and the order in which the daemon's
 * routing sets (BTreeSet<(NodeId, DataId)>) keep them.
 *
 * Node and data ids are strings; Rust orders `String` byte-wise on its
 * UTF-8 encoding, which coincides with the order of the code points, so
 * the order below compares characters one by one.
 */
module Ids {

  type NodeId = string
  type DataId = string
  /** A UUID in the daemon; only compared for equality. */
  type DataflowId = nat
  /** The OS id of a shared-memory region. */
  type RegionId = string
  /** An event sink handed over by a node when it subscribes. */
  type SinkId = nat
  /** The supervision task of a spawned node. */
  type TaskHandle = nat
  type DropToken = nat

  /** An output of a node, and an input of a node. */
  type OutputId = (NodeId, DataId)
  type InputId = (NodeId, DataId)

  /** Lexicographic order on strings: a proper prefix comes first. */
  predicate StrLess(a: string, b: string)
    decreases |a|
  {
    |b| > 0 &&
    (|a| == 0 || a[0] < b[0] || (a[0] == b[0] && StrLess(a[1..], b[1..])))
  }

  /** The derived order of the tuple (NodeId, DataId). */
  predicate IdLess(x: (NodeId, DataId), y: (NodeId, DataId))
  {
    StrLess(x.0, y.0) || (x.0 == y.0 && StrLess(x.1, y.1))
  }

  lemma {:induction false} StrLessIrreflexive(a: string)
    ensures !StrLess(a, a)
  {
    if |a| > 0 {
      StrLessIrreflexive(a[1..]);
    }
  }

  lemma {:induction false} StrLessTransitive(a: string, b: string, c: string)
    requires StrLess(a, b) && StrLess(b, c)
    ensures StrLess(a, c)
  {
    if |a| > 0 && a[0] == b[0] && b[0] == c[0] {
      StrLessTransitive(a[1..], b[1..], c[1..]);
    }
  }

  lemma {:induction false} StrLessTotal(a: string, b: string)
    requires a != b
    ensures StrLess(a, b) || StrLess(b, a)
  {
    if |a| > 0 && |b| > 0 && a[0] == b[0] {
      assert a == [a[0]] + a[1..] && b == [b[0]] + b[1..];
      StrLessTotal(a[1..], b[1..]);
    }
  }

  lemma IdLessIrreflexive(x: (NodeId, DataId))
    ensures !IdLess(x, x)
  {
    StrLessIrreflexive(x.0);
    StrLessIrreflexive(x.1);
  }

  lemma IdLessTransitive(x: (NodeId, DataId), y: (NodeId, DataId), z: (NodeId, DataId))
    requires IdLess(x, y) && IdLess(y, z)
    ensures IdLess(x, z)
  {
    if StrLess(x.0, y.0) && StrLess(y.0, z.0) {
      StrLessTransitive(x.0, y.0, z.0);
    } else if x.0 == y.0 && y.0 == z.0 {
      StrLessTransitive(x.1, y.1, z.1);
    }
  }

  lemma IdLessTotal(x: (NodeId, DataId), y: (NodeId, DataId))
    requires x != y
    ensures IdLess(x, y) || IdLess(y, x)
  {
    if x.0 != y.0 {
      StrLessTotal(x.0, y.0);
    } else {
      StrLessTotal(x.1, y.1);
    }
  }
}
