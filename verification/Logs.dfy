/** Parts of a log of operations. */
module Logs {
  import opened Operations

  predicate IsPower(op: Op) {
    op.PowerOn? || op.PowerOff?
  }

  predicate IsBoot(op: Op) {
    op.SetBootDevice?
  }

  /** The operations of one kind, in order. */
  function Only(ops: seq<Op>, kind: Op -> bool): seq<Op> {
    if ops == [] then [] else (if kind(ops[0]) then [ops[0]] else []) + Only(ops[1..], kind)
  }

  /** The last operation of a kind, alone; nothing if there is none. */
  function LastOf(ops: seq<Op>, kind: Op -> bool): seq<Op> {
    if ops == [] then []
    else if LastOf(ops[1..], kind) == [] && kind(ops[0]) then [ops[0]]
    else LastOf(ops[1..], kind)
  }

  lemma {:induction false} LastOfConcat(a: seq<Op>, b: seq<Op>, kind: Op -> bool)
    ensures LastOf(a + b, kind) == if LastOf(b, kind) != [] then LastOf(b, kind) else LastOf(a, kind)
    decreases |a|
  {
    if a == [] {
      assert a + b == b;
    } else {
      assert (a + b)[1..] == a[1..] + b;
      LastOfConcat(a[1..], b, kind);
    }
  }

  lemma {:induction false} LastOfKind(ops: seq<Op>, kind: Op -> bool)
    ensures LastOf(ops, kind) == [] || (|LastOf(ops, kind)| == 1 && kind(LastOf(ops, kind)[0]))
  {
    if ops != [] {
      LastOfKind(ops[1..], kind);
    }
  }

  lemma LastOfOne(op: Op, kind: Op -> bool)
    ensures LastOf([op], kind) == if kind(op) then [op] else []
  {
    assert [op][1..] == [];
    assert LastOf([], kind) == [];
  }
}
