/** Passes for different virtual machines do not disturb one another. */
module NonInterference {
  import opened Basics
  import opened Bmcs
  import opened Reconcile
  import opened Passes

  /** The object that a write is about, with its kind. */
  datatype Target = BmcAt(key: Key) | AccountAt(key: Key) | BindingAt(key: Key) | PodAt(key: Key) | ServiceAt(key: Key)

  function TargetOf(w: Write): Target {
    match w
    case UpdateStatus(key, _, _) => BmcAt(key)
    case CreateAccount(key) => AccountAt(key)
    case CreateBinding(key, _) => BindingAt(key)
    case CreatePod(key, _) => PodAt(key)
    case DeletePod(key) => PodAt(key)
    case CreateService(key, _) => ServiceAt(key)
  }

  /** The pass is about the object `key`, which references the virtual machine `vm`. */
  predicate About(k: Kube, p: Pass, key: Key, vm: string) {
    && p.key == key
    && (!p.stage.Fetching? && !Over(p) ==> VmOf(p.obj) == vm)
    && (key in k.bmcs ==> VmOf(k.bmcs[key]) == vm)
  }

  predicate Apart(key1: Key, vm1: string, key2: Key, vm2: string) {
    key1 != key2 && (key1.ns != key2.ns || vm1 != vm2)
  }

  lemma TargetsDisjoint(k: Kube, p: Pass, key1: Key, vm1: string, q: Pass, key2: Key, vm2: string)
    requires About(k, p, key1, vm1) && About(k, q, key2, vm2) && Apart(key1, vm1, key2, vm2)
    requires Request(p).Some? && Request(q).Some?
    ensures TargetOf(Request(p).value) != TargetOf(Request(q).value)
  {
    NamesApart(key1.ns, vm1, key2.ns, vm2);
  }

  /** A write is judged by its target alone. */
  lemma CheckUnaffected(k: Kube, v: Write, w: Write)
    requires TargetOf(v) != TargetOf(w) && Check(k, w).Ok?
    ensures Check(Apply(k, w), v) == Check(k, v)
  {
  }

  predicate IsPodWrite(w: Write) {
    w.CreatePod? || w.DeletePod?
  }

  predicate SameKind(v: Write, w: Write) {
    match v
    case UpdateStatus(_, _, _) => w.UpdateStatus?
    case CreateAccount(_) => w.CreateAccount?
    case CreateBinding(_, _) => w.CreateBinding?
    case CreatePod(_, _) => IsPodWrite(w)
    case DeletePod(_) => IsPodWrite(w)
    case CreateService(_, _) => w.CreateService?
  }

  lemma PodWritesCommute(k: Kube, v: Write, w: Write)
    requires TargetOf(v) != TargetOf(w) && IsPodWrite(v) && IsPodWrite(w)
    requires Check(k, v).Ok? && Check(k, w).Ok?
    requires Check(Apply(k, w), v).Ok? && Check(Apply(k, v), w).Ok?
    ensures Apply(Apply(k, v), w) == Apply(Apply(k, w), v)
  {
    assert Apply(Apply(k, v), w).pods == Apply(Apply(k, w), v).pods;
  }

  lemma StatusWritesCommute(k: Kube, v: Write, w: Write)
    requires TargetOf(v) != TargetOf(w) && v.UpdateStatus? && w.UpdateStatus?
    requires Check(k, v).Ok? && Check(k, w).Ok?
    requires Check(Apply(k, w), v).Ok? && Check(Apply(k, v), w).Ok?
    ensures Apply(Apply(k, v), w) == Apply(Apply(k, w), v)
  {
    assert Apply(Apply(k, v), w).bmcs == Apply(Apply(k, w), v).bmcs;
  }

  lemma CreationsCommute(k: Kube, v: Write, w: Write)
    requires TargetOf(v) != TargetOf(w) && !IsPodWrite(v) && !v.UpdateStatus? && SameKind(v, w)
    requires Check(k, v).Ok? && Check(k, w).Ok?
    requires Check(Apply(k, w), v).Ok? && Check(Apply(k, v), w).Ok?
    ensures Apply(Apply(k, v), w) == Apply(Apply(k, w), v)
  {
    var x, y := Apply(Apply(k, v), w), Apply(Apply(k, w), v);
    match v
    case CreateAccount(_) => assert x.accounts == y.accounts;
    case CreateBinding(_, _) => assert x.bindings == y.bindings;
    case CreateService(_, _) => assert x.services == y.services;
  }

  /** Writes of different kinds change different fields. */
  lemma KindsCommute(k: Kube, v: Write, w: Write)
    requires !SameKind(v, w)
    requires Check(k, v).Ok? && Check(k, w).Ok?
    requires Check(Apply(k, w), v).Ok? && Check(Apply(k, v), w).Ok?
    ensures Apply(Apply(k, v), w) == Apply(Apply(k, w), v)
  {
  }

  lemma AppliesCommute(k: Kube, v: Write, w: Write)
    requires TargetOf(v) != TargetOf(w) && Check(k, v).Ok? && Check(k, w).Ok?
    ensures Check(Apply(k, w), v).Ok? && Check(Apply(k, v), w).Ok?
    ensures Apply(Apply(k, v), w) == Apply(Apply(k, w), v)
  {
    CheckUnaffected(k, v, w);
    CheckUnaffected(k, w, v);
    if !SameKind(v, w) {
      KindsCommute(k, v, w);
    } else if IsPodWrite(v) {
      PodWritesCommute(k, v, w);
    } else if v.UpdateStatus? {
      StatusWritesCommute(k, v, w);
    } else {
      CreationsCommute(k, v, w);
    }
  }

  lemma SubmitsCommute(k: Kube, v: Write, o1: Outcome, w: Write, o2: Outcome)
    requires TargetOf(v) != TargetOf(w)
    ensures Submit(Submit(k, v, o1).0, w, o2).0 == Submit(Submit(k, w, o2).0, v, o1).0
    ensures Submit(Submit(k, v, o1).0, w, o2).1 == Submit(k, w, o2).1
    ensures Submit(Submit(k, w, o2).0, v, o1).1 == Submit(k, v, o1).1
  {
    if Check(k, w).Ok? {
      CheckUnaffected(k, v, w);
    }
    if Check(k, v).Ok? {
      CheckUnaffected(k, w, v);
    }
    if Check(k, v).Ok? && Check(k, w).Ok? {
      AppliesCommute(k, v, w);
    }
  }

  lemma SubmitFrame(k: Kube, w: Write, o: Outcome, key: Key)
    requires TargetOf(w) != BmcAt(key)
    ensures var k' := Submit(k, w, o).0;
            Get(k'.bmcs, key) == Get(k.bmcs, key) && k'.vms == k.vms && k'.secrets == k.secrets
  {
  }

  lemma StepKeepsAbout(k: Kube, p: Pass, key: Key, vm: string, o: Outcome)
    requires About(k, p, key, vm)
    ensures About(FreshStep(k, p, o).0, FreshStep(k, p, o).1, key, vm)
  {
  }

  lemma StepLeavesOther(k: Kube, p: Pass, key1: Key, vm1: string, o: Outcome, q: Pass, key2: Key, vm2: string)
    requires About(k, p, key1, vm1) && About(k, q, key2, vm2) && Apart(key1, vm1, key2, vm2)
    ensures var k' := FreshStep(k, p, o).0;
            && About(k', q, key2, vm2)
            && Get(k'.bmcs, key2) == Get(k.bmcs, key2) && k'.vms == k.vms && k'.secrets == k.secrets
  {
    if Request(p).Some? {
      SubmitFrame(k, Request(p).value, o, key2);
    }
  }

  /** A step depends on what it reads and on the answer to its write. */
  lemma WriteStepLocal(p: Pass, a: Answer, k1: Kube, k2: Kube)
    requires Request(p).Some? && Get(k1.bmcs, p.key) == Get(k2.bmcs, p.key)
    ensures WriteStep(p, k1, a) == WriteStep(p, k2, a)
  {
  }

  lemma BothWrite(k: Kube, p: Pass, key1: Key, vm1: string, o1: Outcome, q: Pass, key2: Key, vm2: string, o2: Outcome)
    requires About(k, p, key1, vm1) && About(k, q, key2, vm2) && Apart(key1, vm1, key2, vm2)
    requires Request(p).Some? && Request(q).Some?
    ensures var v, w := Request(p).value, Request(q).value;
            var k1, k2 := Submit(k, v, o1).0, Submit(k, w, o2).0;
            var k12, k21 := Submit(k1, w, o2).0, Submit(k2, v, o1).0;
            && k12 == k21
            && WriteStep(q, k12, Submit(k1, w, o2).1) == WriteStep(q, k2, Submit(k, w, o2).1)
            && WriteStep(p, k21, Submit(k2, v, o1).1) == WriteStep(p, k1, Submit(k, v, o1).1)
  {
    var v, w := Request(p).value, Request(q).value;
    var k1, k2 := Submit(k, v, o1).0, Submit(k, w, o2).0;
    TargetsDisjoint(k, p, key1, vm1, q, key2, vm2);
    RequestsLeave(p, key2);
    RequestsLeave(q, key1);
    SubmitsCommute(k, v, o1, w, o2);
    SubmitFrame(k1, w, o2, key1);
    SubmitFrame(k2, v, o1, key2);
    WriteStepLocal(q, Submit(k, w, o2).1, Submit(k1, w, o2).0, k2);
    WriteStepLocal(p, Submit(k, v, o1).1, Submit(k2, v, o1).0, k1);
  }

  lemma RequestsLeave(p: Pass, key: Key)
    requires p.key != key && Request(p).Some?
    ensures TargetOf(Request(p).value) != BmcAt(key)
  {
  }

  /** Two steps of passes for different virtual machines commute. */
  lemma StepsCommute(k: Kube, p: Pass, key1: Key, vm1: string, o1: Outcome,
                     q: Pass, key2: Key, vm2: string, o2: Outcome)
    requires About(k, p, key1, vm1) && About(k, q, key2, vm2) && Apart(key1, vm1, key2, vm2)
    ensures var (k1, p1) := FreshStep(k, p, o1);
            var (k2, q2) := FreshStep(k, q, o2);
            FreshStep(k1, q, o2) == (FreshStep(k2, p, o1).0, q2) && FreshStep(k2, p, o1).1 == p1
  {
    var k1, k2 := FreshStep(k, p, o1).0, FreshStep(k, q, o2).0;
    assert Fresh(k1, q, o2) == Fresh(k, q, o2) by { StepLeavesOther(k, p, key1, vm1, o1, q, key2, vm2); }
    assert Fresh(k2, p, o1) == Fresh(k, p, o1) by { StepLeavesOther(k, q, key2, vm2, o2, p, key1, vm1); }
    if Request(p).Some? && Request(q).Some? {
      BothWrite(k, p, key1, vm1, o1, q, key2, vm2, o2);
    } else {
      ReadAndStep(k, p, o1, q, o2);
    }
  }

  /** The same when one of the two steps is a read. */
  lemma ReadAndStep(k: Kube, p: Pass, o1: Outcome, q: Pass, o2: Outcome)
    requires Request(p).None? || Request(q).None?
    requires var k1, k2 := FreshStep(k, p, o1).0, FreshStep(k, q, o2).0;
             Fresh(k1, q, o2) == Fresh(k, q, o2) && Fresh(k2, p, o1) == Fresh(k, p, o1)
    ensures var (k1, p1) := FreshStep(k, p, o1);
            var (k2, q2) := FreshStep(k, q, o2);
            FreshStep(k1, q, o2) == (FreshStep(k2, p, o1).0, q2) && FreshStep(k2, p, o1).1 == p1
  {
    var i, j := Fresh(k, p, o1), Fresh(k, q, o2);
    if Request(p).None? {
      assert Step(k, p, i) == (k, ReadStep(p, i));
      assert Step(FreshStep(k, q, o2).0, p, i) == (FreshStep(k, q, o2).0, ReadStep(p, i));
    } else {
      assert Step(k, q, j) == (k, ReadStep(q, j));
      assert Step(FreshStep(k, p, o1).0, q, j) == (FreshStep(k, p, o1).0, ReadStep(q, j));
    }
  }

  // ---------- Interleavings of two passes ----------

  datatype Pair = Pair(kube: Kube, p: Pass, q: Pass)

  /** `First` steps the first pass, `Second` the second. */
  datatype Move = First(outcome: Outcome) | Second(outcome: Outcome)

  function Play(s: Pair, m: Move): Pair {
    match m
    case First(o) => var r := FreshStep(s.kube, s.p, o); Pair(r.0, r.1, s.q)
    case Second(o) => var r := FreshStep(s.kube, s.q, o); Pair(r.0, s.p, r.1)
  }

  function PlayAll(s: Pair, moves: seq<Move>): Pair
    decreases |moves|
  {
    if moves == [] then s else PlayAll(Play(s, moves[0]), moves[1..])
  }

  function Firsts(moves: seq<Move>): seq<Move> {
    if moves == [] then [] else (if moves[0].First? then [moves[0]] else []) + Firsts(moves[1..])
  }

  function Seconds(moves: seq<Move>): seq<Move> {
    if moves == [] then [] else (if moves[0].Second? then [moves[0]] else []) + Seconds(moves[1..])
  }

  predicate Unrelated(s: Pair, key1: Key, vm1: string, key2: Key, vm2: string) {
    About(s.kube, s.p, key1, vm1) && About(s.kube, s.q, key2, vm2) && Apart(key1, vm1, key2, vm2)
  }

  lemma PlayKeepsUnrelated(s: Pair, m: Move, key1: Key, vm1: string, key2: Key, vm2: string)
    requires Unrelated(s, key1, vm1, key2, vm2)
    ensures Unrelated(Play(s, m), key1, vm1, key2, vm2)
  {
    if m.First? {
      StepKeepsAbout(s.kube, s.p, key1, vm1, m.outcome);
      StepLeavesOther(s.kube, s.p, key1, vm1, m.outcome, s.q, key2, vm2);
    } else {
      StepKeepsAbout(s.kube, s.q, key2, vm2, m.outcome);
      StepLeavesOther(s.kube, s.q, key2, vm2, m.outcome, s.p, key1, vm1);
    }
  }

  /** A step of the second pass may as well come after any steps of the first. */
  lemma {:induction false} SecondCanWait(s: Pair, m: Move, firsts: seq<Move>,
                                         key1: Key, vm1: string, key2: Key, vm2: string)
    requires Unrelated(s, key1, vm1, key2, vm2) && m.Second?
    requires forall i :: 0 <= i < |firsts| ==> firsts[i].First?
    ensures PlayAll(Play(s, m), firsts) == Play(PlayAll(s, firsts), m)
    decreases |firsts|
  {
    if firsts != [] {
      StepsCommute(s.kube, s.p, key1, vm1, firsts[0].outcome, s.q, key2, vm2, m.outcome);
      PlayKeepsUnrelated(s, firsts[0], key1, vm1, key2, vm2);
      SecondCanWait(Play(s, firsts[0]), m, firsts[1..], key1, vm1, key2, vm2);
    }
  }

  lemma {:induction false} PlayAppend(s: Pair, a: seq<Move>, b: seq<Move>)
    ensures PlayAll(s, a + b) == PlayAll(PlayAll(s, a), b)
    decreases |a|
  {
    if a == [] {
      assert a + b == b;
    } else {
      assert (a + b)[1..] == a[1..] + b;
      PlayAppend(Play(s, a[0]), a[1..], b);
    }
  }

  lemma {:induction false} FirstsAreFirst(moves: seq<Move>)
    ensures forall i :: 0 <= i < |Firsts(moves)| ==> Firsts(moves)[i].First?
  {
    if moves != [] {
      FirstsAreFirst(moves[1..]);
    }
  }

  /** Any interleaving of the calls of two unrelated passes, with any failures, ends in the
      state in which all steps of the first pass come before those of the second. */
  lemma {:induction false} InterleavingIsSerial(s: Pair, moves: seq<Move>,
                                                key1: Key, vm1: string, key2: Key, vm2: string)
    requires Unrelated(s, key1, vm1, key2, vm2)
    ensures PlayAll(s, moves) == PlayAll(PlayAll(s, Firsts(moves)), Seconds(moves))
    decreases |moves|
  {
    if moves != [] {
      var m, rest := moves[0], moves[1..];
      PlayKeepsUnrelated(s, m, key1, vm1, key2, vm2);
      InterleavingIsSerial(Play(s, m), rest, key1, vm1, key2, vm2);
      if m.First? {
        assert Firsts(moves)[1..] == Firsts(rest);
        assert Seconds(moves) == Seconds(rest);
      } else {
        FirstsAreFirst(rest);
        SecondCanWait(s, m, Firsts(rest), key1, vm1, key2, vm2);
        assert Firsts(moves) == Firsts(rest);
        assert Seconds(moves)[1..] == Seconds(rest);
      }
    }
  }

  /** Hence the order does not matter: interleavings with the same steps of each pass agree. */
  lemma InterleavingsAgree(s: Pair, a: seq<Move>, b: seq<Move>, key1: Key, vm1: string, key2: Key, vm2: string)
    requires Unrelated(s, key1, vm1, key2, vm2)
    requires Firsts(a) == Firsts(b) && Seconds(a) == Seconds(b)
    ensures PlayAll(s, a) == PlayAll(s, b)
  {
    InterleavingIsSerial(s, a, key1, vm1, key2, vm2);
    InterleavingIsSerial(s, b, key1, vm1, key2, vm2);
  }
}
