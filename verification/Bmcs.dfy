/** VirtualMachineBMC objects, their status conditions, and their admission. */
module Bmcs {
  import opened Basics

  datatype Key = Key(ns: string, name: string)

  datatype Condition = Condition(kind: string, status: bool, reason: string, message: string)

  datatype Status = Status(clusterIP: string, conditions: seq<Condition>)

  datatype Spec = Spec(vmRef: Option<string>, secretRef: Option<string>)

  datatype Bmc = Bmc(spec: Spec, status: Status, version: nat)

  const READY := "Ready"
  const VM_AVAILABLE := "VirtualMachineAvailable"
  const SECRET_AVAILABLE := "SecretAvailable"

  // ---------- Conditions ----------

  /** The first condition of a type. */
  function Find(cs: seq<Condition>, kind: string): Option<Condition> {
    if cs == [] then None
    else if cs[0].kind == kind then Some(cs[0])
    else Find(cs[1..], kind)
  }

  /** Overwrites the first condition of the type, or appends one. */
  function Upsert(cs: seq<Condition>, c: Condition): seq<Condition> {
    if cs == [] then [c]
    else if cs[0].kind == c.kind then [c] + cs[1..]
    else [cs[0]] + Upsert(cs[1..], c)
  }

  predicate Unique(cs: seq<Condition>) {
    forall i, j :: 0 <= i < j < |cs| ==> cs[i].kind != cs[j].kind
  }

  lemma {:induction false} UpsertFinds(cs: seq<Condition>, c: Condition, kind: string)
    ensures Find(Upsert(cs, c), kind) == if kind == c.kind then Some(c) else Find(cs, kind)
  {
    if cs != [] && cs[0].kind != c.kind {
      UpsertFinds(cs[1..], c, kind);
    }
  }

  lemma {:induction false} FindAbsent(cs: seq<Condition>, kind: string)
    ensures Find(cs, kind).None? <==> forall i :: 0 <= i < |cs| ==> cs[i].kind != kind
  {
    if cs != [] {
      FindAbsent(cs[1..], kind);
      assert forall i :: 1 <= i < |cs| ==> cs[i] == cs[1..][i - 1];
    }
  }

  lemma {:induction false} FindAt(cs: seq<Condition>, i: nat)
    requires i < |cs|
    requires forall j :: 0 <= j < i ==> cs[j].kind != cs[i].kind
    ensures Find(cs, cs[i].kind) == Some(cs[i])
  {
    if i > 0 {
      FindAt(cs[1..], i - 1);
    }
  }

  /** An upsert touches one place: the first condition of its type, or a new last one. */
  lemma {:induction false} UpsertAt(cs: seq<Condition>, c: Condition, i: nat)
    requires i <= |cs|
    requires forall j :: 0 <= j < i ==> cs[j].kind != c.kind
    requires i < |cs| ==> cs[i].kind == c.kind
    ensures Upsert(cs, c) == if i < |cs| then cs[i := c] else cs + [c]
  {
    if i > 0 {
      UpsertAt(cs[1..], c, i - 1);
    }
  }

  lemma {:induction false} UpsertKeepsUnique(cs: seq<Condition>, c: Condition)
    requires Unique(cs)
    ensures Unique(Upsert(cs, c))
  {
    var i := FirstIndex(cs, c.kind);
    UpsertAt(cs, c, i);
  }

  lemma {:induction false} FirstIndex(cs: seq<Condition>, kind: string) returns (i: nat)
    ensures i <= |cs|
    ensures forall j :: 0 <= j < i ==> cs[j].kind != kind
    ensures i < |cs| ==> cs[i].kind == kind
  {
    if cs == [] || cs[0].kind == kind {
      i := 0;
    } else {
      i := FirstIndex(cs[1..], kind);
      assert forall j :: 1 <= j < i + 1 ==> cs[j] == cs[1..][j - 1];
      i := i + 1;
    }
  }

  /** A fetched copy of an object, whose status the controllers edit in place. */
  class FetchedBmc {
    const spec: Spec
    var clusterIP: string
    var conditions: seq<Condition>
    var version: nat

    constructor (b: Bmc)
      ensures Value() == b
    {
      spec := b.spec;
      clusterIP := b.status.clusterIP;
      conditions := b.status.conditions;
      version := b.version;
    }

    function Value(): Bmc
      reads this
    {
      Bmc(spec, Status(clusterIP, conditions), version)
    }

    /** Reports whether anything changed: a field of the first condition of the type, or
        that there was none. */
    method SetStatusCondition(c: Condition) returns (changed: bool)
      modifies this`conditions
      ensures conditions == Upsert(old(conditions), c)
      ensures changed <==> Find(old(conditions), c.kind) != Some(c)
      ensures !changed ==> conditions == old(conditions)
    {
      var i := 0;
      while i < |conditions| && conditions[i].kind != c.kind
        invariant i <= |conditions|
        invariant forall j :: 0 <= j < i ==> conditions[j].kind != c.kind
      {
        i := i + 1;
      }
      UpsertAt(conditions, c, i);
      if i == |conditions| {
        FindAbsent(conditions, c.kind);
        conditions := conditions + [c];
        return true;
      }
      FindAt(conditions, i);
      var existing := conditions[i];
      changed := false;
      if existing.status != c.status {
        existing, changed := existing.(status := c.status), true;
      }
      if existing.reason != c.reason {
        existing, changed := existing.(reason := c.reason), true;
      }
      if existing.message != c.message {
        existing, changed := existing.(message := c.message), true;
      }
      conditions := conditions[i := existing];
    }
  }

  function Quote(s: string): string {
    "\"" + s + "\""
  }

  /** The condition that reports whether the referenced virtual machine was found. */
  function VmCondition(ns: string, name: string, found: bool): (c: Condition)
    ensures c.kind == "VirtualMachineAvailable" && (c.status <==> found)
    ensures c.reason == if found then "VirtualMachineFound" else "VirtualMachineNotFound"
  {
    if found then
      Condition(VM_AVAILABLE, true, "VirtualMachineFound", "VirtualMachine " + Quote(name) + " is available")
    else
      Condition(VM_AVAILABLE, false, "VirtualMachineNotFound",
                "VirtualMachine " + Quote(name) + " not found in namespace " + Quote(ns))
  }

  function SecretCondition(ns: string, name: string, found: bool): (c: Condition)
    ensures c.kind == "SecretAvailable" && (c.status <==> found)
    ensures c.reason == if found then "SecretFound" else "SecretNotFound"
  {
    if found then
      Condition(SECRET_AVAILABLE, true, "SecretFound", "Secret " + Quote(name) + " is available")
    else
      Condition(SECRET_AVAILABLE, false, "SecretNotFound",
                "Secret " + Quote(name) + " not found in namespace " + Quote(ns))
  }

  const READY_CONDITION := Condition(READY, true, "ServiceReady", "ClusterIP assigned to the Service")

  lemma Between(a: string, x: string, y: string, b: string)
    requires a + x + b == a + y + b
    ensures x == y
  {
    assert |x| == |y|;
    assert x == (a + x + b)[|a|..|a| + |x|];
    assert y == (a + y + b)[|a|..|a| + |y|];
  }

  /** A message tells which Secret it is about. */
  lemma FoundSecretNames(ns: string, x: string, y: string)
    requires SecretCondition(ns, x, true) == SecretCondition(ns, y, true)
    ensures x == y
  {
    Between("Secret ", Quote(x), Quote(y), " is available");
    Between("\"", x, y, "\"");
  }

  lemma FoundVmNames(ns: string, x: string, y: string)
    requires VmCondition(ns, x, true) == VmCondition(ns, y, true)
    ensures x == y
  {
    Between("VirtualMachine ", Quote(x), Quote(y), " is available");
    Between("\"", x, y, "\"");
  }

  lemma MissingVmNames(ns: string, x: string, y: string)
    requires VmCondition(ns, x, false) == VmCondition(ns, y, false)
    ensures x == y
  {
    var tail := " not found in namespace " + Quote(ns);
    assert VmCondition(ns, x, false).message == "VirtualMachine " + Quote(x) + tail;
    assert VmCondition(ns, y, false).message == "VirtualMachine " + Quote(y) + tail;
    MissingNames("VirtualMachine ", x, y, tail);
  }

  lemma MissingSecretNames(ns: string, x: string, y: string)
    requires SecretCondition(ns, x, false) == SecretCondition(ns, y, false)
    ensures x == y
  {
    var tail := " not found in namespace " + Quote(ns);
    assert SecretCondition(ns, x, false).message == "Secret " + Quote(x) + tail;
    assert SecretCondition(ns, y, false).message == "Secret " + Quote(y) + tail;
    MissingNames("Secret ", x, y, tail);
  }

  /** A condition about one object of a namespace is never that about another, nor found the same
      as not found; so every change of what was found or named shows in the status. */
  lemma VmConditionsDiffer(ns: string, x: string, found: bool, y: string, found': bool)
    ensures VmCondition(ns, x, found) == VmCondition(ns, y, found') <==> x == y && found == found'
  {
    if VmCondition(ns, x, found) == VmCondition(ns, y, found') {
      assert found == found';
      if found {
        FoundVmNames(ns, x, y);
      } else {
        MissingVmNames(ns, x, y);
      }
    }
  }

  lemma SecretConditionsDiffer(ns: string, x: string, found: bool, y: string, found': bool)
    ensures SecretCondition(ns, x, found) == SecretCondition(ns, y, found') <==> x == y && found == found'
  {
    if SecretCondition(ns, x, found) == SecretCondition(ns, y, found') {
      assert found == found';
      if found {
        FoundSecretNames(ns, x, y);
      } else {
        MissingSecretNames(ns, x, y);
      }
    }
  }

  lemma MissingNames(kind: string, x: string, y: string, tail: string)
    requires kind + Quote(x) + tail == kind + Quote(y) + tail
    ensures x == y
  {
    Between(kind, Quote(x), Quote(y), tail);
    Between("\"", x, y, "\"");
  }

  // ---------- Admission ----------

  datatype AdmissionError =
    | RefRequired(field: string) | NameEmpty(field: string) | NotFound(field: string) | LookupFailed(field: string)

  function ValidateRef(field: string, ref: Option<string>, ns: string, existing: set<Key>, o: Outcome)
    : Option<AdmissionError>
  {
    if ref.None? then Some(RefRequired(field))
    else if ref.value == "" then Some(NameEmpty(field))
    else if !o.Served? then Some(LookupFailed(field))
    else if Key(ns, ref.value) !in existing then Some(NotFound(field))
    else None
  }

  /** Which error names which cause, and the order in which they are looked for. */
  lemma AdmissionErrors(spec: Spec, ns: string, vms: set<Key>, secrets: set<Key>, script: seq<Outcome>)
    ensures var vm, secret := "spec.virtualMachineRef", "spec.authSecretRef";
            var e := Validate(spec, ns, vms, secrets, script);
            var second := if |script| > 1 then script[1] else Served;
            && (e == Some(RefRequired(vm)) <==> spec.vmRef.None?)
            && (e == Some(NameEmpty(vm)) <==> spec.vmRef == Some(""))
            && (e == Some(LookupFailed(vm)) <==>
                  spec.vmRef.Some? && spec.vmRef.value != "" && |script| > 0 && !script[0].Served?)
            && (e == Some(NotFound(vm)) <==>
                  && spec.vmRef.Some? && spec.vmRef.value != "" && (|script| > 0 ==> script[0].Served?)
                  && Key(ns, spec.vmRef.value) !in vms)
            && (VmAdmitted(spec, ns, vms, script) ==>
                  && (e == Some(RefRequired(secret)) <==> spec.secretRef.None?)
                  && (e == Some(NameEmpty(secret)) <==> spec.secretRef == Some(""))
                  && (e == Some(LookupFailed(secret)) <==>
                        spec.secretRef.Some? && spec.secretRef.value != "" && !second.Served?)
                  && (e == Some(NotFound(secret)) <==>
                        && spec.secretRef.Some? && spec.secretRef.value != "" && second.Served?
                        && Key(ns, spec.secretRef.value) !in secrets))
  {
  }

  predicate VmAdmitted(spec: Spec, ns: string, vms: set<Key>, script: seq<Outcome>) {
    && spec.vmRef.Some? && spec.vmRef.value != "" && (|script| > 0 ==> script[0].Served?)
    && Key(ns, spec.vmRef.value) in vms
  }

  /** The validating webhook on create and update: the virtual machine first, then the
      Secret.  `script` holds the outcomes of its lookups. */
  function Validate(spec: Spec, ns: string, vms: set<Key>, secrets: set<Key>, script: seq<Outcome>)
    : (e: Option<AdmissionError>)
    ensures e.None? <==>
              && spec.vmRef.Some? && spec.vmRef.value != "" && Key(ns, spec.vmRef.value) in vms
              && spec.secretRef.Some? && spec.secretRef.value != "" && Key(ns, spec.secretRef.value) in secrets
              && Head(script).Served? && Head(Tail(script)).Served?
  {
    var e := ValidateRef("spec.virtualMachineRef", spec.vmRef, ns, vms, Head(script));
    if e.Some? then e else ValidateRef("spec.authSecretRef", spec.secretRef, ns, secrets, Head(Tail(script)))
  }
}
