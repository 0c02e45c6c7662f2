/** The loop of the watch mapping is the delivery of the runs over credentials. */
module WatchMapping {
  import opened Basics
  import opened Bmcs
  import opened Reconcile
  import opened Reconciler
  import Credentials
  import CredentialLoss

  /** The items are what is stored, in the namespace of the Secret. */
  predicate UpToDate(k: Kube, items: seq<Item>, secret: Key) {
    forall item :: item in items ==>
      item.key in k.bmcs && k.bmcs[item.key].spec == item.spec && item.key.ns == secret.ns
  }

  /** One round of the loop does to the cluster what one item of a delivery does. */
  lemma RoundIsSweep(k: Kube, script: seq<Outcome>, item: Item, secret: Key)
    requires UpToDate(k, [item], secret)
    ensures Round(k, script, item, ChangedSecret(secret)).0 == Credentials.Sweep(k, secret, item.key, Head(script))
  {
    assert item in [item];
  }

  lemma {:induction false} RoundsFront(k: Kube, script: seq<Outcome>, items: seq<Item>, changed: Changed)
    requires items != []
    ensures var r := Round(k, script, items[0], changed);
            Rounds(k, script, items, changed) == Rounds(r.0, r.1, items[1..], changed)
    decreases |items|
  {
    var n := |items| - 1;
    if n > 0 {
      RoundsFront(k, script, items[..n], changed);
      assert items[..n][1..] == items[1..][..n - 1];
    }
  }

  function KeysOf(items: seq<Item>): seq<Key> {
    seq(|items|, i requires 0 <= i < |items| => items[i].key)
  }

  /** The whole loop does to the cluster what the whole delivery does, with the same outcomes of
      the deletes. */
  lemma {:induction false} LoopIsDelivery(s: Credentials.System, j: nat, items: seq<Item>, script: seq<Outcome>)
    returns (outcomes: seq<Outcome>)
    requires j < |s.deliveries| && s.deliveries[j].todo == KeysOf(items)
    requires UpToDate(s.kube, items, s.deliveries[j].secret)
    ensures |outcomes| == |items|
    ensures Credentials.Execute(s, CredentialLoss.Items(j, outcomes)).kube
         == Rounds(s.kube, script, items, ChangedSecret(s.deliveries[j].secret)).0
    decreases |items|
  {
    if items == [] {
      outcomes := [];
    } else {
      var secret, item := s.deliveries[j].secret, items[0];
      var r := Round(s.kube, script, item, ChangedSecret(secret));
      var e := Credentials.Process(j, Head(script));
      var t := Credentials.Next(s, e);
      RoundIsSweep(s.kube, script, item, secret);
      assert KeysOf(items)[0] == item.key && KeysOf(items)[1..] == KeysOf(items[1..]);
      assert t.kube == r.0;
      RoundsFront(s.kube, script, items, ChangedSecret(secret));
      var rest := LoopIsDelivery(t, j, items[1..], r.1);
      outcomes := [Head(script)] + rest;
      assert CredentialLoss.Items(j, outcomes)[0] == e;
      assert CredentialLoss.Items(j, outcomes)[1..] == CredentialLoss.Items(j, rest);
    }
  }
}
