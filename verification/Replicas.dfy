// The replicas of a configuration, each once.

module Replicas {
  import opened Sorting
  import opened Syncing
  import Meanings

  const DEFAULT_API_PATH := "/control"

  // Not injective: a '#' in the URL or the path can be read either way.
  function Key(inst: Endpoint): string
  {
    inst.url + "#" + inst.apiPath
  }

  function WithPath(inst: Endpoint): Endpoint
  {
    if inst.apiPath == "" then inst.(apiPath := DEFAULT_API_PATH) else inst
  }

  // The configured instances in the order they are considered: the single replica, then the list.
  function AllConfigured(replica: Option<Endpoint>, replicas: seq<Endpoint>): seq<Endpoint>
  {
    (if replica.Some? then [replica.value] else []) + replicas
  }

  // The first n configured instances that have a URL, by key; the last one wins.
  function Dedup(insts: seq<Endpoint>, n: nat): (m: map<string, Endpoint>)
    requires n <= |insts|
    ensures forall k | k in m :: Key(m[k]) == k && m[k].url != "" && m[k].apiPath != ""
  {
    if n == 0 then map[]
    else if insts[n - 1].url == "" then Dedup(insts, n - 1)
    else Dedup(insts, n - 1)[Key(WithPath(insts[n - 1])) := WithPath(insts[n - 1])]
  }

  // The values of a map of instances, each once, in any order.
  ghost predicate Lists(r: seq<Endpoint>, m: map<string, Endpoint>)
  {
    && (forall i, j | 0 <= i < j < |r| :: Key(r[i]) != Key(r[j]))
    && (forall i | 0 <= i < |r| :: Key(r[i]) in m && m[Key(r[i])] == r[i])
    && (forall k | k in m :: HasKey(r, k))
  }

  predicate HasKey(r: seq<Endpoint>, k: string)
  {
    exists i :: 0 <= i < |r| && Key(r[i]) == k
  }

  class ReplicaConfig {
    var replica: Option<Endpoint>
    const replicas: seq<Endpoint>

    constructor (replica: Option<Endpoint>, replicas: seq<Endpoint>)
      ensures this.replica == replica && this.replicas == replicas
    {
      this.replica, this.replicas := replica, replicas;
    }

    // Fills in the default path of the single replica in place, of the others in copies.
    method UniqueReplicas() returns (r: seq<Endpoint>)
      modifies this
      ensures replica ==
              if old(replica).Some? && old(replica).value.url != "" then Some(WithPath(old(replica).value))
              else old(replica)
      ensures var insts := AllConfigured(old(replica), replicas); Lists(r, Dedup(insts, |insts|))
    {
      hide Key, Lists;
      ghost var insts := AllConfigured(replica, replicas);
      ghost var first := if replica.Some? then 1 else 0;
      var dedup := map[];
      if replica.Some? && replica.value.url != "" {
        if replica.value.apiPath == "" { replica := Some(replica.value.(apiPath := DEFAULT_API_PATH)); }
        dedup := dedup[Key(replica.value) := replica.value];
      }
      assert dedup == Dedup(insts, first);
      for i := 0 to |replicas|
        invariant dedup == Dedup(insts, first + i)
      {
        var inst := replicas[i];
        assert insts[first + i] == inst;
        if inst.apiPath == "" { inst := inst.(apiPath := DEFAULT_API_PATH); }
        if inst.url != "" { dedup := dedup[Key(inst) := inst]; }
      }
      r := RangeOver(dedup);
    }
  }

  method RangeOver(m: map<string, Endpoint>) returns (r: seq<Endpoint>)
    requires forall k | k in m :: Key(m[k]) == k
    ensures Lists(r, m)
  {
    hide Key;
    r := [];
    var rest := m;
    while rest != map[]
      invariant forall k | k in rest :: k in m && rest[k] == m[k]
      invariant Lists(r, m - rest.Keys)
      decreases |rest|
    {
      var k :| k in rest;
      ListsOne(r, m - rest.Keys, rest[k]);
      assert m - (rest - {k}).Keys == (m - rest.Keys)[k := m[k]];
      r := r + [rest[k]];
      assert (rest - {k}).Keys == rest.Keys - {k};
      rest := rest - {k};
    }
    assert m - rest.Keys == m;
  }

  lemma ListsOne(r: seq<Endpoint>, m: map<string, Endpoint>, inst: Endpoint)
    requires Lists(r, m) && Key(inst) !in m
    ensures Lists(r + [inst], m[Key(inst) := inst])
  {
    hide Key;
    forall k | k in m[Key(inst) := inst] ensures HasKey(r + [inst], k) {
      if k == Key(inst) {
        assert Key((r + [inst])[|r|]) == k;
      } else {
        var i :| 0 <= i < |r| && Key(r[i]) == k;
        assert Key((r + [inst])[i]) == k;
      }
    }
  }

  // ---- What the list of replicas is ----

  lemma {:induction false} DedupHas(insts: seq<Endpoint>, n: nat, i: nat)
    requires i < n <= |insts| && insts[i].url != ""
    ensures Key(WithPath(insts[i])) in Dedup(insts, n)
    ensures (forall j | i < j < n && insts[j].url != "" :: Key(WithPath(insts[j])) != Key(WithPath(insts[i])))
            ==> Dedup(insts, n)[Key(WithPath(insts[i]))] == WithPath(insts[i])
  {
    hide Key, WithPath;
    if i < n - 1 { DedupHas(insts, n - 1, i); }
  }

  lemma {:induction false} DedupFrom(insts: seq<Endpoint>, n: nat, k: string) returns (i: nat)
    requires n <= |insts| && k in Dedup(insts, n)
    ensures i < n && insts[i].url != "" && Dedup(insts, n)[k] == WithPath(insts[i])
  {
    if insts[n - 1].url != "" && Key(WithPath(insts[n - 1])) == k {
      i := n - 1;
    } else {
      i := DedupFrom(insts, n - 1, k);
    }
  }

  // Pairwise distinct keys, a URL and a path each; every configured instance with a URL
  // is covered by one of the same key, by itself if it is the last of that key; and
  // nothing else is there.
  lemma UniqueReplicasMeans(insts: seq<Endpoint>, r: seq<Endpoint>)
    requires Lists(r, Dedup(insts, |insts|))
    ensures forall i, j | 0 <= i < j < |r| :: Key(r[i]) != Key(r[j])
    ensures forall i | 0 <= i < |r| :: r[i].url != "" && r[i].apiPath != ""
    ensures forall i | 0 <= i < |insts| && insts[i].url != "" :: HasKey(r, Key(WithPath(insts[i])))
    ensures forall i | 0 <= i < |insts| && LastOfKey(insts, i) :: WithPath(insts[i]) in r
    ensures forall x | x in r :: exists i :: 0 <= i < |insts| && insts[i].url != "" && x == WithPath(insts[i])
  {
    hide Key, WithPath;
    var m := Dedup(insts, |insts|);
    forall i | 0 <= i < |insts| && insts[i].url != "" ensures HasKey(r, Key(WithPath(insts[i]))) {
      DedupHas(insts, |insts|, i);
    }
    forall i | 0 <= i < |insts| && LastOfKey(insts, i) ensures WithPath(insts[i]) in r {
      DedupHas(insts, |insts|, i);
      var p :| 0 <= p < |r| && Key(r[p]) == Key(WithPath(insts[i]));
    }
    forall x | x in r ensures exists i :: 0 <= i < |insts| && insts[i].url != "" && x == WithPath(insts[i]) {
      var i := DedupFrom(insts, |insts|, Key(x));
    }
  }

  predicate LastOfKey(insts: seq<Endpoint>, i: nat)
    requires i < |insts|
  {
    insts[i].url != "" &&
    forall j | i < j < |insts| && insts[j].url != "" :: Key(WithPath(insts[j])) != Key(WithPath(insts[i]))
  }

  // A list that already is one is its own result, up to order.
  lemma UniqueReplicasTwice(insts: seq<Endpoint>, r: seq<Endpoint>, again: seq<Endpoint>)
    requires Lists(r, Dedup(insts, |insts|)) && Lists(again, Dedup(r, |r|))
    ensures forall x :: x in again <==> x in r
  {
    hide Key;
    UniqueReplicasMeans(insts, r);
    UniqueReplicasMeans(r, again);
    forall i | 0 <= i < |r| ensures LastOfKey(r, i) {}
  }

  // The list beats the single replica.
  lemma ListBeatsSingle(replica: Endpoint, replicas: seq<Endpoint>, r: seq<Endpoint>, i: nat)
    requires var insts := AllConfigured(Some(replica), replicas); Lists(r, Dedup(insts, |insts|))
    requires i < |replicas| && LastOfKey(replicas, i) && Key(WithPath(replicas[i])) == Key(WithPath(replica))
    ensures WithPath(replicas[i]) in r
    ensures WithPath(replica) in r ==> WithPath(replica) == WithPath(replicas[i])
  {
    hide Key, WithPath;
    var insts := AllConfigured(Some(replica), replicas);
    UniqueReplicasMeans(insts, r);
    assert insts[i + 1] == replicas[i];
    forall j | i + 1 < j < |insts| && insts[j].url != ""
      ensures Key(WithPath(insts[j])) != Key(WithPath(insts[i + 1]))
    {
      assert insts[j] == replicas[j - 1];
    }
  }

  // ---- Replicas by URL and path ----

  function PathOf(a: Endpoint): string
  {
    if |a.apiPath| > 0 then a.apiPath else "/control"
  }

  predicate SameTarget(a: Endpoint, b: Endpoint)
  {
    a.url == b.url && PathOf(a) == PathOf(b)
  }

  ghost predicate PlainReplicas(insts: seq<Endpoint>, r: seq<Endpoint>)
  {
    Lists(r, Dedup(insts, |insts|)) && forall i | 0 <= i < |insts| :: '#' !in insts[i].url
  }

  lemma TakenFrom(insts: seq<Endpoint>, r: seq<Endpoint>, x: Endpoint) returns (i: nat)
    requires PlainReplicas(insts, r) && x in r
    ensures i < |insts| && insts[i].url != "" && x == insts[i].(apiPath := PathOf(insts[i]))
    ensures '#' !in x.url && WithPath(x) == x
  {
    UniqueReplicasMeans(insts, r);
    hide Key, Dedup, Lists, HasKey, LastOfKey;
    i :| 0 <= i < |insts| && insts[i].url != "" && x == WithPath(insts[i]);
  }

  lemma TargetsDiffer(insts: seq<Endpoint>, r: seq<Endpoint>, i: nat, j: nat)
    requires PlainReplicas(insts, r) && i < j < |r|
    ensures !SameTarget(r[i], r[j])
  {
    UniqueReplicasMeans(insts, r);
    hide Key, WithPath, SameTarget;
    var a := TakenFrom(insts, r, r[i]);
    var b := TakenFrom(insts, r, r[j]);
    TargetsByKey(r[i], r[j]);
  }

  lemma TargetCovered(insts: seq<Endpoint>, r: seq<Endpoint>, i: nat) returns (x: Endpoint)
    requires PlainReplicas(insts, r) && i < |insts| && insts[i].url != ""
    ensures x in r && SameTarget(insts[i], x)
  {
    UniqueReplicasMeans(insts, r);
    hide Key, WithPath, SameTarget, Dedup, Lists;
    assert HasKey(r, Key(WithPath(insts[i])));
    var p :| 0 <= p < |r| && Key(r[p]) == Key(WithPath(insts[i]));
    x := r[p];
    var from := TakenFrom(insts, r, x);
    TargetsByKey(insts[i], x);
  }

  lemma LastTargetStays(insts: seq<Endpoint>, r: seq<Endpoint>, i: nat)
    requires PlainReplicas(insts, r) && i < |insts| && insts[i].url != ""
    requires forall j | i < j < |insts| :: !SameTarget(insts[j], insts[i])
    ensures insts[i].(apiPath := PathOf(insts[i])) in r
  {
    UniqueReplicasMeans(insts, r);
    PathFilledIn(insts[i]);
    hide Key, WithPath, SameTarget, Dedup, Lists, HasKey;
    forall j | i < j < |insts| && insts[j].url != "" ensures Key(WithPath(insts[j])) != Key(WithPath(insts[i])) {
      TargetsByKey(insts[j], insts[i]);
    }
    assert LastOfKey(insts, i);
  }

  lemma TargetsByKey(a: Endpoint, b: Endpoint)
    requires '#' !in a.url && '#' !in b.url
    ensures Key(WithPath(a)) == Key(WithPath(b)) <==> SameTarget(a, b)
  {
    Meanings.SplitAtMark('#', a.url, WithPath(a).apiPath, b.url, WithPath(b).apiPath);
  }

  lemma PathFilledIn(a: Endpoint)
    ensures WithPath(a) == a.(apiPath := PathOf(a))
  {}

  predicate HasTarget(insts: seq<Endpoint>, a: Endpoint)
  {
    exists p :: 0 <= p < |insts| && SameTarget(insts[p], a)
  }

  predicate LastOfTarget(insts: seq<Endpoint>, i: nat)
    requires i < |insts|
  {
    insts[i].url != "" && forall j | i < j < |insts| :: !SameTarget(insts[j], insts[i])
  }

  lemma TargetsKept(insts: seq<Endpoint>, r: seq<Endpoint>, a: Endpoint)
    requires PlainReplicas(insts, r)
    ensures HasTarget(r, a) <==> a.url != "" && HasTarget(insts, a)
  {
    hide PlainReplicas;
    if HasTarget(r, a) {
      var p :| 0 <= p < |r| && SameTarget(r[p], a);
      var i := TakenFrom(insts, r, r[p]);
      assert SameTarget(insts[i], a);
    }
    if a.url != "" && HasTarget(insts, a) {
      var i :| 0 <= i < |insts| && SameTarget(insts[i], a);
      var x := TargetCovered(insts, r, i);
      var p :| 0 <= p < |r| && r[p] == x;
      assert SameTarget(r[p], a);
    }
  }

  // The replicas are the configured targets, each once; of several instances with the same
  // URL and path it is the last one, with the path filled in. No URL holds a '#' here.
  lemma EachTargetOnce(insts: seq<Endpoint>, r: seq<Endpoint>)
    requires PlainReplicas(insts, r)
    ensures forall i, j | 0 <= i < j < |r| :: !SameTarget(r[i], r[j])
    ensures forall a :: HasTarget(r, a) <==> a.url != "" && HasTarget(insts, a)
    ensures forall i | 0 <= i < |insts| && LastOfTarget(insts, i) :: insts[i].(apiPath := PathOf(insts[i])) in r
  {
    hide PlainReplicas, HasTarget, SameTarget, PathOf;
    forall i, j | 0 <= i < j < |r| ensures !SameTarget(r[i], r[j]) { TargetsDiffer(insts, r, i, j); }
    forall a ensures HasTarget(r, a) <==> a.url != "" && HasTarget(insts, a) { TargetsKept(insts, r, a); }
    forall i | 0 <= i < |insts| && LastOfTarget(insts, i) ensures insts[i].(apiPath := PathOf(insts[i])) in r {
      LastTargetStays(insts, r, i);
    }
  }
}
