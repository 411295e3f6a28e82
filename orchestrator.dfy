/**
 * listResourcesVSphere: run the list functions in order, stop at the first
 * error, and otherwise merge every tracker into a map keyed by its tracker key.
 */
module Orchestrator {
  import opened Wrappers
  import opened Provider
  import opened Tracker
  import opened Discovery

  /** ClusterResources, as far as the vSphere listing uses it. */
  datatype ClusterResources<R> = ClusterResources(cloud: VSphereCloud<R>, clusterName: string)

  /** The listing each registered function would return, in registration order. */
  function Listings<R>(fns: seq<ListFn>, d: ClusterDiscovery<R>): seq<Listing<R>>
  {
    seq(|fns|, i requires 0 <= i < |fns| => Discover(fns[i], d))
  }

  /** The position of the first listing that reports an error, or |ls| when none does. */
  function FirstError<R>(ls: seq<Listing<R>>): (k: nat)
    ensures k <= |ls|
    ensures forall j :: 0 <= j < k ==> ls[j].err.None?
    ensures k < |ls| ==> ls[k].err.Some?
  {
    if ls == [] then 0
    else if ls[0].err.Some? then 0
    else 1 + FirstError(ls[1..])
  }

  /** The contract of FirstError determines it: no error before i and an error at i (or the end). */
  lemma {:induction false} FirstErrorIs<R>(ls: seq<Listing<R>>, i: nat)
    requires i <= |ls|
    requires forall j :: 0 <= j < i ==> ls[j].err.None?
    requires i < |ls| ==> ls[i].err.Some?
    ensures FirstError(ls) == i
  {
  }

  /** All trackers of the listings, in iteration order. */
  function Flatten<R>(ls: seq<Listing<R>>): seq<Resource<R>>
  {
    if ls == [] then [] else Flatten(ls[..|ls| - 1]) + ls[|ls| - 1].trackers
  }

  /** A tracker is in the flattened sequence exactly when some listing holds it. */
  lemma {:induction false} FlattenMembers<R>(ls: seq<Listing<R>>, t: Resource<R>)
    ensures t in Flatten(ls) <==> exists j :: 0 <= j < |ls| && t in ls[j].trackers
  {
    if ls != [] {
      var init := ls[..|ls| - 1];
      FlattenMembers(init, t);
      if j :| 0 <= j < |init| && t in init[j].trackers {
        assert t in ls[j].trackers;
      }
      if j :| 0 <= j < |ls| - 1 && t in ls[j].trackers {
        assert t in init[j].trackers;
      }
    }
  }

  /**
   * The map the merge loop builds: each tracker is written under its key in
   * turn, so a later tracker overwrites an earlier one with the same key.
   */
  function Merge<R>(ts: seq<Resource<R>>): (m: map<string, Resource<R>>)
    ensures ts != [] ==> Key(ts[|ts| - 1]) in m && m[Key(ts[|ts| - 1])] == ts[|ts| - 1]
  {
    if ts == [] then map[]
    else
      var last := ts[|ts| - 1];
      Merge(ts[..|ts| - 1])[Key(last) := last]
  }

  /** The merged map's keys are exactly the trackers' keys, so it has at most one entry per tracker. */
  lemma {:induction false} MergeKeys<R>(ts: seq<Resource<R>>)
    ensures Merge(ts).Keys == KeySet(ts)
    ensures |Merge(ts)| <= |ts|
  {
    if ts != [] {
      MergeKeys(ts[..|ts| - 1]);
    }
  }

  /** The keys of the trackers, as a set. */
  function KeySet<R>(ts: seq<Resource<R>>): (ks: set<string>)
    ensures |ks| <= |ts|
  {
    if ts == [] then {} else KeySet(ts[..|ts| - 1]) + {Key(ts[|ts| - 1])}
  }

  /** A key is in the set exactly when some tracker carries it. */
  lemma {:induction false} KeySetMembers<R>(ts: seq<Resource<R>>, k: string)
    ensures k in KeySet(ts) <==> exists i :: 0 <= i < |ts| && Key(ts[i]) == k
  {
    if ts != [] {
      var init := ts[..|ts| - 1];
      KeySetMembers(init, k);
      if k in KeySet(init) {
        var i :| 0 <= i < |init| && Key(init[i]) == k;
        assert Key(ts[i]) == k;
      }
      if i :| 0 <= i < |ts| - 1 && Key(ts[i]) == k {
        assert Key(init[i]) == k;
      }
    }
  }

  /** Last write wins: a key maps to the last tracker carrying it. */
  lemma {:induction false} MergeLastWins<R>(ts: seq<Resource<R>>, i: nat)
    requires i < |ts|
    requires forall j :: i < j < |ts| ==> Key(ts[j]) != Key(ts[i])
    ensures Key(ts[i]) in Merge(ts) && Merge(ts)[Key(ts[i])] == ts[i]
  {
    if i < |ts| - 1 {
      var init := ts[..|ts| - 1];
      assert forall j :: i < j < |init| ==> init[j] == ts[j];
      MergeLastWins(init, i);
    }
  }

  /** Every value of the merged map is a tracker that was listed, and is the last with its key. */
  lemma {:induction false} MergeValueIsLast<R>(ts: seq<Resource<R>>, k: string)
    requires k in Merge(ts)
    ensures exists i :: 0 <= i < |ts| && ts[i] == Merge(ts)[k] && Key(ts[i]) == k &&
                        forall j :: i < j < |ts| ==> Key(ts[j]) != k
  {
    var init := ts[..|ts| - 1];
    var last := ts[|ts| - 1];
    if Key(last) == k {
      assert ts[|ts| - 1] == Merge(ts)[k];
    } else {
      MergeValueIsLast(init, k);
      var i :| 0 <= i < |init| && init[i] == Merge(init)[k] && Key(init[i]) == k &&
               forall j :: i < j < |init| ==> Key(init[j]) != k;
      assert ts[i] == Merge(ts)[k];
      assert forall j :: i < j < |ts| ==> Key(ts[j]) != k by {
        forall j | i < j < |ts| ensures Key(ts[j]) != k {
          if j < |init| { assert init[j] == ts[j]; }
        }
      }
    }
  }

  /**
   * Every tracker of every listing has its key in the merged map, the map
   * holds no key that no tracker carries, and it is no larger than the
   * number of trackers.
   */
  lemma MergedListingsKeys<R>(ls: seq<Listing<R>>)
    ensures var m := Merge(Flatten(ls));
            && (forall j, t :: 0 <= j < |ls| && t in ls[j].trackers ==> Key(t) in m)
            && (forall k :: k in m ==> exists j, t :: 0 <= j < |ls| && t in ls[j].trackers && Key(t) == k)
            && |m| <= |Flatten(ls)|
  {
    var ts := Flatten(ls);
    var m := Merge(ts);
    MergeKeys(ts);
    forall j, t | 0 <= j < |ls| && t in ls[j].trackers ensures Key(t) in m {
      FlattenMembers(ls, t);
      var i :| 0 <= i < |ts| && ts[i] == t;
      KeySetMembers(ts, Key(t));
    }
    forall k | k in m ensures exists j, t :: 0 <= j < |ls| && t in ls[j].trackers && Key(t) == k {
      KeySetMembers(ts, k);
      var i :| 0 <= i < |ts| && Key(ts[i]) == k;
      FlattenMembers(ls, ts[i]);
    }
  }

  /** Key uniqueness: every tracker in the merged map is stored under its own key. */
  lemma {:induction false} MergeKeyConsistent<R>(ts: seq<Resource<R>>, k: string)
    requires k in Merge(ts)
    ensures Key(Merge(ts)[k]) == k
  {
    var last := ts[|ts| - 1];
    if Key(last) != k {
      MergeKeyConsistent(ts[..|ts| - 1], k);
    }
  }

  /** Writing the next tracker of a listing into the merged map is merging one tracker more. */
  lemma MergeStep<R>(before: seq<Resource<R>>, ts: seq<Resource<R>>, j: nat)
    requires j < |ts|
    ensures Merge(before + ts[..j + 1]) == Merge(before + ts[..j])[Key(ts[j]) := ts[j]]
  {
    var longer := before + ts[..j + 1];
    assert longer[..|longer| - 1] == before + ts[..j];
  }

  /** Flattening one more listing appends its trackers. */
  lemma FlattenSnoc<R>(ls: seq<Listing<R>>, i: nat)
    requires i < |ls|
    ensures Flatten(ls[..i + 1]) == Flatten(ls[..i]) + ls[i].trackers
  {
    assert ls[..i + 1][..i] == ls[..i];
  }

  /**
   * The merge loop of listResourcesVSphere. `invoked` counts the list
   * functions that were called: the first one to fail is the last called.
   */
  method ListResources<R>(fns: seq<ListFn>, d: ClusterDiscovery<R>)
    returns (resources: Option<map<string, Resource<R>>>, err: Option<Error>, invoked: nat)
    ensures var ls := Listings(fns, d);
            var k := FirstError(ls);
            && (k < |ls| ==> resources == None && err == ls[k].err && invoked == k + 1)
            && (k == |ls| ==> resources == Some(Merge(Flatten(ls))) && err == None && invoked == |ls|)
  {
    ghost var ls := Listings(fns, d);
    var m: map<string, Resource<R>> := map[];
    invoked := 0;
    while invoked < |fns|
      invariant invoked <= |fns|
      invariant forall j :: 0 <= j < invoked ==> ls[j].err.None?
      invariant m == Merge(Flatten(ls[..invoked]))
    {
      var trackers: seq<Resource<R>>, e: Option<Error>;
      match fns[invoked] {
        case ListVMs => trackers, e := ListVMsOf(d);
      }
      assert Listing(trackers, e) == ls[invoked];
      if e.Some? {
        FirstErrorIs(ls, invoked);
        return None, e, invoked + 1;
      }
      ghost var before := Flatten(ls[..invoked]);
      var j := 0;
      assert before + trackers[..0] == before;
      while j < |trackers|
        invariant j <= |trackers|
        invariant m == Merge(before + trackers[..j])
      {
        MergeStep(before, trackers, j);
        m := m[Key(trackers[j]) := trackers[j]];
        j := j + 1;
      }
      FlattenSnoc(ls, invoked);
      assert trackers[..j] == trackers;
      invoked := invoked + 1;
    }
    FirstErrorIs(ls, |ls|);
    assert ls[..|ls|] == ls;
    return Some(m), None, invoked;
  }

  /** listResourcesVSphere: listVMs is the only list function registered. */
  method ListResourcesVSphere<R>(c: ClusterResources<R>)
    returns (resources: Option<map<string, Resource<R>>>, err: Option<Error>)
    ensures var l := VMListing(ClusterDiscovery(c.cloud, c.clusterName));
            && (l.err.Some? ==> resources == None && err == l.err)
            && (l.err.None? ==> resources == Some(Merge(l.trackers)) && err == None)
  {
    var d := ClusterDiscovery(c.cloud, c.clusterName);
    var invoked;
    resources, err, invoked := ListResources([ListVMs], d);
    ghost var ls := Listings([ListVMs], d);
    assert ls == [VMListing(d)];
    assert ls[..0] == [];
    if err.None? {
      FlattenSnoc(ls, 0);
      assert ls[..1] == ls;
      assert Flatten(ls) == ls[0].trackers;
    }
  }

  /** Cluster "prod" with one master and one node VM lists exactly their two VM keys. */
  lemma ProdScenario<R>(c: ClusterResources<R>, m1: R, n2: R)
    requires c.clusterName == "prod"
    requires c.cloud.getVirtualMachines(VMPatterns("prod")) ==
             QueryReply([VirtualMachine("masters.prod.i-1", m1), VirtualMachine("nodes.prod.i-2", n2)], None)
    ensures var l := VMListing(ClusterDiscovery(c.cloud, c.clusterName));
            l.err == None && Merge(l.trackers).Keys == {"VM:" + "masters.prod.i-1", "VM:" + "nodes.prod.i-2"}
  {
    var vm1, vm2 := VirtualMachine("masters.prod.i-1", m1), VirtualMachine("nodes.prod.i-2", n2);
    var t1, t2 := VMTracker(vm1), VMTracker(vm2);
    var l := VMListing(ClusterDiscovery(c.cloud, c.clusterName));
    assert |l.trackers| == 2 && l.trackers[0] == t1 && l.trackers[1] == t2;
    assert l.trackers == [t1, t2];
    MergeTwoKeys(t1, t2);
  }

  /** Merging two trackers yields the keys of both. */
  lemma MergeTwoKeys<R>(t1: Resource<R>, t2: Resource<R>)
    ensures Merge([t1, t2]).Keys == {Key(t1), Key(t2)}
  {
    assert [t1, t2][..1] == [t1] && [t1][..0] == [];
    assert Merge([t1]) == map[Key(t1) := t1];
  }
}
