/**
 * The initial-cluster address list: this unit's own entry plus one per peer
 * unit that has published its ingress address, each `name=http://addr:2380`.
 * The units' addresses are gathered in a Python dict keyed by unit name with
 * its slashes removed, so the model keeps a dict's insertion order and its
 * overwrite-in-place rule.
 */
module Addresses {
  import opened Text

  const IngressAddressKey: string := "ingress-address"
  const ClusterPort: nat := 2380

  /** A remote unit of the peer relation: its name and its unit databag. */
  datatype PeerUnit = PeerUnit(name: string, databag: map<string, string>)

  /** A dict from strings to strings, as its items in insertion order. */
  type Entries = seq<(string, string)>

  /** The keys of a dict, as a set. */
  function Keys(d: Entries): set<string>
  {
    if d == [] then {} else {d[0].0} + Keys(d[1..])
  }

  /** No key occurs twice, as in every dict. */
  predicate DistinctKeys(d: Entries)
  {
    d == [] || (d[0].0 !in Keys(d[1..]) && DistinctKeys(d[1..]))
  }

  /** Every key of a dict is among its keys. */
  lemma {:induction false} KeysIndex(d: Entries, i: nat)
    requires i < |d|
    ensures d[i].0 in Keys(d)
  {
    if i > 0 {
      KeysIndex(d[1..], i - 1);
    }
  }

  /** `d[k] = v`: a key already there keeps its place and takes the new value; a new key goes last. */
  function Put(d: Entries, k: string, v: string): (r: Entries)
    ensures Keys(r) == Keys(d) + {k}
    ensures (k, v) in r
    ensures DistinctKeys(d) ==> DistinctKeys(r)
    ensures k !in Keys(d) ==> r == d + [(k, v)]
    ensures k in Keys(d) ==> |r| == |d|
    ensures |d| > 0 ==> r[0].0 == d[0].0
  {
    if d == [] then [(k, v)]
    else if d[0].0 == k then [(k, v)] + d[1..]
    else
      var rest := Put(d[1..], k, v);
      assert k !in Keys(d) ==> [d[0]] + (d[1..] + [(k, v)]) == d + [(k, v)];
      [d[0]] + rest
  }

  /** Assigning to a key a dict holds changes that item's value in place and leaves every other item as it was. */
  lemma {:induction false} PutInPlace(d: Entries, k: string, v: string)
    requires DistinctKeys(d) && k in Keys(d)
    ensures |Put(d, k, v)| == |d|
    ensures forall i :: 0 <= i < |d| ==> Put(d, k, v)[i] == (if d[i].0 == k then (k, v) else d[i])
  {
    var r := Put(d, k, v);
    if d[0].0 == k {
      forall i | 1 <= i < |d| ensures d[i].0 != k {
        KeysIndex(d[1..], i - 1);
      }
    } else {
      PutInPlace(d[1..], k, v);
      assert r == [d[0]] + Put(d[1..], k, v);
      forall i | 1 <= i < |d| ensures r[i] == (if d[i].0 == k then (k, v) else d[i]) {
        assert r[i] == Put(d[1..], k, v)[i - 1];
        assert d[i] == d[1..][i - 1];
      }
    }
  }

  /** The dict after the loop over the peers: each peer that published an address puts it under its name. */
  function Collect(init: Entries, peers: seq<PeerUnit>): Entries
    decreases |peers|
  {
    if peers == [] then init
    else
      var d := Collect(init, peers[..|peers| - 1]);
      var unit := peers[|peers| - 1];
      if IngressAddressKey in unit.databag then Put(d, RemoveSlashes(unit.name), unit.databag[IngressAddressKey])
      else d
  }

  /** The `unit_data` dict of `_render_cluster_addresses`. */
  function UnitAddresses(unitName: string, podIp: string, peers: seq<PeerUnit>, currentPodOnly: bool): Entries
  {
    var own := [(RemoveSlashes(unitName), podIp)];
    if currentPodOnly then own else Collect(own, peers)
  }

  /** One entry of the initial-cluster list. */
  function AddressEntry(name: string, address: string): string
  {
    name + "=http://" + address + ":" + DecimalString(ClusterPort)
  }

  /** An entry spelled out: `name=http://address:2380`. */
  lemma AddressEntryText(name: string, address: string)
    ensures AddressEntry(name, address) == name + "=http://" + address + ":2380"
  {
    PortStrings();
  }

  /** The list `_render_cluster_addresses` returns, one entry per item of the dict, in its order. */
  function ClusterAddresses(unitName: string, podIp: string, peers: seq<PeerUnit>, currentPodOnly: bool): (r: seq<string>)
  {
    var d := UnitAddresses(unitName, podIp, peers, currentPodOnly);
    seq(|d|, i requires 0 <= i < |d| => AddressEntry(d[i].0, d[i].1))
  }

  /** The names under which the peers publish an address. */
  function PublishedNames(peers: seq<PeerUnit>): set<string>
  {
    set i | 0 <= i < |peers| && IngressAddressKey in peers[i].databag :: RemoveSlashes(peers[i].name)
  }

  /** The peers' published entries in relation order, one per publishing peer. */
  function Published(peers: seq<PeerUnit>): Entries
    decreases |peers|
  {
    if peers == [] then []
    else
      var unit := peers[|peers| - 1];
      Published(peers[..|peers| - 1])
        + (if IngressAddressKey in unit.databag then [(RemoveSlashes(unit.name), unit.databag[IngressAddressKey])] else [])
  }

  /** Peers whose names stay distinct once slashes are removed, and differ from `own`. */
  predicate DistinctNames(own: string, peers: seq<PeerUnit>)
  {
    && (forall i :: 0 <= i < |peers| ==> RemoveSlashes(peers[i].name) != own)
    && (forall i, j :: 0 <= i < j < |peers| ==> RemoveSlashes(peers[i].name) != RemoveSlashes(peers[j].name))
  }

  lemma PublishedNamesSplit(peers: seq<PeerUnit>)
    requires peers != []
    ensures var unit := peers[|peers| - 1];
            PublishedNames(peers) == PublishedNames(peers[..|peers| - 1])
              + (if IngressAddressKey in unit.databag then {RemoveSlashes(unit.name)} else {})
  {
    var front := peers[..|peers| - 1];
    forall i | 0 <= i < |front| ensures front[i] == peers[i] { }
  }

  /** The dict's keys are the initial keys and the published names, each once. */
  lemma {:induction false} CollectKeys(init: Entries, peers: seq<PeerUnit>)
    requires DistinctKeys(init)
    ensures Keys(Collect(init, peers)) == Keys(init) + PublishedNames(peers)
    ensures DistinctKeys(Collect(init, peers))
    ensures |init| > 0 ==> |Collect(init, peers)| > 0 && Collect(init, peers)[0].0 == init[0].0
    decreases |peers|
  {
    if peers != [] {
      CollectKeys(init, peers[..|peers| - 1]);
      PublishedNamesSplit(peers);
    }
  }

  /** A dict has as many items as keys. */
  lemma {:induction false} DistinctKeysCount(d: Entries)
    requires DistinctKeys(d)
    ensures |Keys(d)| == |d|
  {
    if d != [] {
      DistinctKeysCount(d[1..]);
    }
  }

  /** With `currentPodOnly` the list is exactly this unit's own entry. */
  lemma CurrentPodOnly(unitName: string, podIp: string, peers: seq<PeerUnit>)
    ensures ClusterAddresses(unitName, podIp, peers, true) == [AddressEntry(RemoveSlashes(unitName), podIp)]
  {
  }

  /**
   * The full list is longer than one entry exactly when some peer has
   * published an address under a name other than this unit's.
   */
  lemma AddressesBeyondOwn(unitName: string, podIp: string, peers: seq<PeerUnit>)
    ensures |ClusterAddresses(unitName, podIp, peers, false)| > 1
        <==> exists i :: 0 <= i < |peers| && IngressAddressKey in peers[i].databag
                                            && RemoveSlashes(peers[i].name) != RemoveSlashes(unitName)
  {
    var own := RemoveSlashes(unitName);
    var init := [(own, podIp)];
    var d := Collect(init, peers);
    assert Keys(init) == {own};
    CollectKeys(init, peers);
    DistinctKeysCount(d);
    if exists i :: 0 <= i < |peers| && IngressAddressKey in peers[i].databag && RemoveSlashes(peers[i].name) != own {
      var i :| 0 <= i < |peers| && IngressAddressKey in peers[i].databag && RemoveSlashes(peers[i].name) != own;
      var other := RemoveSlashes(peers[i].name);
      assert {own, other} <= Keys(d);
      assert |{own, other}| == 2;
      assert |{own, other}| <= |Keys(d)| by { SubsetCard({own, other}, Keys(d)); }
    } else {
      assert Keys(d) == {own};
    }
  }

  lemma SubsetCard(a: set<string>, b: set<string>)
    requires a <= b
    ensures |a| <= |b|
  {
    assert b == a + (b - a);
  }

  /**
   * When the peers' names are distinct and differ from this unit's, the
   * dict is this unit's entry followed by each publishing peer's entry in
   * relation order; peers without an ingress address are skipped.
   */
  lemma {:induction false} CollectDistinct(own: string, podIp: string, peers: seq<PeerUnit>)
    requires DistinctNames(own, peers)
    ensures Collect([(own, podIp)], peers) == [(own, podIp)] + Published(peers)
    decreases |peers|
  {
    if peers != [] {
      var front := peers[..|peers| - 1];
      var unit := peers[|peers| - 1];
      assert DistinctNames(own, front) by {
        forall i | 0 <= i < |front| ensures front[i] == peers[i] { }
      }
      CollectDistinct(own, podIp, front);
      if IngressAddressKey in unit.databag {
        var name := RemoveSlashes(unit.name);
        CollectKeys([(own, podIp)], front);
        assert Keys([(own, podIp)]) == {own};
        assert name !in PublishedNames(front) by {
          forall i | 0 <= i < |front| ensures RemoveSlashes(front[i].name) != name {
            assert front[i] == peers[i];
          }
        }
        assert ([(own, podIp)] + Published(front)) + [(name, unit.databag[IngressAddressKey])]
            == [(own, podIp)] + (Published(front) + [(name, unit.databag[IngressAddressKey])]);
      } else {
        assert Published(front) + [] == Published(front);
      }
    }
  }

  /** Under distinct names, every publishing peer has its entry in the list, after this unit's own. */
  lemma PeerEntryListed(unitName: string, podIp: string, peers: seq<PeerUnit>, i: nat)
    requires DistinctNames(RemoveSlashes(unitName), peers)
    requires i < |peers| && IngressAddressKey in peers[i].databag
    ensures [AddressEntry(RemoveSlashes(unitName), podIp)] <= ClusterAddresses(unitName, podIp, peers, false)
    ensures AddressEntry(RemoveSlashes(peers[i].name), peers[i].databag[IngressAddressKey]) in ClusterAddresses(unitName, podIp, peers, false)
  {
    var own := RemoveSlashes(unitName);
    CollectDistinct(own, podIp, peers);
    PublishedContains(peers, i);
    var d := UnitAddresses(unitName, podIp, peers, false);
    var e := (RemoveSlashes(peers[i].name), peers[i].databag[IngressAddressKey]);
    var k :| 0 <= k < |Published(peers)| && Published(peers)[k] == e;
    assert d[k + 1] == e;
    assert ClusterAddresses(unitName, podIp, peers, false)[k + 1] == AddressEntry(e.0, e.1);
    assert d[0] == (own, podIp);
  }

  lemma {:induction false} PublishedContains(peers: seq<PeerUnit>, i: nat)
    requires i < |peers| && IngressAddressKey in peers[i].databag
    ensures (RemoveSlashes(peers[i].name), peers[i].databag[IngressAddressKey]) in Published(peers)
    decreases |peers|
  {
    if i < |peers| - 1 {
      var front := peers[..|peers| - 1];
      assert front[i] == peers[i];
      PublishedContains(front, i);
    }
  }
}
