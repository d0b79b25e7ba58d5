/** `peer_ids_set_from` (crates/services/p2p/src/config.rs): the set of peer
    identities embedded in a list of reserved or bootstrap addresses. */
module PeerIds {
  import opened Wrappers
  import opened P2PConfig

  /** Every address carries a peer id: what the node assumes of its configured
      reserved and bootstrap addresses. */
  ghost predicate AllCarryPeerId(addrs: seq<Multiaddr>, peerIdOf: Multiaddr -> Option<PeerId>)
  {
    forall i :: 0 <= i < |addrs| ==> peerIdOf(addrs[i]).Some?
  }

  /** Every address before position `k` carries a peer id. */
  ghost predicate CarryBefore(addrs: seq<Multiaddr>, k: nat, peerIdOf: Multiaddr -> Option<PeerId>)
  {
    forall i :: 0 <= i < |addrs| && i < k ==> peerIdOf(addrs[i]).Some?
  }

  /** The ids extracted from the addresses, as one set comprehension. */
  ghost function ExtractedIds(addrs: seq<Multiaddr>, peerIdOf: Multiaddr -> Option<PeerId>): set<PeerId>
  {
    set a | a in addrs && peerIdOf(a).Some? :: peerIdOf(a).value
  }

  /** The panic `peer_ids_set_from` raises: the address at `index` has no peer id. */
  datatype MissingPeerId = MissingPeerId(index: nat, address: Multiaddr)

  /** `peer_ids_set_from(multiaddr)`. `peerIdOf` is libp2p's
      `PeerId::try_from_multiaddr`, whose parsing is not part of this model. The
      addresses are visited in order and the first one without a peer id stops the
      node (the source's `unwrap`); that failure is returned as `MissingPeerId`. */
  function PeerIdsSetFrom(addrs: seq<Multiaddr>, peerIdOf: Multiaddr -> Option<PeerId>): (r: Result<set<PeerId>, MissingPeerId>)
    ensures r.Success? <==> AllCarryPeerId(addrs, peerIdOf)
    ensures r.Success? ==> r.value == ExtractedIds(addrs, peerIdOf)
    ensures r.Success? ==> |r.value| <= |addrs|
    ensures r.Failure? ==> r.error.index < |addrs| && r.error.address == addrs[r.error.index]
    ensures r.Failure? ==> peerIdOf(r.error.address).None? && CarryBefore(addrs, r.error.index, peerIdOf)
  {
    if addrs == [] then Success({})
    else if peerIdOf(addrs[0]).None? then Failure(MissingPeerId(0, addrs[0]))
    else
      var rest := PeerIdsSetFrom(addrs[1..], peerIdOf);
      Cons(addrs, peerIdOf);
      if rest.Failure? then Failure(MissingPeerId(rest.error.index + 1, rest.error.address))
      else Success({peerIdOf(addrs[0]).value} + rest.value)
  }

  /** How the three views of an address list split off its first address. */
  lemma Cons(addrs: seq<Multiaddr>, peerIdOf: Multiaddr -> Option<PeerId>)
    requires |addrs| > 0 && peerIdOf(addrs[0]).Some?
    ensures AllCarryPeerId(addrs, peerIdOf) <==> AllCarryPeerId(addrs[1..], peerIdOf)
    ensures forall k: nat :: CarryBefore(addrs, k + 1, peerIdOf) <==> CarryBefore(addrs[1..], k, peerIdOf)
    ensures ExtractedIds(addrs, peerIdOf) == {peerIdOf(addrs[0]).value} + ExtractedIds(addrs[1..], peerIdOf)
  {
    forall i | 0 < i < |addrs| ensures addrs[i] == addrs[1..][i - 1] { }
    assert forall a :: a in addrs <==> a == addrs[0] || a in addrs[1..];
  }

  /** The failure names the FIRST address without a peer id: when address `k` lacks
      one and every address before it has one, the extraction stops at `k`. */
  lemma FailureIsFirstMissing(addrs: seq<Multiaddr>, peerIdOf: Multiaddr -> Option<PeerId>, k: nat)
    requires k < |addrs| && peerIdOf(addrs[k]).None? && CarryBefore(addrs, k, peerIdOf)
    ensures PeerIdsSetFrom(addrs, peerIdOf) == Failure(MissingPeerId(k, addrs[k]))
  {
    var r := PeerIdsSetFrom(addrs, peerIdOf);
    assert !AllCarryPeerId(addrs, peerIdOf);
    var j := r.error.index;
    if j != k {
      assert false;
    }
  }

  /** Repeating an address already in the list changes nothing: duplicates collapse,
      on success and on failure alike. */
  lemma DuplicateAddressCollapses(addrs: seq<Multiaddr>, a: Multiaddr, peerIdOf: Multiaddr -> Option<PeerId>)
    requires a in addrs
    ensures PeerIdsSetFrom(addrs + [a], peerIdOf) == PeerIdsSetFrom(addrs, peerIdOf)
  {
    var longer := addrs + [a];
    var r := PeerIdsSetFrom(addrs, peerIdOf);
    if r.Success? {
      var i :| 0 <= i < |addrs| && addrs[i] == a;
      assert AllCarryPeerId(longer, peerIdOf) by {
        forall j | 0 <= j < |longer| ensures peerIdOf(longer[j]).Some? {
          if j < |addrs| { assert longer[j] == addrs[j]; } else { assert longer[j] == addrs[i]; }
        }
      }
      assert ExtractedIds(longer, peerIdOf) == ExtractedIds(addrs, peerIdOf) by {
        assert forall x :: x in longer <==> x in addrs;
      }
    } else {
      var k := r.error.index;
      assert longer[k] == addrs[k];
      assert CarryBefore(longer, k, peerIdOf) by {
        forall j | 0 <= j < |longer| && j < k ensures peerIdOf(longer[j]).Some? {
          assert longer[j] == addrs[j];
        }
      }
      FailureIsFirstMissing(longer, peerIdOf, k);
    }
  }

  /** The result depends only on which addresses are listed, not on their order or
      multiplicity, whenever every address carries a peer id. */
  lemma SameAddressesSameIds(xs: seq<Multiaddr>, ys: seq<Multiaddr>, peerIdOf: Multiaddr -> Option<PeerId>)
    requires forall a :: a in xs <==> a in ys
    requires AllCarryPeerId(xs, peerIdOf)
    ensures PeerIdsSetFrom(ys, peerIdOf) == PeerIdsSetFrom(xs, peerIdOf)
  {
    assert AllCarryPeerId(ys, peerIdOf) by {
      forall j | 0 <= j < |ys| ensures peerIdOf(ys[j]).Some? {
        assert ys[j] in xs;
      }
    }
    assert ExtractedIds(ys, peerIdOf) == ExtractedIds(xs, peerIdOf);
  }

  /** A peer id is in the result exactly when some listed address embeds it. */
  lemma MembershipIff(addrs: seq<Multiaddr>, peerIdOf: Multiaddr -> Option<PeerId>, p: PeerId)
    requires PeerIdsSetFrom(addrs, peerIdOf).Success?
    ensures p in PeerIdsSetFrom(addrs, peerIdOf).value <==> exists i :: 0 <= i < |addrs| && peerIdOf(addrs[i]) == Some(p)
  {
    if p in PeerIdsSetFrom(addrs, peerIdOf).value {
      var a :| a in addrs && peerIdOf(a).Some? && peerIdOf(a).value == p;
      var i :| 0 <= i < |addrs| && addrs[i] == a;
      assert peerIdOf(addrs[i]) == Some(p);
    }
  }
}
