/**
 Keys across the whole network. Handshakes, gossip, evictions and forged announcements
 interleave freely, yet every registry entry is bound to its peer id by the identity hash; so,
 when the hash has no collisions, no two nodes ever hold different keys for one peer.
 */
module KeyAgreement {
  import opened Types
  import opened Wire
  import opened Node
  import opened Mesh
  import KeyRegistry

  ghost predicate RegistryBound(hash: Key -> PeerId, r: KeyRegistry.Registry) {
    forall p :: p in r.entries ==> hash(r.entries[p]) == p
  }

  ghost predicate Bound(c: Config, node: map<PeerId, NodeState>) {
    forall u :: u in node ==> RegistryBound(c.crypto.hash, node[u].registry)
  }

  ghost predicate Injective(hash: Key -> PeerId) {
    forall k, l :: hash(k) == hash(l) ==> k == l
  }

  lemma ApplyBound(hash: Key -> PeerId, r: KeyRegistry.Registry, op: KeyRegistry.Op)
    requires RegistryBound(hash, r)
    requires op.Forget? || hash(op.key) == op.peer
    ensures RegistryBound(hash, KeyRegistry.Apply(r, op))
  {
  }

  /** Whatever frame arrives, true or forged, handling it keeps the registry bound. */
  lemma DispatchBound(c: Config, s: State, id: MsgId, p: Packet)
    requires p.dst in s.node && RegistryBound(c.crypto.hash, s.node[p.dst].registry)
    ensures RegistryBound(c.crypto.hash, EffectOf(c, s, id, p).node.registry)
  {
  }

  lemma StepBound(c: Config, s: State, step: Step)
    requires Enabled(c, s, step) && Bound(c, s.node)
    ensures Bound(c, Apply(c, s, step).node)
  {
    hide Dispatch, KeyRegistry.Apply, RegistryBound;
    match step
    case Deliver(id, p) => DispatchBound(c, s, id, p);
    case Handshake(u, key) =>
      ApplyBound(c.crypto.hash, s.node[u].registry, KeyRegistry.Handshake(c.crypto.hash(key), key));
    case Forget(u, peer) => ApplyBound(c.crypto.hash, s.node[u].registry, KeyRegistry.Forget(peer));
    case _ =>
  }

  /** In every state of every run each entry's key hashes to the peer id it is filed under. */
  lemma {:induction false} RunBound(c: Config, s: State, steps: seq<Step>)
    requires CanRun(c, s, steps) && Bound(c, s.node)
    ensures Bound(c, Run(c, s, steps).node)
    decreases steps
  {
    if steps != [] {
      hide Apply;
      StepBound(c, s, steps[0]);
      RunBound(c, Apply(c, s, steps[0]), steps[1..]);
    }
  }

  /**
   With a collision-free hash no two nodes, and no node at two moments of a run, hold
   different keys for one peer id, whatever was forged, evicted or learned again in between.
   In particular the overwrite of a known entry by gossip never changes its value.
   */
  lemma KeysAgree(c: Config, s: State, steps: seq<Step>, more: seq<Step>, u: PeerId, w: PeerId, p: PeerId)
    requires Injective(c.crypto.hash) && Bound(c, s.node)
    requires CanRun(c, s, steps) && CanRun(c, Run(c, s, steps), more)
    requires var mid := Run(c, s, steps); u in mid.node && p in mid.node[u].registry.entries
    requires var end := Run(c, Run(c, s, steps), more); w in end.node && p in end.node[w].registry.entries
    ensures Run(c, s, steps).node[u].registry.entries[p] == Run(c, Run(c, s, steps), more).node[w].registry.entries[p]
  {
    hide Apply;
    RunBound(c, s, steps);
    RunBound(c, Run(c, s, steps), more);
  }

  /**
   A sealed message reaches the handler only under a key that belongs to the peer it is
   attributed to: the key that opened it hashes to that peer's id.
   */
  lemma {:induction false} SealedCallsAuthentic(c: Config, s: State, steps: seq<Step>, id: MsgId, p: Packet)
    requires CanRun(c, s, steps) && Bound(c, s.node)
    requires p.dst in Run(c, s, steps).node && p.frame.Sealed?
    requires EffectOf(c, Run(c, s, steps), id, p).call.Some?
    ensures var call := EffectOf(c, Run(c, s, steps), id, p).call.value;
            call.from == p.frame.sender &&
            exists key :: c.crypto.hash(key) == call.from && c.crypto.unseal(p.dst, key, p.frame.message) == Some(call.data)
  {
    hide Apply;
    RunBound(c, s, steps);
    var entries := Run(c, s, steps).node[p.dst].registry.entries;
    assert p.frame.sender in entries;
    assert c.crypto.hash(entries[p.frame.sender]) == p.frame.sender;
  }
}
