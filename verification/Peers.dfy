/** Peers and the hosts that point at them: what every run of the two services keeps. */
module Peers {
  import opened Common
  import opened Addresses

  datatype Peer = Peer(name: string, address: nat, publicKey: string, privateKey: Option<string>,
                       enabled: bool, keepalive: int)

  /** Where a host forwards to: a tunnel address, or a name given by hand. */
  datatype Target = ToPeer(address: nat) | ToHost(name: string)

  /** The part of a proxy-host row that refers to a peer. */
  datatype Host = Host(domain: string, peer: Option<nat>, forward: Target)

  datatype State = State(peers: map<nat, Peer>, hosts: map<nat, Host>)

  datatype Error =
    | BadName | NameTaken | BadAllowedIps | BadAddress | OutsideSubnet | HubAddress | AddressTaken
    | Exhausted | BadKey | KeyTaken | NoSuchPeer | ServesHosts
    | BadHost | DomainTaken | NoSuchHost | NoTarget | PushFailed

  /** Uniqueness the database enforces, and what addresses may be. */
  ghost predicate Consistent(net: Subnet, s: State)
    requires Valid(net)
  {
    && (forall p, q | p in s.peers && q in s.peers && p != q ::
          && s.peers[p].name != s.peers[q].name
          && s.peers[p].address != s.peers[q].address
          && s.peers[p].publicKey != s.peers[q].publicKey)
    && (forall p | p in s.peers :: Within(net, s.peers[p].address) && s.peers[p].address != Hub(net))
    && (forall h, k | h in s.hosts && k in s.hosts && h != k :: s.hosts[h].domain != s.hosts[k].domain)
    && (forall h | h in s.hosts && s.hosts[h].peer.Some? :: s.hosts[h].peer.value in s.peers)
  }

  function TakenAddresses(s: State): set<nat> {
    set p | p in s.peers :: s.peers[p].address
  }

  predicate NameUsed(s: State, name: string) {
    exists p | p in s.peers :: s.peers[p].name == name
  }

  predicate KeyUsed(s: State, key: string) {
    exists p | p in s.peers :: s.peers[p].publicKey == key
  }

  predicate DomainUsed(s: State, domain: string) {
    exists h | h in s.hosts :: s.hosts[h].domain == domain
  }

  predicate HasHosts(s: State, id: nat) {
    exists h | h in s.hosts :: s.hosts[h].peer == Some(id)
  }

  /** An address as typed: absent, not an IP address, or a number. */
  datatype Typed = Absent | Garbage | Address(a: nat)

  /** What a peer is registered with. `keyOk` and `namesOk` stand for the syntax checks on the
      supplied key and on the name and extra networks; `generated` is a fresh keypair. */
  datatype Registration = Registration(name: string, nameOk: bool, extraOk: bool, address: Typed,
                                       key: Option<string>, keyOk: bool, generated: (string, string), keepalive: int)

  /** The id a new row gets: one above the largest in use, so that the id of the newest row is handed
      out again once that row is deleted. */
  method NextRowId(used: set<nat>) returns (id: nat)
    ensures id !in used && forall k | k in used :: k < id
  {
    id := 1;
    var left := used;
    while left != {}
      invariant left <= used && forall k | k in used :: k in left || k < id
      decreases left
    {
      var k :| k in left;
      if id <= k {
        id := k + 1;
      }
      left := left - {k};
    }
  }

  class Registry {
    const net: Subnet
    var s: State

    constructor (net: Subnet)
      requires Valid(net)
      ensures this.net == net && s == State(map[], map[])
    {
      this.net := net;
      s := State(map[], map[]);
    }

    method ValidateAddress(typed: Typed) returns (r: Result<nat, Error>)
      requires Valid(net)
      ensures r.Ok? <==> typed.Address? && Within(net, typed.a) && typed.a != Hub(net) && typed.a !in TakenAddresses(s)
      ensures r.Ok? ==> r.value == typed.a
      ensures r.Err? ==> AddressCause(net, s, typed, r.error)
    {
      if !typed.Address? {
        return Err(BadAddress);
      }
      if !Within(net, typed.a) {
        return Err(OutsideSubnet);
      }
      if typed.a == Hub(net) {
        return Err(HubAddress);
      }
      if typed.a in TakenAddresses(s) {
        return Err(AddressTaken);
      }
      r := Ok(typed.a);
    }

    method Create(reg: Registration) returns (r: Result<nat, Error>)
      requires Valid(net)
      modifies this`s
      ensures Created(net, old(s), reg, s, r)
      ensures r.Ok? <==> Acceptable(net, old(s), reg)
      ensures r.Err? ==> Cause(net, old(s), reg, r.error)
    {
      if !reg.nameOk {
        return Err(BadName);
      }
      if NameUsed(s, reg.name) {
        return Err(NameTaken);
      }
      if !reg.extraOk {
        return Err(BadAllowedIps);
      }
      var address: nat;
      if reg.address.Absent? {
        var free := NextFreeAddress(net, TakenAddresses(s));
        if free.None? {
          return Err(Exhausted);
        }
        address := free.value;
        assert Within(net, address) && address != Hub(net);
      } else {
        var typed := ValidateAddress(reg.address);
        if typed.Err? {
          return Err(typed.error);
        }
        address := typed.value;
      }
      var private, public := Some(reg.generated.0), reg.generated.1;
      if reg.key.Some? {
        if !reg.keyOk {
          return Err(BadKey);
        }
        private, public := None, reg.key.value;
      }
      if KeyUsed(s, public) {
        return Err(KeyTaken);
      }
      var id := NextRowId(s.peers.Keys);
      s := s.(peers := s.peers[id := Peer(reg.name, address, public, private, true, reg.keepalive)]);
      r := Ok(id);
    }

    method Update(id: nat, keepalive: Option<int>, enabled: Option<bool>) returns (r: Result<(), Error>)
      modifies this`s
      ensures Updated(old(s), id, s, r)
      ensures r.Err? ==> r.error == NoSuchPeer
      ensures r.Ok? ==>
                && s.peers[id].enabled == (if enabled.Some? then enabled.value else old(s).peers[id].enabled)
                && s.peers[id].keepalive == (if keepalive.Some? then keepalive.value else old(s).peers[id].keepalive)
    {
      if id !in s.peers {
        return Err(NoSuchPeer);
      }
      var peer := s.peers[id];
      if keepalive.Some? {
        peer := peer.(keepalive := keepalive.value);
      }
      if enabled.Some? {
        peer := peer.(enabled := enabled.value);
      }
      s := s.(peers := s.peers[id := peer]);
      r := Ok(());
    }

    /** A fresh keypair; the database refuses one whose public key is in use. */
    method RotateKeys(id: nat, generated: (string, string)) returns (r: Result<(), Error>)
      modifies this`s
      ensures Rotated(old(s), id, generated, s, r)
      ensures r.Err? ==> r.error == if id in old(s).peers then KeyTaken else NoSuchPeer
      ensures r.Ok? <==> id in old(s).peers && forall q | q in old(s).peers && q != id :: old(s).peers[q].publicKey != generated.1
    {
      if id !in s.peers {
        return Err(NoSuchPeer);
      }
      var peer := s.peers[id].(privateKey := Some(generated.0), publicKey := generated.1);
      if exists q | q in s.peers :: q != id && s.peers[q].publicKey == generated.1 {
        return Err(KeyTaken);
      }
      s := s.(peers := s.peers[id := peer]);
      r := Ok(());
    }

    method Delete(id: nat) returns (r: Result<(), Error>)
      modifies this`s
      ensures PeerDeleted(old(s), id, s, r)
      ensures r.Err? ==> r.error == if id in old(s).peers then ServesHosts else NoSuchPeer
    {
      if id !in s.peers {
        return Err(NoSuchPeer);
      }
      if HasHosts(s, id) {
        return Err(ServesHosts);
      }
      s := s.(peers := s.peers - {id});
      r := Ok(());
    }

    /** Publish a host. `pushed` is whether NPM took it; when it did not, the error escapes and the
        session is rolled back. */
    method CreateHost(domain: string, domainOk: bool, peer: Option<nat>, forwardHost: string, pushed: bool)
      returns (r: Result<nat, Error>)
      modifies this`s
      ensures HostCreated(old(s), domain, peer, s, r)
      ensures r.Ok? <==>
                && domainOk && pushed && (forall h | h in old(s).hosts :: old(s).hosts[h].domain != domain)
                && (if peer.Some? then peer.value in old(s).peers else forwardHost != "")
      ensures r.Ok? && peer.None? ==> s.hosts[r.value].forward == ToHost(forwardHost)
      ensures r.Err? ==>
                match r.error
                case BadHost => !domainOk
                case DomainTaken => exists h :: h in old(s).hosts && old(s).hosts[h].domain == domain
                case NoSuchPeer => peer.Some? && peer.value !in old(s).peers
                case NoTarget => peer.None? && forwardHost == ""
                case PushFailed => !pushed
                case _ => false
    {
      if !domainOk {
        return Err(BadHost);
      }
      if DomainUsed(s, domain) {
        return Err(DomainTaken);
      }
      if peer.Some? && peer.value !in s.peers {
        return Err(NoSuchPeer);
      }
      if peer.None? && forwardHost == "" {
        return Err(NoTarget);
      }
      if !pushed {
        return Err(PushFailed);
      }
      var id := NextRowId(s.hosts.Keys);
      var target := if peer.Some? then ToPeer(s.peers[peer.value].address) else ToHost(forwardHost);
      s := s.(hosts := s.hosts[id := Host(domain, peer, target)]);
      r := Ok(id);
    }

    /** Repoint a host; `peer` is None when it is left as it is. */
    method UpdateHost(id: nat, peer: Option<Option<nat>>, forwardHost: string, pushed: bool) returns (r: Result<(), Error>)
      modifies this`s
      ensures HostUpdated(old(s), id, s, r)
      ensures r.Ok? && peer.Some? ==> s.hosts[id].peer == peer.value
      ensures r.Ok? && peer.None? ==> s.hosts[id].peer == old(s).hosts[id].peer
      ensures r.Ok? && peer.Some? && peer.value.Some? ==> peer.value.value in s.peers
      ensures r.Ok? ==>
                s.hosts[id].forward ==
                if forwardHost != "" then ToHost(forwardHost)
                else if peer.Some? && peer.value.Some? then ToPeer(s.peers[peer.value.value].address)
                else old(s).hosts[id].forward
      ensures r.Ok? <==> id in old(s).hosts && pushed && (peer.Some? && peer.value.Some? ==> peer.value.value in old(s).peers)
      ensures r.Err? ==>
                match r.error
                case NoSuchHost => id !in old(s).hosts
                case NoSuchPeer => peer.Some? && peer.value.Some? && peer.value.value !in old(s).peers
                case PushFailed => !pushed
                case _ => false
    {
      if id !in s.hosts {
        return Err(NoSuchHost);
      }
      var host := s.hosts[id];
      if peer.Some? {
        if peer.value.Some? && peer.value.value !in s.peers {
          return Err(NoSuchPeer);
        }
        host := host.(peer := peer.value);
        if peer.value.Some? {
          host := host.(forward := ToPeer(s.peers[peer.value.value].address));
        }
      }
      if forwardHost != "" {
        host := host.(forward := ToHost(forwardHost));
      }
      if !pushed {
        return Err(PushFailed);
      }
      s := s.(hosts := s.hosts[id := host]);
      r := Ok(());
    }

    method DeleteHost(id: nat) returns (r: Result<(), Error>)
      modifies this`s
      ensures HostDeleted(old(s), id, s, r)
      ensures r.Err? ==> r.error == NoSuchHost
    {
      if id !in s.hosts {
        return Err(NoSuchHost);
      }
      s := s.(hosts := s.hosts - {id});
      r := Ok(());
    }
  }

  // ---------------------------------------------------------------- what each operation does

  /** What registering a peer asks for: a valid unused name, valid extra networks, an address that is
      given and free or one left to give, and a valid unused key. */
  ghost predicate Acceptable(net: Subnet, s: State, reg: Registration)
    requires Valid(net)
  {
    var key := if reg.key.Some? then reg.key.value else reg.generated.1;
    && reg.nameOk && reg.extraOk && (reg.key.Some? ==> reg.keyOk)
    && (forall p | p in s.peers :: s.peers[p].name != reg.name && s.peers[p].publicKey != key)
    && match reg.address
       case Absent => exists a: nat :: Assignable(net, a) && forall p | p in s.peers :: s.peers[p].address != a
       case Garbage => false
       case Address(a) => Within(net, a) && a != Hub(net) && forall p | p in s.peers :: s.peers[p].address != a
  }

  /** What is wrong with an address as typed. */
  ghost predicate AddressCause(net: Subnet, s: State, typed: Typed, e: Error)
    requires Valid(net)
  {
    match e
    case BadAddress => !typed.Address?
    case OutsideSubnet => typed.Address? && !Within(net, typed.a)
    case HubAddress => typed.Address? && typed.a == Hub(net)
    case AddressTaken => typed.Address? && exists p :: p in s.peers && s.peers[p].address == typed.a
    case _ => false
  }

  /** The error the operator reads names something that is wrong. */
  ghost predicate Cause(net: Subnet, s: State, reg: Registration, e: Error)
    requires Valid(net)
  {
    match e
    case BadName => !reg.nameOk
    case NameTaken => exists p :: p in s.peers && s.peers[p].name == reg.name
    case BadAllowedIps => !reg.extraOk
    case Exhausted => reg.address.Absent?
    case BadKey => reg.key.Some? && !reg.keyOk
    case KeyTaken => exists p :: p in s.peers && s.peers[p].publicKey == if reg.key.Some? then reg.key.value else reg.generated.1
    case _ => !reg.address.Absent? && AddressCause(net, s, reg.address, e)
  }

  ghost predicate Created(net: Subnet, s: State, reg: Registration, s': State, r: Result<nat, Error>)
    requires Valid(net)
  {
    && (r.Err? ==> s' == s)
    && (r.Ok? ==>
          && r.value !in s.peers && r.value in s'.peers
          && s' == s.(peers := s.peers[r.value := s'.peers[r.value]])
          && var p := s'.peers[r.value];
          && p.name == reg.name && !NameUsed(s, p.name) && !KeyUsed(s, p.publicKey) && p.enabled
          && p.publicKey == (if reg.key.Some? then reg.key.value else reg.generated.1)
          && p.privateKey == (if reg.key.Some? then None else Some(reg.generated.0))
          && p.keepalive == reg.keepalive
          && Within(net, p.address) && p.address != Hub(net) && p.address !in TakenAddresses(s)
          && (reg.address.Address? ==> p.address == reg.address.a)
          && (reg.address.Absent? ==>
                Assignable(net, p.address) && forall a: nat | Assignable(net, a) && a < p.address :: a in TakenAddresses(s)))
    && (r == Err(Exhausted) ==> forall a: nat | Assignable(net, a) :: a in TakenAddresses(s))
  }

  ghost predicate Updated(s: State, id: nat, s': State, r: Result<(), Error>) {
    && (r.Ok? <==> id in s.peers)
    && (r.Err? ==> s' == s)
    && (r.Ok? ==>
          && id in s'.peers && s' == s.(peers := s.peers[id := s'.peers[id]])
          && s'.peers[id].name == s.peers[id].name && s'.peers[id].address == s.peers[id].address
          && s'.peers[id].publicKey == s.peers[id].publicKey && s'.peers[id].privateKey == s.peers[id].privateKey)
  }

  ghost predicate Rotated(s: State, id: nat, generated: (string, string), s': State, r: Result<(), Error>) {
    && (r.Err? ==> s' == s)
    && (r.Ok? ==>
          && id in s.peers && (forall q | q in s.peers && q != id :: s.peers[q].publicKey != generated.1)
          && s' == s.(peers := s.peers[id := s.peers[id].(privateKey := Some(generated.0), publicKey := generated.1)]))
  }

  ghost predicate PeerDeleted(s: State, id: nat, s': State, r: Result<(), Error>) {
    && (r.Ok? <==> id in s.peers && forall h | h in s.hosts :: s.hosts[h].peer != Some(id))
    && s' == if r.Ok? then s.(peers := s.peers - {id}) else s
  }

  ghost predicate HostCreated(s: State, domain: string, peer: Option<nat>, s': State, r: Result<nat, Error>) {
    && (r.Err? ==> s' == s)
    && (r.Ok? ==>
          && r.value !in s.hosts && r.value in s'.hosts && !DomainUsed(s, domain)
          && s' == s.(hosts := s.hosts[r.value := s'.hosts[r.value]])
          && s'.hosts[r.value].domain == domain && s'.hosts[r.value].peer == peer
          && (peer.Some? ==> peer.value in s.peers && s'.hosts[r.value].forward == ToPeer(s.peers[peer.value].address)))
  }

  ghost predicate HostUpdated(s: State, id: nat, s': State, r: Result<(), Error>) {
    && (r.Err? ==> s' == s)
    && (r.Ok? ==>
          && id in s.hosts && id in s'.hosts && s' == s.(hosts := s.hosts[id := s'.hosts[id]])
          && s'.hosts[id].domain == s.hosts[id].domain
          && (s'.hosts[id].peer == s.hosts[id].peer || s'.hosts[id].peer.None? || s'.hosts[id].peer.value in s.peers))
  }

  ghost predicate HostDeleted(s: State, id: nat, s': State, r: Result<(), Error>) {
    && (r.Ok? <==> id in s.hosts)
    && s' == if r.Ok? then s.(hosts := s.hosts - {id}) else s
  }

  // ---------------------------------------------------------------- runs

  datatype Op =
    | CreateOp(reg: Registration)
    | UpdateOp(id: nat)
    | RotateOp(id: nat, generated: (string, string))
    | DeleteOp(id: nat)
    | CreateHostOp(domain: string, peer: Option<nat>)
    | UpdateHostOp(id: nat)
    | DeleteHostOp(id: nat)

  ghost predicate Step(net: Subnet, s: State, op: Op, s': State)
    requires Valid(net)
  {
    match op
    case CreateOp(reg) => exists r :: Created(net, s, reg, s', r)
    case UpdateOp(id) => exists r :: Updated(s, id, s', r)
    case RotateOp(id, generated) => exists r :: Rotated(s, id, generated, s', r)
    case DeleteOp(id) => exists r :: PeerDeleted(s, id, s', r)
    case CreateHostOp(domain, peer) => exists r :: HostCreated(s, domain, peer, s', r)
    case UpdateHostOp(id) => exists r :: HostUpdated(s, id, s', r)
    case DeleteHostOp(id) => exists r :: HostDeleted(s, id, s', r)
  }

  datatype Turn = Turn(op: Op, after: State)

  ghost predicate IsRun(net: Subnet, s: State, turns: seq<Turn>)
    requires Valid(net)
    decreases |turns|
  {
    turns != [] ==> Step(net, s, turns[0].op, turns[0].after) && IsRun(net, turns[0].after, turns[1..])
  }

  function Final(s: State, turns: seq<Turn>): State {
    if turns == [] then s else turns[|turns| - 1].after
  }

  /** A peer on both sides of an operation has the same name and address. */
  ghost predicate NoPeerMoved(s: State, s': State) {
    forall p | p in s.peers && p in s'.peers ::
      s'.peers[p].address == s.peers[p].address && s'.peers[p].name == s.peers[p].name
  }

  /** A peer that serves a host is still there afterwards. */
  ghost predicate ServingPeersStay(s: State, s': State) {
    forall h | h in s.hosts && s.hosts[h].peer.Some? && s.hosts[h].peer.value in s.peers :: s.hosts[h].peer.value in s'.peers
  }

  lemma CreateKeeps(net: Subnet, s: State, reg: Registration, s': State, id: nat)
    requires Valid(net) && Consistent(net, s) && Created(net, s, reg, s', Ok(id))
    ensures Consistent(net, s') && NoPeerMoved(s, s') && ServingPeersStay(s, s')
  {
    forall q | q in s.peers
      ensures s.peers[q].address != s'.peers[id].address
    {
      assert s.peers[q].address in TakenAddresses(s);
    }
    forall p, q | p in s'.peers && q in s'.peers && p != q
      ensures s'.peers[p].name != s'.peers[q].name
      ensures s'.peers[p].address != s'.peers[q].address
      ensures s'.peers[p].publicKey != s'.peers[q].publicKey
    {
    }
  }

  lemma HostStepKeeps(net: Subnet, s: State, op: Op, s': State)
    requires Valid(net) && Consistent(net, s) && Step(net, s, op, s')
    requires op.CreateHostOp? || op.UpdateHostOp? || op.DeleteHostOp?
    ensures Consistent(net, s') && NoPeerMoved(s, s') && ServingPeersStay(s, s')
  {
    assert s'.peers == s.peers;
  }

  lemma UpdateStepKeeps(net: Subnet, s: State, op: Op, s': State)
    requires Valid(net) && Consistent(net, s) && Step(net, s, op, s') && op.UpdateOp?
    ensures Consistent(net, s') && NoPeerMoved(s, s') && ServingPeersStay(s, s')
  {
    assert s'.hosts == s.hosts;
  }

  lemma RotateStepKeeps(net: Subnet, s: State, op: Op, s': State)
    requires Valid(net) && Consistent(net, s) && Step(net, s, op, s') && op.RotateOp?
    ensures Consistent(net, s') && NoPeerMoved(s, s') && ServingPeersStay(s, s')
  {
    assert s'.hosts == s.hosts;
  }

  lemma DeleteStepKeeps(net: Subnet, s: State, op: Op, s': State)
    requires Valid(net) && Consistent(net, s) && Step(net, s, op, s') && op.DeleteOp?
    ensures Consistent(net, s') && NoPeerMoved(s, s') && ServingPeersStay(s, s')
  {
    forall h | h in s.hosts && s.hosts[h].peer.Some?
      ensures s.hosts[h].peer.value in s'.peers
    {
    }
  }

  lemma StepKeeps(net: Subnet, s: State, op: Op, s': State)
    requires Valid(net) && Consistent(net, s) && Step(net, s, op, s')
    ensures Consistent(net, s') && NoPeerMoved(s, s') && ServingPeersStay(s, s')
  {
    match op
    case CreateOp(reg) =>
      var r :| Created(net, s, reg, s', r);
      if r.Ok? {
        CreateKeeps(net, s, reg, s', r.value);
      }
    case UpdateOp(_) => UpdateStepKeeps(net, s, op, s');
    case RotateOp(_, _) => RotateStepKeeps(net, s, op, s');
    case DeleteOp(_) => DeleteStepKeeps(net, s, op, s');
    case _ => HostStepKeeps(net, s, op, s');
  }

  /** Over every run of peer and host operations, whatever fails: names, addresses and keys stay
      unique, every address is in the subnet and not the hub's, and every host's peer is there. */
  lemma {:induction false} RunKeeps(net: Subnet, s: State, turns: seq<Turn>)
    requires Valid(net) && Consistent(net, s) && IsRun(net, s, turns)
    ensures Consistent(net, Final(s, turns))
    decreases |turns|
  {
    if turns != [] {
      StepKeeps(net, s, turns[0].op, turns[0].after);
      RunKeeps(net, turns[0].after, turns[1..]);
      assert Final(turns[0].after, turns[1..]) == Final(s, turns);
    }
  }

  /** And a peer that is never deleted never moves. (One that is may have its id handed to another.) */
  lemma {:induction false} PeerStaysPut(net: Subnet, s: State, turns: seq<Turn>, p: nat)
    requires Valid(net) && Consistent(net, s) && IsRun(net, s, turns)
    ensures var last := Final(s, turns);
            p in s.peers && (forall i | 0 <= i < |turns| :: p in turns[i].after.peers) ==>
              p in last.peers && last.peers[p].address == s.peers[p].address && last.peers[p].name == s.peers[p].name
    decreases |turns|
  {
    if turns != [] && p in s.peers && forall i | 0 <= i < |turns| :: p in turns[i].after.peers {
      var s1, rest := turns[0].after, turns[1..];
      StepKeeps(net, s, turns[0].op, s1);
      assert forall i | 0 <= i < |rest| :: rest[i] == turns[i + 1];
      PeerStaysPut(net, s1, rest, p);
      assert Final(s1, rest) == Final(s, turns);
    }
  }

  ghost predicate HostOn(s: State, h: nat, p: nat) {
    h in s.hosts && s.hosts[h].peer == Some(p)
  }

  /** While a host forwards to a peer that peer is not deleted, so its id is not handed out again. */
  lemma {:induction false} ServedPeerStaysPut(net: Subnet, s: State, turns: seq<Turn>, h: nat, p: nat)
    requires Valid(net) && Consistent(net, s) && IsRun(net, s, turns) && HostOn(s, h, p)
    requires forall i | 0 <= i < |turns| :: HostOn(turns[i].after, h, p)
    ensures var last := Final(s, turns);
            p in s.peers && p in last.peers
            && last.peers[p].address == s.peers[p].address && last.peers[p].name == s.peers[p].name
    decreases |turns|
  {
    if turns != [] {
      var s1, rest := turns[0].after, turns[1..];
      StepKeeps(net, s, turns[0].op, s1);
      assert HostOn(s1, h, p);
      assert forall i | 0 <= i < |rest| :: rest[i] == turns[i + 1];
      ServedPeerStaysPut(net, s1, rest, h, p);
      assert Final(s1, rest) == Final(s, turns);
    }
  }

  /** The allocator gives up only when the subnet is full of live peers. */
  lemma ExhaustedMeansFull(net: Subnet, s: State, reg: Registration)
    requires Valid(net) && Consistent(net, s) && Created(net, s, reg, s, Err(Exhausted))
    ensures |s.peers| >= Pow2(32 - net.prefix) - 3
  {
    if |TakenAddresses(s)| < Pow2(32 - net.prefix) - 3 {
      RoomMeansFree(net, TakenAddresses(s));
    }
    ImageSize(s);
  }

  lemma ImageSize(s: State)
    ensures |TakenAddresses(s)| <= |s.peers|
    decreases |s.peers|
  {
    if p :| p in s.peers {
      var rest := s.(peers := s.peers - {p});
      ImageSize(rest);
      forall a | a in TakenAddresses(s)
        ensures a in TakenAddresses(rest) + {s.peers[p].address}
      {
        var q :| q in s.peers && s.peers[q].address == a;
        assert q == p || (q in rest.peers && rest.peers[q].address == a);
      }
      assert TakenAddresses(s) <= TakenAddresses(rest) + {s.peers[p].address};
      SubsetSize(TakenAddresses(s), TakenAddresses(rest) + {s.peers[p].address});
    } else {
      assert TakenAddresses(s) == {};
    }
  }
}
