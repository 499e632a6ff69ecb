/** The id server's objects, updated in place, each handler proved to be one registry step. */
module Server {
  import opened Net
  import opened Database
  import opened Registry
  import IpBlocker
  import opened OnlineBitmap

  /** A peer behind its lock; every holder of the handle sees the same record. */
  class LockPeer {
    var peer: Peer

    constructor (peer: Peer)
      ensures this.peer == peer
    {
      this.peer := peer;
    }
  }

  class PeerMap {
    var peers: map<string, LockPeer>
    const db: Table

    constructor (db: Table)
      requires db.Valid()
      ensures Valid() && this.db == db && peers == map[]
    {
      this.peers := map[];
      this.db := db;
    }

    /** No two ids share a record. */
    ghost predicate Valid()
      reads this, db
    {
      db.Valid() && forall a, b :: a in peers && b in peers && peers[a] == peers[b] ==> a == b
    }

    ghost function Cache(): map<string, Peer>
      reads this, peers.Values
    {
      map id | id in peers :: peers[id].peer
    }

    ghost function Abs(): State
      reads this, peers.Values, db
    {
      State(Cache(), db.rows, map[], [])
    }

    /** Writes through a handle; only the record of its own id changes. */
    method SetPeer(id: string, p: LockPeer, peer: Peer)
      requires Valid() && id in peers && peers[id] == p
      modifies p
      ensures Valid() && p.peer == peer
      ensures Abs() == old(Abs()).(cache := old(Cache())[id := peer])
    {
      p.peer := peer;
      assert Cache() == old(Cache())[id := peer];
    }

    /** The query of `get`. */
    method ReadRow(id: string, readOk: bool) returns (load: Option<Load>)
      requires Valid()
      ensures load == Registry.ReadRow(db.rows, id, readOk)
    {
      var row := db.GetPeer(id, readOk);
      return if row.Some? then Some(Load(row.value.0, row.value.1)) else None;
    }

    /** What follows it: a new record goes into the map, over whatever is there by now. */
    method InsertLoaded(load: Load, now: int) returns (p: LockPeer)
      requires Valid()
      modifies this
      ensures Valid() && fresh(p) && peers == old(peers)[load.row.id := p]
      ensures Abs() == Registry.InsertLoaded(old(Abs()), load, now)
    {
      p := new LockPeer(LoadedPeer(load.guid, load.row, now));
      peers := peers[load.row.id := p];
      assert Cache() == old(Cache())[load.row.id := p.peer];
    }

    /** All of it without pause. */
    method Get(id: string, now: int, readOk: bool) returns (p: LockPeer?)
      requires Valid()
      modifies this
      ensures Valid() && fresh(peers.Values - old(peers.Values))
      ensures (Abs(), p != null) == Registry.Get(old(Abs()), id, now, readOk)
      ensures p != null ==> id in peers && peers[id] == p
    {
      if id in peers {
        return peers[id];
      }
      var load := ReadRow(id, readOk);
      if load.None? {
        return null;
      }
      p := InsertLoaded(load.value, now);
    }

    /** A look into memory and at the record's age. */
    method IsOnline(id: string, now: int) returns (online: bool)
      requires Valid()
      ensures online == OnlineBit(Abs(), id, now)
    {
      if id !in peers {
        return false;
      }
      var elapsed := AsI32(Elapsed(peers[id].peer.lastRegTime, now));
      return elapsed < REG_TIMEOUT;
    }

    /** The end of `get_or`: the map is looked at again under the write lock. */
    method Enter(id: string, now: int) returns (p: LockPeer)
      requires Valid()
      modifies this
      ensures Valid() && fresh(peers.Values - old(peers.Values))
      ensures Abs() == Registry.Enter(old(Abs()), id, now)
      ensures id in peers && peers[id] == p
    {
      if id in peers {
        return peers[id];
      }
      p := new LockPeer(DefaultPeer(now));
      peers := peers[id := p];
      assert Cache() == old(Cache())[id := p.peer];
    }

    method GetOr(id: string, now: int, readOk: bool) returns (p: LockPeer)
      requires Valid()
      modifies this
      ensures Valid() && fresh(peers.Values - old(peers.Values))
      ensures Abs() == Registry.GetOr(old(Abs()), id, now, readOk)
      ensures id in peers && peers[id] == p
    {
      var found := Get(id, now, readOk);
      if found != null {
        return found;
      }
      p := Enter(id, now);
    }

    /** The row follows the record. */
    method WriteBack(p: LockPeer, guid: Bytes, row: Row, env: Env) returns (ok: bool)
      requires Valid() && row.id in peers && peers[row.id] == p
      modifies p, db
      ensures Valid()
      ensures (Abs(), ok) == Registry.WriteBack(old(Abs()), guid, row, env)
    {
      if guid == [] {
        ok := db.InsertPeer(env.newGuid, row, env.writeOk);
        SetPeer(row.id, p, if ok then p.peer.(guid := env.newGuid) else p.peer);
      } else {
        ok := db.UpdatePk(guid, row.id, row.pk, row.infoIp, env.writeOk);
        assert Cache() == old(Cache())[row.id := p.peer];
      }
    }

    /** Writes the record first, then the row; answers whether the row was written. */
    method UpdatePk(id: string, p: LockPeer, addr: Addr, uuid: Bytes, pk: Bytes, now: int, env: Env) returns (ok: bool)
      requires Valid() && id in peers && peers[id] == p
      modifies p, db
      ensures Valid()
      ensures Abs() == Registry.UpdatePk(old(Abs()), id, addr, uuid, pk, now, env)
      ensures ok == Written(old(db.rows), old(p.peer.guid), Row(id, uuid, pk, Some(addr.ip)), env.newGuid, env.writeOk).1
    {
      var guid := p.peer.guid;
      SetPeer(id, p, p.peer.(socketAddr := addr, uuid := uuid, pk := pk, lastRegTime := now, infoIp := Some(addr.ip)));
      ok := WriteBack(p, guid, Row(id, uuid, pk, Some(addr.ip)), env);
    }
  }

  class RendezvousServer {
    const pm: PeerMap
    const blocker: IpBlocker.Blocker
    var loading: seq<Load>

    constructor (db: Table)
      requires db.Valid()
      ensures Valid() && Abs() == State(map[], db.rows, map[], [])
    {
      loading := [];
      pm := new PeerMap(db);
      blocker := new IpBlocker.Blocker();
      new;
      assert pm.Cache() == map[];
    }

    ghost predicate Valid()
      reads this, pm, pm.db
    {
      pm.Valid()
    }

    ghost function Abs(): State
      reads this, pm, pm.peers.Values, pm.db, blocker
    {
      State(pm.Cache(), pm.db.rows, blocker.entries, loading)
    }

    /** A spawned load, up to its query's answer. */
    method StartLoad(id: string, now: int, env: Env)
      requires Valid()
      modifies this`loading
      ensures Valid()
      ensures Abs() == Registry.Step(old(Abs()), OnLoadRead(id, now, env)).0
    {
      var load := pm.ReadRow(id, env.readOk);
      if load.Some? {
        loading := loading + [load.value];
      }
    }

    /** The rest of it, later. */
    method EndLoad(i: nat, now: int)
      requires Valid() && i < |loading|
      modifies this`loading, pm
      ensures Valid() && fresh(pm.peers.Values - old(pm.peers.Values))
      ensures Abs() == Registry.Step(old(Abs()), OnLoadInsert(i, now)).0
    {
      var _ := pm.InsertLoaded(loading[i], now);
      loading := loading[..i] + loading[i + 1..];
    }

    method HandleRegisterPk(rk: RegisterPk, addr: Addr, ws: bool, now: int, env: Env) returns (r: RegResult)
      requires Valid()
      modifies pm, pm.peers.Values, pm.db, blocker
      ensures Valid() && fresh(pm.peers.Values - old(pm.peers.Values))
      ensures (Abs(), r) == Registry.HandleRegisterPk(old(Abs()), rk, addr, ws, now, env)
    {
      if rk.uuid == [] || rk.pk == [] {
        return INVALID_ID_FORMAT;
      }
      if |rk.id| < 6 {
        return UUID_MISMATCH;
      }
      var ok := blocker.Check(addr.ip, rk.id, now);
      if !ok {
        return TOO_FREQUENT;
      }
      r := RegisterKnown(rk, addr, ws, now, env);
    }

    method RegisterKnown(rk: RegisterPk, addr: Addr, ws: bool, now: int, env: Env) returns (r: RegResult)
      requires Valid()
      modifies pm, pm.peers.Values, pm.db
      ensures Valid() && fresh(pm.peers.Values - old(pm.peers.Values))
      ensures (Abs(), r) == Registry.RegisterKnown(old(Abs()), rk, addr, ws, now, env)
    {
      var p := pm.GetOr(rk.id, now, env.readOk);
      r := RegisterFound(p, rk, addr, ws, now, env);
    }

    method RegisterFound(p: LockPeer, rk: RegisterPk, addr: Addr, ws: bool, now: int, env: Env) returns (r: RegResult)
      requires Valid() && rk.id in pm.peers && pm.peers[rk.id] == p
      modifies p, pm.db
      ensures Valid()
      ensures (Abs(), r) == Registry.RegisterFound(old(Abs()), rk, addr, ws, now, env)
    {
      var changed := true;
      if p.peer.uuid != [] {
        if p.peer.uuid == rk.uuid {
          if p.peer.infoIp != Some(addr.ip) && p.peer.pk != rk.pk {
            return UUID_MISMATCH;
          }
        } else {
          return UUID_MISMATCH;
        }
        changed := p.peer.uuid != rk.uuid || p.peer.pk != rk.pk || p.peer.infoIp != Some(addr.ip);
      }
      var count := p.peer.regCount;
      if SecsExceed(p.peer.regTime, now, 6) {
        count := 0;
      } else if count > 2 {
        return TOO_FREQUENT;
      }
      Accept(p, count, changed, rk, addr, ws, now, env);
      return OK;
    }

    /** `count` is the counter after a possible reset, `changed` what the identity check found. */
    method Accept(p: LockPeer, count: nat, changed: bool, rk: RegisterPk, addr: Addr, ws: bool, now: int, env: Env)
      requires Valid() && rk.id in pm.peers && pm.peers[rk.id] == p
      requires count + 1 == RegCounted(p.peer, now).regCount && changed == Changed(p.peer, rk, addr.ip)
      modifies p, pm.db
      ensures Valid()
      ensures Abs() == Registry.Accept(old(Abs()), rk, addr, ws, now, env)
    {
      pm.SetPeer(rk.id, p, p.peer.(regCount := count + 1, regTime := now));
      if changed || ws {
        var _ := pm.UpdatePk(rk.id, p, addr, rk.uuid, rk.pk, now, env);
      }
    }

    method UpdateAddr(id: string, addr: Addr, now: int) returns (requestPk: bool)
      requires Valid()
      modifies pm.peers.Values
      ensures Valid()
      ensures (Abs(), requestPk) == Registry.UpdateAddr(old(Abs()), id, addr, now)
    {
      if id !in pm.peers {
        return true;
      }
      var p := pm.peers[id];
      var ipChange := if p.peer.socketAddr.port != 0 then addr.ip != p.peer.socketAddr.ip else Some(addr.ip) != p.peer.infoIp;
      ipChange := ipChange && !addr.ip.IsLoopback();
      requestPk := p.peer.pk == [] || ipChange;
      if !requestPk {
        pm.SetPeer(id, p, p.peer.(socketAddr := addr, lastRegTime := now));
      }
    }

    method GetPk(id: string, signing: bool, now: int, readOk: bool) returns (r: Option<(string, Bytes)>)
      requires Valid()
      modifies pm
      ensures Valid() && fresh(pm.peers.Values - old(pm.peers.Values))
      ensures (Abs(), r) == Registry.GetPk(old(Abs()), id, signing, now, readOk)
    {
      if !signing {
        return None;
      }
      var p := pm.Get(id, now, readOk);
      return if p == null then None else Some((id, p.peer.pk));
    }

    method HandlePunchHole(ph: PunchHoleRequest, now: int, readOk: bool) returns (r: PunchReply)
      requires Valid()
      modifies pm
      ensures Valid() && fresh(pm.peers.Values - old(pm.peers.Values))
      ensures (Abs(), r) == Registry.HandlePunchHole(old(Abs()), ph, now, readOk)
    {
      if !ph.licenceOk {
        return Failed(LICENSE_MISMATCH);
      }
      if ph.mustLogin {
        if ph.tokenEmpty {
          return Failed(PLEASE_LOGIN);
        } else if !ph.secretEmpty && !ph.tokenValid {
          return Failed(TOKEN_ERROR);
        }
      }
      var p := pm.Get(ph.id, now, readOk);
      if p == null {
        return Failed(ID_NOT_EXIST);
      }
      if AsI32(Elapsed(p.peer.lastRegTime, now)) >= REG_TIMEOUT {
        return Failed(OFFLINE);
      }
      return Forward(p.peer.socketAddr);
    }

    /** One clock reading stands for the readings of the whole loop. */
    method PeersOnlineState(ids: seq<string>, now: int) returns (states: array<bv8>)
      requires Valid()
      ensures fresh(states)
      ensures Packs(states[..], Statuses(Abs(), ids, now))
    {
      states := new bv8[(|ids| + 7) / 8](_ => 0);
      ghost var s := Abs();
      ghost var status := Statuses(s, ids, now);
      var i := 0;
      while i < |ids|
        invariant 0 <= i <= |ids|
        invariant Abs() == s && PackedUpTo(states[..], status, i)
      {
        var online := pm.IsOnline(ids[i], now);
        SetBit(states, i, online, status);
        i := i + 1;
      }
    }
  }

  /** The i-th peer's bit is or-ed in if it is online. */
  method SetBit(states: array<bv8>, i: nat, online: bool, ghost status: seq<bool>)
    requires PackedUpTo(states[..], status, i) && i < |status| && online == status[i]
    modifies states
    ensures PackedUpTo(states[..], status, i + 1)
  {
    PackOne(states[..], status, i);
    if online {
      var statesIdx, bitIdx := i / 8, 7 - i % 8;
      ghost var before := states[..];
      states[statesIdx] := states[statesIdx] | ((0x01 as bv8) << bitIdx);
      assert states[..] == before[statesIdx := before[statesIdx] | Mask(i)];
    }
  }

  ghost function Statuses(s: State, ids: seq<string>, now: int): seq<bool> {
    seq(|ids|, i requires 0 <= i < |ids| => OnlineBit(s, ids[i], now))
  }
}
