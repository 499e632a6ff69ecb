/** The id server's registry as a transition system: peers cached in memory over the peer
    table, the message handlers, and runs of messages. One step is one whole handler call, or one
    half of a load: a row is read, and later, when other handlers may have run, put into memory. */
module Registry {
  import opened Net
  import opened Database
  import opened IpBlocker

  const REG_TIMEOUT := 30_000
  const EXPIRED := 3_600_000

  datatype Peer = Peer(socketAddr: Addr, lastRegTime: int, guid: Bytes, uuid: Bytes, pk: Bytes,
                       infoIp: Option<Ip>, regCount: nat, regTime: int)

  /** A row that was read and is on its way into memory. */
  datatype Load = Load(guid: Bytes, row: Row)

  datatype State = State(cache: map<string, Peer>, rows: Rows, blocker: IpBlocker.Table, loading: seq<Load>)

  datatype RegResult = OK | UUID_MISMATCH | TOO_FREQUENT | INVALID_ID_FORMAT

  datatype PunchFailure = LICENSE_MISMATCH | PLEASE_LOGIN | TOKEN_ERROR | OFFLINE | ID_NOT_EXIST
  datatype PunchReply = Failed(failure: PunchFailure) | Forward(to: Addr)

  /** What the outside decides during one call: whether table reads and writes succeed, and
      the random guid an insert would use. */
  datatype Env = Env(readOk: bool, writeOk: bool, newGuid: Bytes)

  datatype RegisterPk = RegisterPk(id: string, uuid: Bytes, pk: Bytes)
  datatype PunchHoleRequest = PunchHoleRequest(id: string, licenceOk: bool, mustLogin: bool, tokenEmpty: bool,
                                               secretEmpty: bool, tokenValid: bool)

  datatype Event =
    | OnRegisterPk(rk: RegisterPk, addr: Addr, ws: bool, now: int, env: Env)
    | OnRegisterPeer(id: string, addr: Addr, now: int)
    | OnGetPk(id: string, signing: bool, now: int, env: Env)
    | OnPunchHole(ph: PunchHoleRequest, now: int, env: Env)
    | OnLoadRead(id: string, now: int, env: Env)
    | OnLoadInsert(i: nat, now: int)
    | OnIpBlockerCmd(target: Option<Ip>, now: int)
    | OnRestart(now: int)

  datatype Out =
    | Registered(result: RegResult)
    | RequestPk(requestPk: bool)
    | SignedPk(signed: Option<(string, Bytes)>)
    | Punched(reply: PunchReply)
    | Silent

  // ---------- Peers ----------

  function DefaultPeer(now: int): Peer {
    Peer(UNSPECIFIED, now - EXPIRED, [], [], [], None, 0, now - EXPIRED)
  }

  function LoadedPeer(guid: Bytes, row: Row, now: int): Peer {
    DefaultPeer(now).(guid := guid, uuid := row.uuid, pk := row.pk, infoIp := row.infoIp)
  }

  predicate Online(p: Peer, now: int) {
    AsI32(Elapsed(p.lastRegTime, now)) < REG_TIMEOUT
  }

  /** The query of `PeerMap::get`. */
  ghost function ReadRow(rows: Rows, id: string, readOk: bool): Option<Load> {
    if readOk && HasId(rows, id) then
      var g := Find(rows, id).value;
      Some(Load(g, rows[g]))
    else None
  }

  /** What follows it: the row read goes into memory, over whatever is there by now. */
  function InsertLoaded(s: State, load: Load, now: int): State {
    s.(cache := s.cache[load.row.id := LoadedPeer(load.guid, load.row, now)])
  }

  /** `PeerMap::get` without pause: memory first, then the table. */
  ghost function Get(s: State, id: string, now: int, readOk: bool): (State, bool) {
    if id in s.cache then (s, true)
    else
      match ReadRow(s.rows, id, readOk)
      case Some(load) => (InsertLoaded(s, load, now), true)
      case None => (s, false)
  }

  lemma GetCaches(s: State, id: string, now: int, readOk: bool)
    ensures Get(s, id, now, readOk).1 <==> id in Get(s, id, now, readOk).0.cache
  {
  }

  /** The end of `PeerMap::get_or`, under the write lock. */
  function Enter(s: State, id: string, now: int): State {
    if id in s.cache then s else s.(cache := s.cache[id := DefaultPeer(now)])
  }

  ghost function GetOr(s: State, id: string, now: int, readOk: bool): (s': State)
    ensures id in s'.cache
  {
    Enter(Get(s, id, now, readOk).0, id, now)
  }

  /** The table half of `update_pk`, for the guid found in the record: the row is written, and the
      guid of a new row noted in the record; false if nothing was written. */
  ghost function WriteBack(s: State, guid: Bytes, row: Row, env: Env): (State, bool)
    requires row.id in s.cache
  {
    var (rows, ok) := Written(s.rows, guid, row, env.newGuid, env.writeOk);
    var p := s.cache[row.id];
    (s.(rows := rows, cache := s.cache[row.id := if guid == [] && ok then p.(guid := env.newGuid) else p]), ok)
  }

  function SetRecord(s: State, id: string, addr: Addr, uuid: Bytes, pk: Bytes, now: int): State
    requires id in s.cache
  {
    s.(cache := s.cache[id := s.cache[id].(socketAddr := addr, uuid := uuid, pk := pk, lastRegTime := now, infoIp := Some(addr.ip))])
  }

  /** `PeerMap::update_pk`: memory is written first; whether the row followed is in the answer, which
      the handler drops. */
  ghost function UpdatePk(s: State, id: string, addr: Addr, uuid: Bytes, pk: Bytes, now: int, env: Env): State
    requires id in s.cache
  {
    WriteBack(SetRecord(s, id, addr, uuid, pk, now), s.cache[id].guid, Row(id, uuid, pk, Some(addr.ip)), env).0
  }

  // ---------- Handlers ----------

  /** The identity check of `handle_register_pk`: same uuid, and not a new key from a new address. */
  predicate Mismatch(p: Peer, rk: RegisterPk, ip: Ip) {
    p.uuid != [] && (p.uuid != rk.uuid || (p.infoIp != Some(ip) && p.pk != rk.pk))
  }

  predicate Changed(p: Peer, rk: RegisterPk, ip: Ip) {
    p.uuid == [] || p.uuid != rk.uuid || p.pk != rk.pk || p.infoIp != Some(ip)
  }

  predicate RegLimited(p: Peer, now: int) {
    !SecsExceed(p.regTime, now, 6) && p.regCount > 2
  }

  function RegCounted(p: Peer, now: int): Peer {
    p.(regCount := (if SecsExceed(p.regTime, now, 6) then 0 else p.regCount) + 1, regTime := now)
  }

  /** The request is charged to the id's counter and, if it says something new, recorded. */
  ghost function Accept(s: State, rk: RegisterPk, addr: Addr, ws: bool, now: int, env: Env): State
    requires rk.id in s.cache
  {
    var p := s.cache[rk.id];
    var s' := s.(cache := s.cache[rk.id := RegCounted(p, now)]);
    if Changed(p, rk, addr.ip) || ws then UpdatePk(s', rk.id, addr, rk.uuid, rk.pk, now, env) else s'
  }

  ghost function RegisterFound(s: State, rk: RegisterPk, addr: Addr, ws: bool, now: int, env: Env): (State, RegResult)
    requires rk.id in s.cache
  {
    var p := s.cache[rk.id];
    if Mismatch(p, rk, addr.ip) then (s, UUID_MISMATCH)
    else if RegLimited(p, now) then (s, TOO_FREQUENT)
    else (Accept(s, rk, addr, ws, now, env), OK)
  }

  /** Everything after the format checks and the per-IP gate. */
  ghost function RegisterKnown(s: State, rk: RegisterPk, addr: Addr, ws: bool, now: int, env: Env): (State, RegResult) {
    RegisterFound(GetOr(s, rk.id, now, env.readOk), rk, addr, ws, now, env)
  }

  ghost function HandleRegisterPk(s: State, rk: RegisterPk, addr: Addr, ws: bool, now: int, env: Env): (State, RegResult) {
    if rk.uuid == [] || rk.pk == [] then (s, INVALID_ID_FORMAT)
    else if |rk.id| < 6 then (s, UUID_MISMATCH)
    else
      var (blocker, ok) := Checked(s.blocker, addr.ip, rk.id, now);
      if !ok then (s.(blocker := blocker), TOO_FREQUENT)
      else RegisterKnown(s.(blocker := blocker), rk, addr, ws, now, env)
  }

  /** Past the gates the handler is `RegisterKnown`; before them it touches the gate at most. */
  lemma HandleIsGated(s: State, rk: RegisterPk, addr: Addr, ws: bool, now: int, env: Env)
    ensures var gated := s.(blocker := Checked(s.blocker, addr.ip, rk.id, now).0);
            var h := HandleRegisterPk(s, rk, addr, ws, now, env);
            || h == RegisterKnown(gated, rk, addr, ws, now, env)
            || (h.0.cache == s.cache && h.0.rows == s.rows && h.1 != OK)
    ensures rk.uuid == [] ==> HandleRegisterPk(s, rk, addr, ws, now, env) == (s, INVALID_ID_FORMAT)
  {
  }

  /** Does this address make the peer prove its key again? Loopback never does. */
  predicate IpChange(p: Peer, addr: Addr) {
    (if p.socketAddr.port != 0 then addr.ip != p.socketAddr.ip else Some(addr.ip) != p.infoIp) && !addr.ip.IsLoopback()
  }

  function UpdateAddr(s: State, id: string, addr: Addr, now: int): (State, bool) {
    if id !in s.cache then (s, true)
    else
      var p := s.cache[id];
      if p.pk == [] || IpChange(p, addr) then (s, true)
      else (s.(cache := s.cache[id := p.(socketAddr := addr, lastRegTime := now)]), false)
  }

  ghost function GetPk(s: State, id: string, signing: bool, now: int, readOk: bool): (State, Option<(string, Bytes)>) {
    if !signing then (s, None)
    else
      var (s', found) := Get(s, id, now, readOk);
      GetCaches(s, id, now, readOk);
      (s', if found then Some((id, s'.cache[id].pk)) else None)
  }

  /** The licence and login checks; None lets the request through. */
  function Gate(ph: PunchHoleRequest): Option<PunchFailure> {
    if !ph.licenceOk then Some(LICENSE_MISMATCH)
    else if ph.mustLogin && ph.tokenEmpty then Some(PLEASE_LOGIN)
    else if ph.mustLogin && !ph.secretEmpty && !ph.tokenValid then Some(TOKEN_ERROR)
    else None
  }

  ghost function HandlePunchHole(s: State, ph: PunchHoleRequest, now: int, readOk: bool): (State, PunchReply) {
    if Gate(ph).Some? then (s, Failed(Gate(ph).value))
    else
      var (s', found) := Get(s, ph.id, now, readOk);
      GetCaches(s, ph.id, now, readOk);
      (s', if !found then Failed(ID_NOT_EXIST)
           else if Online(s'.cache[ph.id], now) then Forward(s'.cache[ph.id].socketAddr) else Failed(OFFLINE))
  }

  /** The online bit reads memory only. */
  predicate OnlineBit(s: State, id: string, now: int) {
    id in s.cache && Online(s.cache[id], now)
  }

  /** A restart keeps the table and nothing else. */
  function Restarted(s: State): State {
    State(map[], s.rows, map[], [])
  }

  // ---------- Runs ----------

  function Clock(ev: Event): int {
    ev.now
  }

  /** The i-th row on its way is put into memory. */
  function FinishLoad(s: State, i: nat, now: int): State
    requires i < |s.loading|
  {
    InsertLoaded(s, s.loading[i], now).(loading := s.loading[..i] + s.loading[i + 1..])
  }

  ghost function Step(s: State, ev: Event): (State, Out) {
    match ev
    case OnRegisterPk(rk, addr, ws, now, env) =>
      var (s', r) := HandleRegisterPk(s, rk, addr, ws, now, env); (s', Registered(r))
    case OnRegisterPeer(id, addr, now) =>
      if id == "" then (s, Silent)
      else
        var (s', r) := UpdateAddr(s, id, addr, now);
        (s', RequestPk(r))
    case OnGetPk(id, signing, now, env) =>
      var (s', r) := GetPk(s, id, signing, now, env.readOk); (s', SignedPk(r))
    case OnPunchHole(ph, now, env) =>
      var (s', r) := HandlePunchHole(s, ph, now, env.readOk); (s', Punched(r))
    case OnIpBlockerCmd(target, now) =>
      (s.(blocker := IpBlocker.Step(s.blocker, if target.Some? then Delete(target.value, now) else Prune(now)).0), Silent)
    case OnLoadRead(id, now, env) =>
      var load := ReadRow(s.rows, id, env.readOk);
      (if load.Some? then s.(loading := s.loading + [load.value]) else s, Silent)
    case OnLoadInsert(i, now) => (if i < |s.loading| then FinishLoad(s, i, now) else s, Silent)
    case OnRestart(now) => (Restarted(s), Silent)
  }

  ghost function Run(s: State, tr: seq<Event>): State
    decreases |tr|
  {
    if tr == [] then s else Run(Step(s, tr[0]).0, tr[1..])
  }
}
