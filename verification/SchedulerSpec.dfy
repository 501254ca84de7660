/**
 What the proxy scheduler promises, without its heap: two pools of servers, each
 server picked by least (priority, ordinal), and the taint/drain administration.
 Class `ProxyScheduler.Scheduler` is proved against these functions.
 */
module SchedulerSpec {
  import opened Options

  datatype Role = Prefill | Decode

  /** Priority given to a drain-isolated server. */
  const TAINT_PRIORITY: real := 1000000000000000.0

  datatype Load = Load(host: string, port: int, ordinal: nat, activeTokens: real, activeKv: real)

  datatype Pool = Pool(servers: map<string, Load>, tainted: set<string>)

  /** One administered address; `key` is the normalised "host:port" text. */
  datatype Address = Address(key: string, host: string, port: int)

  datatype Waiting = Waiting(role: Role, host: string, port: int, retries: int)

  datatype State = State(
    prefill: Pool,
    decode: Pool,
    requestNum: nat,
    waiting: map<string, Waiting>,
    nextOrdinal: nat)
  {
    function RolePool(role: Role): Pool {
      match role
      case Prefill => prefill
      case Decode => decode
    }

    function WithPool(role: Role, pool: Pool): State {
      match role
      case Prefill => this.(prefill := pool)
      case Decode => this.(decode := pool)
    }
  }

  // ---------------------------------------------------------------- picking

  function Priority(role: Role, tainted: bool, load: Load): real {
    if tainted then TAINT_PRIORITY
    else if role.Prefill? then load.activeTokens + load.activeKv * 0.3
    else load.activeTokens
  }

  function PriorityOf(role: Role, pool: Pool, key: string): real
    requires key in pool.servers
  {
    Priority(role, key in pool.tainted, pool.servers[key])
  }

  /** `a` is scheduled no later than `b`. */
  predicate NoLater(role: Role, pool: Pool, a: string, b: string)
    requires a in pool.servers && b in pool.servers
  {
    var pa, pb := PriorityOf(role, pool, a), PriorityOf(role, pool, b);
    pa < pb || (pa == pb && pool.servers[a].ordinal <= pool.servers[b].ordinal)
  }

  ghost predicate IsBest(role: Role, pool: Pool, key: string) {
    && key in pool.servers
    && forall k :: k in pool.servers ==> NoLater(role, pool, key, k)
  }

  ghost predicate DistinctOrdinals(pool: Pool) {
    forall a, b :: a in pool.servers && b in pool.servers && a != b
                   ==> pool.servers[a].ordinal != pool.servers[b].ordinal
  }

  ghost predicate OrdinalsBelow(pool: Pool, n: nat) {
    forall k :: k in pool.servers ==> pool.servers[k].ordinal < n
  }

  lemma BestIsUnique(role: Role, pool: Pool, a: string, b: string)
    requires DistinctOrdinals(pool)
    requires IsBest(role, pool, a) && IsBest(role, pool, b)
    ensures a == b
  {
    assert NoLater(role, pool, a, b) && NoLater(role, pool, b, a);
  }

  lemma BestExists(role: Role, pool: Pool, keys: set<string>) returns (best: string)
    requires keys != {} && keys <= pool.servers.Keys
    ensures best in keys && forall k :: k in keys ==> NoLater(role, pool, best, k)
    decreases keys
  {
    best :| best in keys;
    if keys != {best} {
      var other := BestExists(role, pool, keys - {best});
      if NoLater(role, pool, other, best) {
        best := other;
      } else {
        assert forall k :: k in keys && k != best ==> k in keys - {best};
      }
    }
  }

  /** The live server least by (priority, ordinal); nothing when the pool is empty. */
  ghost function Best(role: Role, pool: Pool): (r: Option<string>)
    ensures r.None? <==> pool.servers == map[]
    ensures r.Some? ==> IsBest(role, pool, r.value)
  {
    if pool.servers == map[] then None
    else
      assert exists k :: IsBest(role, pool, k) by {
        assert pool.servers.Keys != {};
        var k := BestExists(role, pool, pool.servers.Keys);
        assert IsBest(role, pool, k);
      }
      var k :| IsBest(role, pool, k);
      Some(k)
  }

  /** A tainted server is picked only when no untainted one is below the taint priority. */
  lemma TaintedIsLastResort(role: Role, pool: Pool, k: string)
    requires Best(role, pool).Some?
    requires k in pool.servers && k !in pool.tainted
    requires PriorityOf(role, pool, k) < TAINT_PRIORITY
    ensures Best(role, pool).value !in pool.tainted
    ensures PriorityOf(role, pool, Best(role, pool).value) <= PriorityOf(role, pool, k)
  {
    assert NoLater(role, pool, Best(role, pool).value, k);
  }

  // ------------------------------------------------------- load bookkeeping

  function Charge(l: Load, load: real, tokens: bool, kv: bool): (r: Load)
    ensures r.ordinal == l.ordinal
  {
    l.(activeTokens := if tokens then l.activeTokens + load else l.activeTokens,
       activeKv := if kv then l.activeKv + load else l.activeKv)
  }

  /** Releasing KV clamps at zero; releasing tokens does not. */
  function Discharge(l: Load, load: real, tokens: bool, kv: bool): (r: Load)
    ensures r.ordinal == l.ordinal
  {
    l.(activeTokens := if tokens then l.activeTokens - load else l.activeTokens,
       activeKv := if !kv then l.activeKv
                   else if l.activeKv - load < 0.0 then 0.0 else l.activeKv - load)
  }

  function ChargePool(pool: Pool, key: string, load: real, tokens: bool, kv: bool): Pool
    requires key in pool.servers
  {
    pool.(servers := pool.servers[key := Charge(pool.servers[key], load, tokens, kv)])
  }

  function ReleasePool(pool: Pool, key: Option<string>, load: real, tokens: bool, kv: bool): Pool {
    if key.None? || key.value !in pool.servers then pool
    else pool.(servers := pool.servers[key.value := Discharge(pool.servers[key.value], load, tokens, kv)])
  }

  lemma LoadsKeepOrdinals(pool: Pool, key: Option<string>, load: real, tokens: bool, kv: bool, n: nat)
    requires OrdinalsBelow(pool, n)
    ensures OrdinalsBelow(ReleasePool(pool, key, load, tokens, kv), n)
    ensures key.Some? && key.value in pool.servers ==> OrdinalsBelow(ChargePool(pool, key.value, load, tokens, kv), n)
  {
  }

  lemma AdminKeepsOrdinals(pool: Pool, keys: set<string>, tainted: set<string>, n: nat)
    requires OrdinalsBelow(pool, n)
    ensures OrdinalsBelow(DropPool(pool, keys), n)
    ensures OrdinalsBelow(pool.(tainted := tainted), n)
  {
  }

  lemma JoinKeepsOrdinals(pool: Pool, key: string, load: Load)
    requires OrdinalsBelow(pool, load.ordinal)
    ensures OrdinalsBelow(pool.(servers := pool.servers[key := load]), load.ordinal + 1)
    ensures OrdinalsBelow(pool, load.ordinal + 1)
  {
  }

  lemma NothingTainted(pool: Pool)
    requires pool.tainted == {}
    ensures DropPool(pool, pool.tainted) == pool
  {
    assert pool.servers - {} == pool.servers;
  }

  ghost function PickServer(s: State, role: Role, load: real, tokens: bool, kv: bool): (r: (State, Option<string>))
  {
    var pool := s.RolePool(role);
    var best := Best(role, pool);
    if best.None? then (s, None)
    else (s.WithPool(role, ChargePool(pool, best.value, load, tokens, kv)), best)
  }

  ghost function BeginRequest(s: State, load: real): (State, Option<string>) {
    var (s', best) := PickServer(s, Prefill, load, false, true);
    if best.None? then (s, None) else (s'.(requestNum := s'.requestNum + 1), best)
  }

  ghost function ReservePrefillKv(s: State, load: real): (State, Option<string>) {
    PickServer(s, Prefill, load, false, true)
  }

  ghost function PickDecoder(s: State, load: real): (State, Option<string>) {
    PickServer(s, Decode, load, true, false)
  }

  function ReleasePrefillKv(s: State, key: Option<string>, load: real): State {
    s.(prefill := ReleasePool(s.prefill, key, load, false, true))
  }

  function ReleaseDecoder(s: State, key: Option<string>, load: real): State {
    s.(decode := ReleasePool(s.decode, key, load, true, false))
  }

  function FinishRequest(s: State, pk: Option<string>, pl: real, dk: Option<string>, dl: real,
                         releaseKv: bool): State
  {
    var s1 := if releaseKv then ReleasePrefillKv(s, pk, pl) else s;
    var s2 := ReleaseDecoder(s1, dk, dl);
    s2.(requestNum := if s2.requestNum == 0 then 0 else s2.requestNum - 1)
  }

  // ---------------------------------------------------------- administration

  function AddServer(s: State, role: Role, a: Address): State {
    var pool := s.RolePool(role);
    if a.key in pool.servers then s
    else s.WithPool(role, pool.(servers := pool.servers[a.key := Load(a.host, a.port, s.nextOrdinal, 0.0, 0.0)]))
          .(nextOrdinal := s.nextOrdinal + 1)
  }

  function AddServers(s: State, role: Role, addrs: seq<Address>): State {
    if addrs == [] then s
    else AddServer(AddServers(s, role, addrs[..|addrs| - 1]), role, addrs[|addrs| - 1])
  }

  const EMPTY: State := State(Pool(map[], {}), Pool(map[], {}), 0, map[], 0)

  function Init(prefillers: seq<Address>, decoders: seq<Address>): State {
    AddServers(AddServers(EMPTY, Prefill, prefillers), Decode, decoders)
  }

  /** Queue the addresses that are neither live in the role nor already waiting. */
  function AddInstances(s: State, role: Role, addrs: seq<Address>): (r: (State, seq<Address>)) {
    if addrs == [] then (s, [])
    else
      var (s1, queued) := AddInstances(s, role, addrs[..|addrs| - 1]);
      var a := addrs[|addrs| - 1];
      if a.key in s1.RolePool(role).servers || a.key in s1.waiting then (s1, queued)
      else (s1.(waiting := s1.waiting[a.key := Waiting(role, a.host, a.port, 0)]), queued + [a])
  }

  function MarkRetry(s: State, key: string, retries: int): State {
    if key !in s.waiting then s
    else s.(waiting := s.waiting[key := s.waiting[key].(retries := retries)])
  }

  function DropWaiting(s: State, key: string): State {
    s.(waiting := s.waiting - {key})
  }

  /** False marks the KeyError raised when a tainted key has no live server behind it. */
  function Activate(s: State, role: Role, a: Address): (State, bool) {
    var s1 := DropWaiting(s, a.key);
    var pool := s1.RolePool(role);
    if a.key in pool.tainted then
      (s1.WithPool(role, pool.(tainted := pool.tainted - {a.key})), a.key in pool.servers)
    else (AddServer(s1, role, a), true)
  }

  function Keys(addrs: seq<Address>): set<string> {
    set a <- addrs :: a.key
  }

  /** The servers under `keys` leave, with their taints. */
  function DropPool(pool: Pool, keys: set<string>): Pool {
    Pool(pool.servers - keys, pool.tainted - keys)
  }

  /** True asks the caller to wait for the drain. */
  function RemoveInstances(s: State, role: Role, addrs: seq<Address>): (State, bool) {
    var pool, keys := s.RolePool(role), Keys(addrs);
    if addrs == [] then (s, false)
    else if s.requestNum > 0 then
      (s.WithPool(role, pool.(tainted := pool.tainted + keys)), true)
    else
      (s.WithPool(role, DropPool(pool, keys)).(waiting := s.waiting - keys), false)
  }

  function Finalize(s: State): State {
    if s.requestNum != 0 then s
    else s.(prefill := DropPool(s.prefill, s.prefill.tainted), decode := DropPool(s.decode, s.decode.tainted))
  }
}
