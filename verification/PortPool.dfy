/** The pool of ports that the server hands out for passive data connections
  * (ftp/server.go, choosePassivePort and releasePassivePort).
  *
  * `ports` is a permutation of the configured range; its first `empty` entries
  * are free. `index` is meant to be its inverse, shifted by the lowest port.
  * The functions below say what one call does to a pool value, including the
  * error results and the run-time panics; class `PassivePorts` is the code that
  * works on two arrays in place.
  */
module PortPool {

  datatype Error = PassiveModeDisabled | EmptyPortNotFound

  datatype Outcome<+T> = Returned(value: T) | Failed(error: Error) | Panicked

  /** MinPassivePort and MaxPassivePort. */
  datatype Config = Config(min: int, max: int) {
    function Low(): int { if min < 0 then 0 else min }

    function High(): int { if max > 65535 then 65535 else max }

    function Size(): int { High() - Low() + 1 }

    predicate Offers(port: int) { Low() <= port <= High() }

    /** The ports that a pool for this configuration is made of. */
    function Range(): set<int> { set p | Low() <= p <= High() && Offers(p) }
  }

  /** `Unmade` is the state before the first choose, when the slices are nil. */
  datatype Pool = Unmade | Made(ports: seq<int>, index: seq<int>, empty: int)

  function Fresh(cfg: Config): Pool
    requires cfg.Size() >= 0
  {
    Made(seq(cfg.Size(), i => i + cfg.Low()), seq(cfg.Size(), i => i), cfg.Size())
  }

  /** What holds of every pool, whatever the configuration: enough for the index
    * expressions in choose to be in bounds. */
  predicate Shaped(cfg: Config, pool: Pool) {
    pool.Made? ==>
      && |pool.ports| == |pool.index| == cfg.Size()
      && 0 <= pool.empty <= cfg.Size()
      && (forall i :: 0 <= i < |pool.ports| ==> cfg.Low() <= pool.ports[i] <= cfg.High())
      && (forall i :: 0 <= i < |pool.index| ==> 0 <= pool.index[i] < cfg.Size())
  }

  /** The pool's real invariant: `index` is the exact inverse of `ports`. */
  ghost predicate Valid(cfg: Config, pool: Pool) {
    && Shaped(cfg, pool)
    && (pool.Made? ==>
          forall i, s :: 0 <= i < cfg.Size() && 0 <= s < cfg.Size() ==>
            (pool.ports[i] == s + cfg.Low() <==> pool.index[s] == i))
  }

  predicate IsFree(cfg: Config, pool: Pool, port: int)
    requires Shaped(cfg, pool) && cfg.Offers(port)
  {
    pool.Made? ==> pool.index[port - cfg.Low()] < pool.empty
  }

  function Free(cfg: Config, pool: Pool): set<int>
    requires Shaped(cfg, pool)
  {
    set p | p in cfg.Range() && IsFree(cfg, pool, p)
  }

  function Held(cfg: Config, pool: Pool): set<int>
    requires Shaped(cfg, pool)
  {
    set p | p in cfg.Range() && !IsFree(cfg, pool, p)
  }

  // ---------------------------------------------------------------- choose

  function Take(cfg: Config, pool: Pool, idx: nat): (Pool, Outcome<int>)
    requires pool.Made? && Shaped(cfg, pool) && idx < pool.empty
  {
    var last := pool.empty - 1;
    var port1, port2 := pool.ports[idx], pool.ports[last];
    (Made(pool.ports[idx := port2][last := port1],
          pool.index[port1 - cfg.Low() := last][port2 - cfg.Low() := idx],
          last),
     Returned(port1))
  }

  /** One call of choosePassivePort; `random` stands for the random source. */
  function Choose(cfg: Config, pool: Pool, random: nat): (Pool, Outcome<int>)
    requires Shaped(cfg, pool)
  {
    if cfg.min > cfg.max then (pool, Failed(PassiveModeDisabled))
    else if cfg.max == 0 then (pool, Returned(0))
    else if pool.Unmade? && cfg.Size() < 0 then (pool, Panicked)
    else
      var made := if pool.Unmade? then Fresh(cfg) else pool;
      if made.empty == 0 then (made, Failed(EmptyPortNotFound))
      else Take(cfg, made, random % made.empty)
  }

  // --------------------------------------------------------------- release

  /** One call of releasePassivePort; the boolean is false when the call panics. */
  function Release(cfg: Config, pool: Pool, port: int): (Pool, bool)
    requires Shaped(cfg, pool)
  {
    if port == 0 then (pool, true)
    else if port < cfg.min || port > cfg.max || pool.Unmade? || port - cfg.min >= |pool.index| then (pool, false)
    else if pool.empty >= |pool.ports| then (pool, false)
    else
      var slot, idx1, idx2 := port - cfg.min, pool.index[port - cfg.min], pool.empty;
      var slot2 := pool.ports[idx2] - cfg.min;
      if slot2 < 0 || slot2 >= |pool.index| then (pool, false)
      else
        (Made(pool.ports[idx1 := pool.ports[idx2]][idx2 := pool.ports[idx1]],
              pool.index[slot := pool.index[slot2]][slot2 := pool.index[slot]],
              pool.empty + 1),
         true)
  }

  // ------------------------------------------------- what a pool is made of

  lemma FreshIsValid(cfg: Config)
    requires cfg.Size() >= 0
    ensures Valid(cfg, Fresh(cfg))
    ensures Free(cfg, Fresh(cfg)) == cfg.Range() && Held(cfg, Fresh(cfg)) == {}
  {
  }

  /** The free ports are exactly the first `empty` entries of `ports`. */
  lemma FreeEntries(cfg: Config, pool: Pool)
    requires Valid(cfg, pool) && pool.Made?
    ensures forall p :: p in Free(cfg, pool) <==> p in pool.ports[..pool.empty]
  {
    forall p | p in Free(cfg, pool) ensures p in pool.ports[..pool.empty] {
      assert pool.ports[..pool.empty][pool.index[p - cfg.Low()]] == p;
    }
  }

  /** The held ports are exactly the other entries. */
  lemma HeldEntries(cfg: Config, pool: Pool)
    requires Valid(cfg, pool) && pool.Made?
    ensures forall p :: p in Held(cfg, pool) <==> p in pool.ports[pool.empty..]
  {
    forall p | p in Held(cfg, pool) ensures p in pool.ports[pool.empty..] {
      assert pool.ports[pool.empty..][pool.index[p - cfg.Low()] - pool.empty] == p;
    }
  }

  /** `ports` is a permutation of the range: it lists every port exactly once. */
  lemma ListedOnce(cfg: Config, pool: Pool, p: int)
    requires Valid(cfg, pool) && pool.Made?
    ensures multiset(pool.ports)[p] == if p in cfg.Range() then 1 else 0
  {
    if p in cfg.Range() {
      var i := pool.index[p - cfg.Low()];
      assert pool.ports == pool.ports[..i] + [p] + pool.ports[i + 1..];
      assert p !in pool.ports[..i] && p !in pool.ports[i + 1..];
    } else {
      assert p !in pool.ports;
    }
  }

  /** Ports are conserved: every port is free or held, and never both. */
  lemma PortsAreConserved(cfg: Config, pool: Pool)
    requires Shaped(cfg, pool)
    ensures Free(cfg, pool) !! Held(cfg, pool)
    ensures Free(cfg, pool) + Held(cfg, pool) == cfg.Range()
    ensures |Free(cfg, pool)| + |Held(cfg, pool)| == |cfg.Range()|
  {
    assert Free(cfg, pool) + Held(cfg, pool) == cfg.Range();
  }

  /** `numEmptyPorts` counts the free ports, and the rest are held. */
  lemma EmptyCountsFreePorts(cfg: Config, pool: Pool)
    requires Valid(cfg, pool) && pool.Made?
    ensures |Free(cfg, pool)| == pool.empty
    ensures |Held(cfg, pool)| == cfg.Size() - pool.empty
  {
    FreeEntries(cfg, pool);
    SliceSize(cfg, pool, 0, pool.empty, Free(cfg, pool));
    HeldEntries(cfg, pool);
    SliceSize(cfg, pool, pool.empty, |pool.ports|, Held(cfg, pool));
  }

  lemma SliceSize(cfg: Config, pool: Pool, lo: int, hi: int, elements: set<int>)
    requires Valid(cfg, pool) && pool.Made? && 0 <= lo <= hi <= |pool.ports|
    requires forall p :: p in elements <==> p in pool.ports[lo..hi]
    ensures |elements| == hi - lo
  {
    EntriesAreDistinct(cfg, pool);
    DistinctSize(pool.ports[lo..hi], elements);
  }

  lemma EntriesAreDistinct(cfg: Config, pool: Pool)
    requires Valid(cfg, pool) && pool.Made?
    ensures forall i, j :: 0 <= i < j < |pool.ports| ==> pool.ports[i] != pool.ports[j]
  {
    forall i, j | 0 <= i < j < |pool.ports| ensures pool.ports[i] != pool.ports[j] {
      assert pool.index[pool.ports[i] - cfg.Low()] == i;
      assert pool.index[pool.ports[j] - cfg.Low()] == j;
    }
  }

  lemma {:induction false} DistinctSize(s: seq<int>, elements: set<int>)
    requires forall i, j :: 0 <= i < j < |s| ==> s[i] != s[j]
    requires forall p :: p in elements <==> p in s
    ensures |elements| == |s|
  {
    if s == [] {
      assert forall p :: p !in elements;
    } else {
      var last := s[|s| - 1];
      forall p ensures p in elements - {last} <==> p in s[..|s| - 1] {
        if p in elements - {last} {
          var i :| 0 <= i < |s| && s[i] == p;
          assert s[..|s| - 1][i] == p;
        }
      }
      DistinctSize(s[..|s| - 1], elements - {last});
    }
  }

  // ------------------------------------------------------- choose, as a law

  lemma TakeKeepsValid(cfg: Config, pool: Pool, idx: nat)
    requires pool.Made? && Valid(cfg, pool) && idx < pool.empty
    ensures Valid(cfg, Take(cfg, pool, idx).0)
  {
    var slot1, slot2 := pool.ports[idx] - cfg.Low(), pool.ports[pool.empty - 1] - cfg.Low();
    assert pool.index[slot1] == idx && pool.index[slot2] == pool.empty - 1;
  }

  lemma TakeMovesOnePort(cfg: Config, pool: Pool, idx: nat)
    requires pool.Made? && Valid(cfg, pool) && idx < pool.empty
    ensures var (after, r) := Take(cfg, pool, idx);
            && Valid(cfg, after)
            && r.value == pool.ports[idx]
            && Free(cfg, after) == Free(cfg, pool) - {r.value}
            && Held(cfg, after) == Held(cfg, pool) + {r.value}
  {
    TakeKeepsValid(cfg, pool, idx);
    var (after, r) := Take(cfg, pool, idx);
    var last := pool.empty - 1;
    var slot1, slot2 := pool.ports[idx] - cfg.Low(), pool.ports[last] - cfg.Low();
    assert pool.index[slot1] == idx && pool.index[slot2] == last;
    assert forall p :: p in cfg.Range() ==> (IsFree(cfg, after, p) <==> IsFree(cfg, pool, p) && p != r.value);
  }

  /** What the law below says of one call. */
  ghost predicate ChooseOk(cfg: Config, pool: Pool, after: Pool, r: Outcome<int>)
    requires Shaped(cfg, pool)
  {
    && Valid(cfg, after)
    && (r.Returned? && cfg.max != 0 ==>
          && r.value in Free(cfg, pool)
          && Free(cfg, after) == Free(cfg, pool) - {r.value}
          && Held(cfg, after) == Held(cfg, pool) + {r.value})
    && (!r.Returned? || cfg.max == 0 ==>
          Free(cfg, after) == Free(cfg, pool) && Held(cfg, after) == Held(cfg, pool))
    && (cfg.min <= cfg.max && cfg.max != 0 ==> (r.Returned? <==> Free(cfg, pool) != {}))
    && (r == Failed(EmptyPortNotFound) ==> Free(cfg, pool) == {})
    && ErrorsOk(cfg, pool, after, r)
  }

  /** Which answer is given without choosing a port: with MaxPassivePort 0 the
    * system is to pick one; a range that begins after 65536 or ends before -1
    * gives the slices of the first call a negative length. */
  predicate ErrorsOk(cfg: Config, pool: Pool, after: Pool, r: Outcome<int>) {
    && (r == Failed(PassiveModeDisabled) <==> cfg.min > cfg.max)
    && (cfg.min <= cfg.max && cfg.max == 0 ==> r == Returned(0) && after == pool)
    && (r.Panicked? <==> cfg.min <= cfg.max && cfg.max != 0 && pool.Unmade? && (cfg.min > 65536 || cfg.max < -1))
    && (r == Failed(EmptyPortNotFound) || r.Panicked? ==> cfg.min <= cfg.max && cfg.max != 0)
  }

  lemma ChooseErrors(cfg: Config, pool: Pool, random: nat)
    requires Shaped(cfg, pool)
    ensures ErrorsOk(cfg, pool, Choose(cfg, pool, random).0, Choose(cfg, pool, random).1)
  {
  }

  /** The pool is made of the configured ports that exist. */
  lemma RangeIsClamped(cfg: Config, p: int)
    ensures p in cfg.Range() <==> cfg.min <= p <= cfg.max && 0 <= p <= 65535
  {
    assert cfg.Offers(p) <==> cfg.Low() <= p <= cfg.High();
  }

  /** What a release of a port outside the range does: port 0 is ignored, any other
    * panics. */
  lemma ReleaseOutside(cfg: Config, pool: Pool, port: int)
    requires Shaped(cfg, pool) && (port == 0 || port < cfg.min || port > cfg.max)
    ensures Release(cfg, pool, port) == (pool, port == 0)
  {
  }

  lemma ChooseFromMade(cfg: Config, pool: Pool, random: nat)
    requires Valid(cfg, pool) && pool.Made? && cfg.min <= cfg.max && cfg.max != 0
    ensures ChooseOk(cfg, pool, Choose(cfg, pool, random).0, Choose(cfg, pool, random).1)
  {
    ChooseErrors(cfg, pool, random);
    FreeEntries(cfg, pool);
    if pool.empty != 0 {
      assert pool.ports[random % pool.empty] in pool.ports[..pool.empty];
      TakeMovesOnePort(cfg, pool, random % pool.empty);
    }
  }

  /** Choose moves exactly the port it returns from free to held; it fails with
    * "empty port not found" exactly when nothing is free. */
  lemma ChooseLaw(cfg: Config, pool: Pool, random: nat)
    requires Valid(cfg, pool)
    ensures ChooseOk(cfg, pool, Choose(cfg, pool, random).0, Choose(cfg, pool, random).1)
  {
    ChooseErrors(cfg, pool, random);
    if cfg.min <= cfg.max && cfg.max != 0 {
      if pool.Made? {
        ChooseFromMade(cfg, pool, random);
      } else if cfg.Size() < 0 {
        assert cfg.Range() == {};
      } else {
        FreshIsValid(cfg);
        ChooseFromMade(cfg, Fresh(cfg), random);
      }
    }
  }

  /** Every free port can be the next one chosen. */
  lemma FreePortIsChoosable(cfg: Config, pool: Pool, port: int) returns (random: nat)
    requires Valid(cfg, pool) && cfg.min <= cfg.max && cfg.max != 0
    requires port in Free(cfg, pool)
    ensures Choose(cfg, pool, random).1 == Returned(port)
  {
    if pool.Unmade? { FreshIsValid(cfg); }
    var made := if pool.Unmade? then Fresh(cfg) else pool;
    random := made.index[port - cfg.Low()];
    assert made.ports[random] == port;
    RemainderOfSmaller(random, made.empty);
  }

  lemma RemainderOfSmaller(n: nat, d: nat)
    requires n < d
    ensures n % d == n
  {
  }

  // ------------------------------------------------------ release, as a law

  lemma ReleaseKeepsValid(cfg: Config, pool: Pool, port: int)
    requires Valid(cfg, pool) && cfg.min >= 0
    requires port in Held(cfg, pool) && port != 0
    ensures Release(cfg, pool, port).1 && Valid(cfg, Release(cfg, pool, port).0)
  {
    var slot, slot2 := port - cfg.min, pool.ports[pool.empty] - cfg.min;
    assert pool.ports[pool.index[slot]] == port && pool.index[slot2] == pool.empty;
  }

  /** Releasing a held port never panics, and makes exactly that port free. */
  lemma ReleaseLaw(cfg: Config, pool: Pool, port: int)
    requires Valid(cfg, pool) && cfg.min >= 0
    requires port in Held(cfg, pool) && port != 0
    ensures var (after, ok) := Release(cfg, pool, port);
            && ok
            && Valid(cfg, after)
            && Free(cfg, after) == Free(cfg, pool) + {port}
            && Held(cfg, after) == Held(cfg, pool) - {port}
  {
    ReleaseKeepsValid(cfg, pool, port);
    var (after, ok) := Release(cfg, pool, port);
    var slot, slot2 := port - cfg.min, pool.ports[pool.empty] - cfg.min;
    assert pool.ports[pool.index[slot]] == port && pool.index[slot2] == pool.empty;
    assert forall p :: p in cfg.Range() ==> (IsFree(cfg, after, p) <==> IsFree(cfg, pool, p) || p == port);
  }

  /** For every pool and every random draw, a chosen port that is given back is
    * free again. */
  ghost predicate EveryPortComesBack(cfg: Config) {
    forall pool, random: nat | Valid(cfg, pool) ::
      var (taken, r) := Choose(cfg, pool, random);
      r.Returned? ==>
        && Shaped(cfg, taken)
        && Release(cfg, taken, r.value).1
        && var given := Release(cfg, taken, r.value).0;
           Shaped(cfg, given) && Free(cfg, given) == Free(cfg, pool)
  }

  /** The configurations for which ports never leak: a pool that would contain
    * port 0 loses it (release ignores port 0), and no other pool does. */
  lemma PortsComeBackExactly(cfg: Config)
    ensures EveryPortComesBack(cfg) <==> cfg.min >= 1 || cfg.max <= 0
  {
    if cfg.min >= 1 || cfg.max <= 0 {
      forall pool, random: nat | Valid(cfg, pool)
        ensures var (taken, r) := Choose(cfg, pool, random);
                r.Returned? ==>
                  && Shaped(cfg, taken)
                  && Release(cfg, taken, r.value).1
                  && var given := Release(cfg, taken, r.value).0;
                     Shaped(cfg, given) && Free(cfg, given) == Free(cfg, pool)
      {
        ChooseLaw(cfg, pool, random);
        var (taken, r) := Choose(cfg, pool, random);
        if r.Returned? && cfg.max != 0 {
          ReleaseLaw(cfg, taken, r.value);
        }
      }
    } else {
      var pool: Pool := Unmade;
      FreshIsValid(cfg);
      ChooseLaw(cfg, pool, 0);
      assert Fresh(cfg).ports[0] == 0;
      var (taken, r) := Choose(cfg, pool, 0);
      assert r == Returned(0) && Release(cfg, taken, 0).0 == taken;
      assert Valid(cfg, pool);
      assert 0 in Free(cfg, pool) && 0 !in Free(cfg, taken);
    }
  }

  // -------------------------------------------------- sequences of calls

  datatype Call = ChooseCall(random: nat) | ReleaseCall(port: int)

  /** A pool together with the ports its callers have been given and still hold. */
  datatype Ledger = Ledger(pool: Pool, out: set<int>)

  function Perform(cfg: Config, l: Ledger, call: Call): Ledger
    requires Shaped(cfg, l.pool)
  {
    match call
    case ChooseCall(random) =>
      var (after, r) := Choose(cfg, l.pool, random);
      Ledger(after, if r.Returned? && r.value != 0 then l.out + {r.value} else l.out)
    case ReleaseCall(port) =>
      Ledger(Release(cfg, l.pool, port).0, l.out - {port})
  }

  /** Callers give back only ports that they hold. */
  ghost predicate Honest(cfg: Config, l: Ledger, calls: seq<Call>)
    decreases |calls|
  {
    calls == [] ||
    (&& Shaped(cfg, l.pool)
     && (calls[0].ReleaseCall? ==> calls[0].port in l.out)
     && Honest(cfg, Perform(cfg, l, calls[0]), calls[1..]))
  }

  ghost function PerformAll(cfg: Config, l: Ledger, calls: seq<Call>): Ledger
    requires Honest(cfg, l, calls)
    decreases |calls|
  {
    if calls == [] then l else PerformAll(cfg, Perform(cfg, l, calls[0]), calls[1..])
  }

  ghost predicate Balanced(cfg: Config, l: Ledger) {
    && Valid(cfg, l.pool)
    && 0 !in l.out
    && Held(cfg, l.pool) == l.out
    && Free(cfg, l.pool) == cfg.Range() - l.out
  }

  lemma CallKeepsBalance(cfg: Config, l: Ledger, call: Call)
    requires cfg.min >= 1 || cfg.max <= 0
    requires Balanced(cfg, l)
    requires call.ReleaseCall? ==> call.port in l.out
    ensures Balanced(cfg, Perform(cfg, l, call))
    ensures call.ReleaseCall? ==> Release(cfg, l.pool, call.port).1
  {
    match call
    case ChooseCall(random) =>
      ChooseLaw(cfg, l.pool, random);
    case ReleaseCall(port) =>
      ReleaseLaw(cfg, l.pool, port);
  }

  /** Through every sequence of chooses and honest releases the pool stays an
    * exact record of who holds what, and no release panics. */
  lemma {:induction false} EverySequenceStaysBalanced(cfg: Config, l: Ledger, calls: seq<Call>)
    requires cfg.min >= 1 || cfg.max <= 0
    requires Balanced(cfg, l) && Honest(cfg, l, calls)
    ensures Balanced(cfg, PerformAll(cfg, l, calls))
    decreases |calls|
  {
    if calls != [] {
      CallKeepsBalance(cfg, l, calls[0]);
      EverySequenceStaysBalanced(cfg, Perform(cfg, l, calls[0]), calls[1..]);
    }
  }

  // ------------------------------------------------------ the code in place

  class PassivePorts {
    const cfg: Config
    var ports: array?<int>
    var idxPorts: array?<int>
    var numEmptyPorts: int

    ghost function State(): Pool
      reads this, ports, idxPorts
    {
      if ports == null || idxPorts == null then Unmade else Made(ports[..], idxPorts[..], numEmptyPorts)
    }

    ghost predicate Ok()
      reads this, ports, idxPorts
    {
      && (ports == null <==> idxPorts == null)
      && (ports != null ==> ports != idxPorts)
      && Shaped(cfg, State())
    }

    constructor (cfg: Config)
      ensures this.cfg == cfg && Ok() && State() == Unmade
    {
      this.cfg := cfg;
      ports, idxPorts, numEmptyPorts := null, null, 0;
    }

    method MakePool()
      requires Ok() && ports == null && cfg.Size() >= 0
      modifies this
      ensures Ok() && State() == Fresh(cfg)
      ensures ports != null && fresh(ports) && idxPorts != null && fresh(idxPorts)
    {
      var low, size := cfg.Low(), cfg.Size();
      var p, x := new int[size], new int[size];
      for i := 0 to size
        invariant forall j :: 0 <= j < i ==> p[j] == j + low && x[j] == j
      {
        p[i], x[i] := i + low, i;
      }
      ports, idxPorts, numEmptyPorts := p, x, size;
      assert ports[..] == Fresh(cfg).ports && idxPorts[..] == Fresh(cfg).index;
    }

    /** The swap at the end of choosePassivePort. */
    method TakePort(idx: nat) returns (port1: int)
      requires Ok() && ports != null && idx < numEmptyPorts
      modifies this`numEmptyPorts, ports, idxPorts
      ensures Ok() && (State(), Returned(port1)) == old(Take(cfg, State(), idx))
    {
      ghost var before := State();
      numEmptyPorts := numEmptyPorts - 1;
      var port2 := ports[numEmptyPorts];
      port1 := ports[idx];
      ports[idx] := port2;
      ports[numEmptyPorts] := port1;
      idxPorts[port1 - cfg.Low()] := numEmptyPorts;
      idxPorts[port2 - cfg.Low()] := idx;
      assert State() == Take(cfg, before, idx).0;
    }

    method ChoosePassivePort(random: nat) returns (r: Outcome<int>)
      requires Ok()
      modifies this, ports, idxPorts
      ensures Ok() && (State(), r) == old(Choose(cfg, State(), random))
      ensures ports != old(ports) ==> fresh(ports) && fresh(idxPorts)
    {
      if cfg.min > cfg.max { return Failed(PassiveModeDisabled); }
      if cfg.max == 0 { return Returned(0); }
      if ports == null {
        if cfg.Size() < 0 { return Panicked; }
        MakePool();
      }
      if numEmptyPorts == 0 { return Failed(EmptyPortNotFound); }
      var port := TakePort(random % numEmptyPorts);
      r := Returned(port);
    }

    method ReleasePassivePort(port: int) returns (ok: bool)
      requires Ok()
      modifies this, ports, idxPorts
      ensures Ok() && (State(), ok) == old(Release(cfg, State(), port))
    {
      if port == 0 { return true; }
      if port < cfg.min || port > cfg.max { return false; }
      if ports == null || port - cfg.min >= idxPorts.Length || numEmptyPorts >= ports.Length { return false; }
      ghost var before := State();
      var slot := port - cfg.min;
      var idx1, idx2 := idxPorts[slot], numEmptyPorts;
      var slot2 := ports[idx2] - cfg.min;
      if slot2 < 0 || slot2 >= idxPorts.Length { return false; }
      var at, at2 := idxPorts[slot], idxPorts[slot2];
      idxPorts[slot] := at2;
      idxPorts[slot2] := at;
      var p1, p2 := ports[idx1], ports[idx2];
      ports[idx1] := p2;
      ports[idx2] := p1;
      numEmptyPorts := numEmptyPorts + 1;
      ok := true;
      assert State() == Release(cfg, before, port).0;
    }
  }
}
