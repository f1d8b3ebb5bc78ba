/**
  The bounded particle pool of cParticleSpawner: a pool whose capacity is
  reserved once, a spawn timer that allows at most one spawn per update, and
  a GPU buffer whose slot i mirrors live particle i after every update.
*/
module ParticleSpawning {
  import opened Geometry
  import opened Sequences

  /** One live particle: where it is, how fast it moves, how long it has lived. */
  datatype Particle = Particle(position: Vec3, speed: Vec3, timer: real)

  /** One vec4 of the GPU buffer: a particle's position and its timer. */
  datatype Slot = Slot(position: Vec3, timer: real)

  /** The three uniform draws of one spawn, one per axis generator. */
  datatype Draw = Draw(x: real, y: real, z: real)

  /** The mesh, shader, texture and scale a spawner draws its particles with. */
  datatype RenderModel = RenderModel(meshName: string, shaderName: string, textureName: string, scale: Vec3)

  /** The tuning of a spawner; capacity is what the constructor reserved. */
  datatype Config = Config(
    spawnPosition: Vec3,
    isPositionPlayerRelative: bool,
    minPositionOffset: Vec3,
    maxPositionOffset: Vec3,
    spawnSpeed: Vec3,
    spawnRate: real,
    particleLifeTime: real,
    capacity: nat)

  /** The state one update changes: the live particles and the spawn timer. */
  datatype Pool = Pool(particles: seq<Particle>, timer: real)

  /** What the generators promise: each draw lies in [0, 1]. */
  predicate IsUnitDraw(d: Draw)
  {
    0.0 <= d.x <= 1.0 && 0.0 <= d.y <= 1.0 && 0.0 <= d.z <= 1.0
  }

  /** Rescales a draw r from [0, 1] to [lo, hi]. */
  function OffsetAxis(r: real, lo: real, hi: real): real
  {
    (r * (hi - lo)) / (1.0 - 0.0) + lo
  }

  function SpawnOffset(c: Config, d: Draw): Vec3
  {
    Vec3(OffsetAxis(d.x, c.minPositionOffset.x, c.maxPositionOffset.x),
         OffsetAxis(d.y, c.minPositionOffset.y, c.maxPositionOffset.y),
         OffsetAxis(d.z, c.minPositionOffset.z, c.maxPositionOffset.z))
  }

  /** Where offsets are measured from: the spawn position, moved by the player's when relative. */
  function SpawnOrigin(c: Config, player: Vec3): Vec3
  {
    if c.isPositionPlayerRelative then Add(c.spawnPosition, player) else c.spawnPosition
  }

  /** The particle one successful spawn appends. */
  function NewParticle(c: Config, d: Draw, player: Vec3): Particle
  {
    var p := Add(SpawnOffset(c, d), c.spawnPosition);
    Particle(if c.isPositionPlayerRelative then Add(p, player) else p, c.spawnSpeed, 0.0)
  }

  /** SpawnParticle on values: append one particle unless the pool is at capacity. */
  function TrySpawn(c: Config, ps: seq<Particle>, d: Draw, player: Vec3): (r: seq<Particle>)
    ensures |ps| >= c.capacity ==> r == ps
    ensures |ps| < c.capacity ==> |r| == |ps| + 1 && r[..|ps|] == ps && r[|ps|] == NewParticle(c, d, player)
  {
    if |ps| >= c.capacity then ps else ps + [NewParticle(c, d, player)]
  }

  function Aged(p: Particle, dt: real): Particle
  {
    p.(timer := p.timer + dt)
  }

  function Moved(p: Particle, dt: real): Particle
  {
    p.(position := Add(p.position, Scale(p.speed, dt)))
  }

  /** A particle expires in this update when its aged timer passes the lifetime. */
  predicate Expires(p: Particle, dt: real, life: real)
  {
    Aged(p, dt).timer > life
  }

  /** The particle loop of Update on values: age each particle, drop the expired, move the rest. */
  function Survivors(ps: seq<Particle>, dt: real, life: real): (r: seq<Particle>)
    ensures |r| <= |ps|
    ensures forall q :: q in r ==> q.timer <= life
  {
    if ps == [] then []
    else
      var p := ps[|ps| - 1];
      Survivors(ps[..|ps| - 1], dt, life) + (if Expires(p, dt, life) then [] else [Moved(Aged(p, dt), dt)])
  }

  /** The positions in ps, increasing, of the particles that survive this update. */
  function KeptIndices(ps: seq<Particle>, dt: real, life: real): seq<nat>
  {
    if ps == [] then []
    else KeptIndices(ps[..|ps| - 1], dt, life) + (if Expires(ps[|ps| - 1], dt, life) then [] else [|ps| - 1])
  }

  /** Extending the visited prefix by one particle extends the survivors by at most that particle. */
  lemma SurvivorsStep(ps: seq<Particle>, k: nat, dt: real, life: real)
    requires k < |ps|
    ensures Survivors(ps[..k + 1], dt, life) ==
      Survivors(ps[..k], dt, life) + (if Expires(ps[k], dt, life) then [] else [Moved(Aged(ps[k], dt), dt)])
  {
    assert ps[..k + 1][..k] == ps[..k];
  }

  /**
    The particle loop visits pool[k] at index i = |done| once the first k
    particles are done; ageing it there puts the aged particle in its place.
  */
  lemma VisitAge(pool: seq<Particle>, k: nat, done: seq<Particle>, dt: real)
    requires k < |pool|
    ensures (done + pool[k..])[|done|] == pool[k]
    ensures (done + pool[k..])[|done| := Aged(pool[k], dt)] == done + [Aged(pool[k], dt)] + pool[k + 1..]
  {
    assert pool[k..] == [pool[k]] + pool[k + 1..];
    ReplaceAt(done, pool[k], Aged(pool[k], dt), pool[k + 1..]);
  }

  /** Erasing an expired particle at index |done| leaves the survivors of the first k + 1 particles unchanged. */
  lemma VisitErase(pool: seq<Particle>, k: nat, done: seq<Particle>, dt: real, life: real)
    requires k < |pool| && done == Survivors(pool[..k], dt, life)
    requires Expires(pool[k], dt, life)
    ensures Survivors(pool[..k + 1], dt, life) == done
    ensures var aged := done + [Aged(pool[k], dt)] + pool[k + 1..];
      aged[..|done|] + aged[|done| + 1..] == done + pool[k + 1..]
  {
    SurvivorsStep(pool, k, dt, life);
    EraseAt(done, Aged(pool[k], dt), pool[k + 1..]);
  }

  /** Moving a surviving particle at index |done| appends it to the survivors of the first k + 1 particles. */
  lemma VisitMove(pool: seq<Particle>, k: nat, done: seq<Particle>, dt: real, life: real)
    requires k < |pool| && done == Survivors(pool[..k], dt, life)
    requires !Expires(pool[k], dt, life)
    ensures Survivors(pool[..k + 1], dt, life) == done + [Moved(Aged(pool[k], dt), dt)]
    ensures var aged := done + [Aged(pool[k], dt)] + pool[k + 1..];
      aged[|done| := Moved(aged[|done|], dt)] == done + [Moved(Aged(pool[k], dt), dt)] + pool[k + 1..]
  {
    SurvivorsStep(pool, k, dt, life);
    ReplaceAt(done, Aged(pool[k], dt), Moved(Aged(pool[k], dt), dt), pool[k + 1..]);
  }

  /**
    Survivor j is the aged and moved particle at the j-th kept position:
    Survivors is a map over the kept positions.
  */
  lemma {:induction false} SurvivorsAtKept(ps: seq<Particle>, dt: real, life: real)
    ensures var idx := KeptIndices(ps, dt, life);
      && |idx| == |Survivors(ps, dt, life)|
      && forall j :: 0 <= j < |idx| ==> idx[j] < |ps| && Survivors(ps, dt, life)[j] == Moved(Aged(ps[idx[j]], dt), dt)
  {
    if ps != [] {
      var init := ps[..|ps| - 1];
      SurvivorsAtKept(init, dt, life);
      assert forall i :: 0 <= i < |init| ==> init[i] == ps[i];
    }
  }

  /** The kept positions are strictly increasing, so Survivors keeps the pool's order. */
  lemma {:induction false} KeptIncreasing(ps: seq<Particle>, dt: real, life: real)
    ensures forall j :: 0 <= j < |KeptIndices(ps, dt, life)| ==> KeptIndices(ps, dt, life)[j] < |ps|
    ensures forall j1, j2 :: 0 <= j1 < j2 < |KeptIndices(ps, dt, life)| ==>
      KeptIndices(ps, dt, life)[j1] < KeptIndices(ps, dt, life)[j2]
  {
    if ps != [] {
      var init := ps[..|ps| - 1];
      KeptIncreasing(init, dt, life);
      var idx0 := KeptIndices(init, dt, life);
      var idx := KeptIndices(ps, dt, life);
      assert idx == idx0 + (if Expires(ps[|ps| - 1], dt, life) then [] else [|ps| - 1]);
      assert forall j :: 0 <= j < |idx0| ==> idx[j] == idx0[j] < |ps| - 1;
    }
  }

  /** A position is kept exactly when its particle does not expire in this update. */
  lemma {:induction false} KeptExactly(ps: seq<Particle>, dt: real, life: real)
    ensures forall i :: 0 <= i < |ps| ==> (i in KeptIndices(ps, dt, life) <==> !Expires(ps[i], dt, life))
  {
    if ps != [] {
      var init := ps[..|ps| - 1];
      KeptIncreasing(init, dt, life);
      KeptExactly(init, dt, life);
      var idx0 := KeptIndices(init, dt, life);
      assert KeptIndices(ps, dt, life) == idx0 + (if Expires(ps[|ps| - 1], dt, life) then [] else [|ps| - 1]);
      assert |ps| - 1 !in idx0;
      assert forall i :: 0 <= i < |init| ==> init[i] == ps[i];
    }
  }

  /**
    One Update on values. With a positive spawn rate the timer grows by dt,
    and when it exceeds the rate one spawn is tried; only a spawn that
    succeeds takes the rate off the timer. Then the particle loop runs.
  */
  function Tick(c: Config, pool: Pool, dt: real, d: Draw, player: Vec3): (r: Pool)
    ensures |pool.particles| <= c.capacity ==> |r.particles| <= c.capacity
    ensures |r.particles| <= |pool.particles| + 1
    ensures forall q :: q in r.particles ==> q.timer <= c.particleLifeTime
    ensures c.spawnRate <= 0.0 ==> r == Pool(Survivors(pool.particles, dt, c.particleLifeTime), pool.timer)
    ensures c.spawnRate > 0.0 ==>
      var spawned := pool.timer + dt > c.spawnRate && |pool.particles| < c.capacity;
      && r.timer == (if spawned then pool.timer + dt - c.spawnRate else pool.timer + dt)
      && r.particles == Survivors(if spawned then pool.particles + [NewParticle(c, d, player)] else pool.particles, dt, c.particleLifeTime)
  {
    if c.spawnRate > 0.0 then
      var t := pool.timer + dt;
      if t > c.spawnRate && |pool.particles| < c.capacity then
        Pool(Survivors(TrySpawn(c, pool.particles, d, player), dt, c.particleLifeTime), t - c.spawnRate)
      else
        Pool(Survivors(pool.particles, dt, c.particleLifeTime), t)
    else
      Pool(Survivors(pool.particles, dt, c.particleLifeTime), pool.timer)
  }

  /** A run of updates, one (delta-time, draw) pair per frame. */
  function TickMany(c: Config, pool: Pool, steps: seq<(real, Draw)>, player: Vec3): Pool
    decreases |steps|
  {
    if steps == [] then pool
    else TickMany(c, Tick(c, pool, steps[0].0, steps[0].1, player), steps[1..], player)
  }

  /** Over any run of updates the live count never exceeds the capacity. */
  lemma {:induction false} TickManyBounded(c: Config, pool: Pool, steps: seq<(real, Draw)>, player: Vec3)
    requires |pool.particles| <= c.capacity
    ensures |TickMany(c, pool, steps, player).particles| <= c.capacity
    decreases |steps|
  {
    if steps != [] {
      TickManyBounded(c, Tick(c, pool, steps[0].0, steps[0].1, player), steps[1..], player);
    }
  }

  /** A spawn is only ever paid for out of an accumulated timer above the rate, so it stays positive. */
  lemma TickTimerNeverNegative(c: Config, pool: Pool, dt: real, d: Draw, player: Vec3)
    requires pool.timer >= 0.0 && dt >= 0.0
    ensures Tick(c, pool, dt, d, player).timer >= 0.0
  {
  }

  /** Each offset axis is the draw rescaled into [min, max]. */
  lemma OffsetAxisWithin(r: real, lo: real, hi: real)
    requires 0.0 <= r <= 1.0 && lo <= hi
    ensures lo <= OffsetAxis(r, lo, hi) <= hi
  {
    var m := r * (hi - lo);
    FractionOf(r, hi - lo);
    assert OffsetAxis(r, lo, hi) == m / 1.0 + lo;
  }

  /**
    A new particle starts at age 0 with the spawn speed, inside the box
    [origin + minOffset, origin + maxOffset].
  */
  lemma NewParticleInBox(c: Config, d: Draw, player: Vec3)
    requires IsUnitDraw(d)
    requires c.minPositionOffset.x <= c.maxPositionOffset.x
    requires c.minPositionOffset.y <= c.maxPositionOffset.y
    requires c.minPositionOffset.z <= c.maxPositionOffset.z
    ensures var p := NewParticle(c, d, player);
      && p.timer == 0.0 && p.speed == c.spawnSpeed
      && Within(p.position, Add(SpawnOrigin(c, player), c.minPositionOffset), Add(SpawnOrigin(c, player), c.maxPositionOffset))
  {
    OffsetAxisWithin(d.x, c.minPositionOffset.x, c.maxPositionOffset.x);
    OffsetAxisWithin(d.y, c.minPositionOffset.y, c.maxPositionOffset.y);
    OffsetAxisWithin(d.z, c.minPositionOffset.z, c.maxPositionOffset.z);
  }

  function SlotOf(p: Particle): Slot
  {
    Slot(p.position, p.timer)
  }

  class ParticleSpawner {
    var spawnPosition: Vec3
    var isPositionPlayerRelative: bool
    var minPositionOffset: Vec3
    var maxPositionOffset: Vec3
    var spawnSpeed: Vec3
    var spawnRate: real
    var particleLifeTime: real
    var timer: real
    var model: RenderModel
    var particles: seq<Particle>
    /** The capacity reserved for particles at construction. */
    const maxParticles: nat
    /** The GPU buffer, one (position, timer) slot per particle the pool can hold. */
    const buffer: array<Slot>

    ghost predicate Valid()
      reads this
    {
      buffer.Length == maxParticles && |particles| <= maxParticles
    }

    function Settings(): Config
      reads this
    {
      Config(spawnPosition, isPositionPlayerRelative, minPositionOffset, maxPositionOffset,
             spawnSpeed, spawnRate, particleLifeTime, maxParticles)
    }

    function Contents(): Pool
      reads this
    {
      Pool(particles, timer)
    }

    /** Slot i of the buffer holds live particle i, for every live particle. */
    ghost predicate Mirrored()
      reads this, buffer
    {
      |particles| <= buffer.Length &&
      forall j :: 0 <= j < |particles| ==> buffer[j] == SlotOf(particles[j])
    }

    constructor (position: Vec3, model: RenderModel, maxParticles: nat)
      ensures Valid() && fresh(buffer)
      ensures spawnPosition == position && !isPositionPlayerRelative && this.model == model
      ensures this.maxParticles == maxParticles && spawnRate == 0.1 && timer == 0.0 && particles == []
    {
      spawnPosition := position;
      isPositionPlayerRelative := false;
      particles := [];
      this.maxParticles := maxParticles;
      spawnRate := 0.1;
      timer := 0.0;
      this.model := model;
      buffer := new Slot[maxParticles];
    }

    method SpawnParticle(d: Draw, player: Vec3) returns (ok: bool)
      requires Valid()
      modifies this`particles
      ensures Valid()
      ensures ok <==> |old(particles)| < maxParticles
      ensures particles == TrySpawn(Settings(), old(particles), d, player)
    {
      if |particles| >= maxParticles {
        return false;
      }
      var offset := SpawnOffset(Settings(), d);
      var position := Add(offset, spawnPosition);
      if isPositionPlayerRelative {
        position := Add(position, player);
      }
      particles := particles + [Particle(position, spawnSpeed, 0.0)];
      ok := true;
    }

    /** Tries numToSpawn spawns; the k-th successful one uses draws[k]. */
    method SpawnParticles(numToSpawn: nat, draws: seq<Draw>, player: Vec3)
      requires Valid()
      requires |draws| >= numToSpawn
      modifies this`particles
      ensures Valid()
      ensures var added := if numToSpawn <= maxParticles - |old(particles)| then numToSpawn else maxParticles - |old(particles)|;
        |particles| == |old(particles)| + added &&
        particles[..|old(particles)|] == old(particles) &&
        forall k :: 0 <= k < added ==> particles[|old(particles)| + k] == NewParticle(Settings(), draws[k], player)
    {
      var start := |particles|;
      var i := 0;
      while i < numToSpawn
        invariant 0 <= i <= numToSpawn
        invariant Valid() && start == |old(particles)|
        invariant var added := if i <= maxParticles - |old(particles)| then i else maxParticles - |old(particles)|;
          |particles| == |old(particles)| + added &&
          particles[..|old(particles)|] == old(particles) &&
          forall k :: 0 <= k < added ==> particles[|old(particles)| + k] == NewParticle(Settings(), draws[k], player)
      {
        var _ := SpawnParticle(draws[|particles| - start], player);
        i := i + 1;
      }
    }

    method Update(deltaTime: real, d: Draw, player: Vec3)
      requires Valid()
      modifies this, buffer
      ensures Valid() && Settings() == old(Settings()) && model == old(model)
      ensures Contents() == Tick(Settings(), old(Contents()), deltaTime, d, player)
      ensures Mirrored()
      ensures forall j :: |particles| <= j < buffer.Length ==> buffer[j] == old(buffer[j])
    {
      if spawnRate > 0.0 {
        timer := timer + deltaTime;
        if timer > spawnRate {
          var ok := SpawnParticle(d, player);
          if ok {
            timer := timer - spawnRate;
          }
        }
      }
      AdvanceParticles(deltaTime);
    }

    /**
      The particle loop of Update: ages every particle, erases the expired
      ones in place, moves the survivors and writes survivor i into buffer
      slot i. The slots past the survivors keep what they held.
    */
    method AdvanceParticles(deltaTime: real)
      requires Valid()
      modifies this`particles, buffer
      ensures Valid()
      ensures particles == Survivors(old(particles), deltaTime, particleLifeTime)
      ensures Mirrored()
      ensures forall j :: |particles| <= j < buffer.Length ==> buffer[j] == old(buffer[j])
    {
      // The loop works on a local copy of the pool that is written back once
      // it is done; nothing reads the pool meanwhile. The ghost state says
      // that the first k particles of the pool have been visited and that
      // done are their survivors, which sit at indices 0 .. i - 1.
      var live := particles;
      var life := particleLifeTime;
      ghost var pool := live;
      ghost var k := 0;
      ghost var done: seq<Particle> := [];
      ghost var init := buffer[..];
      var i: int := 0;
      while i < |live|
        invariant 0 <= k <= |pool| <= buffer.Length == |init|
        invariant init == old(buffer[..])
        invariant done == Survivors(pool[..k], deltaTime, life)
        invariant live == done + pool[k..]
        invariant i == |done|
        invariant forall j :: 0 <= j < i ==> buffer[j] == SlotOf(done[j])
        invariant forall j :: i <= j < buffer.Length ==> buffer[j] == init[j]
        decreases |live| - i
      {
        live, i, done := VisitParticle(live, i, deltaTime, life, pool, k, done, init);
        k := k + 1;
      }
      assert pool[..k] == pool;
      particles := live;
    }

    /**
      One pass of the loop body at index i: the particle ages; if it has
      outlived its lifetime it is erased and i steps back so that the
      particle moved into index i is visited next; otherwise it moves and
      its slot is written. Either way the first k + 1 particles of the pool
      are then done.
    */
    method VisitParticle(live: seq<Particle>, i: int, deltaTime: real, life: real,
                         ghost pool: seq<Particle>, ghost k: nat, ghost done: seq<Particle>, ghost init: seq<Slot>)
        returns (next: seq<Particle>, j: int, ghost done': seq<Particle>)
      requires k < |pool| <= buffer.Length == |init|
      requires done == Survivors(pool[..k], deltaTime, life)
      requires live == done + pool[k..] && i == |done|
      requires forall m :: 0 <= m < i ==> buffer[m] == SlotOf(done[m])
      requires forall m :: i <= m < buffer.Length ==> buffer[m] == init[m]
      modifies buffer
      ensures done' == Survivors(pool[..k + 1], deltaTime, life)
      ensures next == done' + pool[k + 1..] && j == |done'|
      ensures forall m :: 0 <= m < j ==> buffer[m] == SlotOf(done'[m])
      ensures forall m :: j <= m < buffer.Length ==> buffer[m] == init[m]
    {
      VisitAge(pool, k, done, deltaTime);
      next := live[i := Aged(live[i], deltaTime)];
      j := i;
      done' := done;
      if next[j].timer > life {
        VisitErase(pool, k, done, deltaTime, life);
        next := next[..j] + next[j + 1..];
        j := j - 1;
      } else {
        VisitMove(pool, k, done, deltaTime, life);
        next := next[j := Moved(next[j], deltaTime)];
        buffer[j] := Slot(next[j].position, next[j].timer);
        done' := done + [next[j]];
      }
      j := j + 1;
    }
  }
}
