/**
  cSceneManager: the environment weather state machine with its fog and its
  weather particle spawner, the per-frame update of all spawners, and the
  table of loaded wild-spawn records keyed on (national dex id, form name).
*/
module SceneManagement {
  import opened Geometry
  import opened ParticleSpawning

  datatype Weather = None | Snow | Hail | Snowstorm | Rain | HeavyRain | Sandstorm | Leaves

  predicate Snowy(w: Weather)
  {
    w == Snow || w == Hail || w == Snowstorm
  }

  predicate Rainy(w: Weather)
  {
    w == Rain || w == HeavyRain
  }

  /** A change between two weathers of one family blends instead of rebuilding. */
  predicate SameFamily(a: Weather, b: Weather)
  {
    (Snowy(a) && Snowy(b)) || (Rainy(a) && Rainy(b))
  }

  datatype Fog = Fog(density: real, gradient: real, color: Vec3)

  /** The weather spawner as the scene sees it: absent, or its tuning, look and pool. */
  datatype SpawnerView = NoSpawner | Spawner(settings: Config, model: RenderModel, pool: Pool)

  /** The part of the scene SetWeather reads and writes. */
  datatype Environment = Environment(weather: Weather, fog: Fog, spawner: SpawnerView)

  const SnowGrey := Vec3(0.89, 0.89, 0.89)

  /** The snowfall spawner: 500 flakes falling from 13 units above the player, over a 40 by 40 square. */
  const SnowConfig := Config(Vec3(0.0, 13.0, 0.0), true, Vec3(-20.0, 0.0, -20.0), Vec3(20.0, 0.0, 20.0),
                             Vec3(0.0, -3.0, 0.0), 0.05, 10.0, 500)

  const SnowModel := RenderModel("SpriteHolder.obj", "snow", "SnowFlake3.png", Splat(0.3))

  /**
    SetWeather on values. The same weather changes nothing; a change inside
    a family keeps fog and spawner; any other change drops the spawner and
    applies the target's fog, and snow brings a fresh snowfall spawner.
  */
  function Transition(e: Environment, to: Weather): (r: Environment)
    ensures r.weather == to
    ensures to == e.weather ==> r == e
    ensures SameFamily(e.weather, to) ==> r.fog == e.fog && r.spawner == e.spawner
    ensures to != e.weather && !SameFamily(e.weather, to) ==>
      && r.spawner == (if to == Snow then Spawner(SnowConfig, SnowModel, Pool([], 0.0)) else NoSpawner)
      && r.fog.color == (if to == Snow || to == Hail then SnowGrey else e.fog.color)
      && (to == None ==> r.fog.density == 0.0 && r.fog.gradient == 0.1)
      && (to == Snow ==> r.fog.density == 0.057 && r.fog.gradient == 0.57)
      && (to == Hail ==> r.fog.density == 0.022 && r.fog.gradient == 0.48)
      && (to !in {None, Snow, Hail} ==> r.fog == e.fog)
  {
    if to == e.weather then e
    else if SameFamily(e.weather, to) then e.(weather := to)
    else
      match to
      case None => Environment(to, e.fog.(density := 0.0, gradient := 0.1), NoSpawner)
      case Snow => Environment(to, Fog(0.057, 0.57, SnowGrey), Spawner(SnowConfig, SnowModel, Pool([], 0.0)))
      case Hail => Environment(to, Fog(0.022, 0.48, SnowGrey), NoSpawner)
      case _ => Environment(to, e.fog, NoSpawner)
  }

  /** Setting the weather twice is setting it once. */
  lemma TransitionIdempotent(e: Environment, w: Weather)
    ensures Transition(Transition(e, w), w) == Transition(e, w)
  {
  }

  /**
    Snow and back: leaving snow for no weather tears the snowfall spawner
    down again and clears the fog, whatever the scene looked like before.
  */
  lemma SnowThenClear(e: Environment)
    requires !Snowy(e.weather)
    ensures var snowing := Transition(e, Snow);
      && snowing.spawner.Spawner? && snowing.spawner.settings == SnowConfig
      && var cleared := Transition(snowing, None);
      && cleared.spawner == NoSpawner
      && cleared.fog == Fog(0.0, 0.1, SnowGrey)
  {
  }

  /** Only snow ever brings a spawner with it: a scene without one never gains one except by snowing. */
  lemma OnlySnowSpawns(e: Environment, w: Weather)
    requires e.spawner == NoSpawner && w != Snow
    ensures Transition(e, w).spawner == NoSpawner
  {
  }

  /** One loaded wild-spawn record. */
  datatype SpawnData = SpawnData(
    nationalDexNumber: int,
    formName: string,
    minLevel: int,
    maxLevel: int,
    spawnChance: int,
    genderRatio: real,
    isStatsGenderBased: bool,
    isSpriteGenderBased: bool)

  /** What the species loader reports about a species, passed in by the caller. */
  datatype SpeciesData = SpeciesData(genderRatio: real, isStatsGenderBased: bool, isSpriteGenderBased: bool)

  /** An overworld sprite-sheet load the scene asks the render manager for. */
  datatype SpriteSheet = SpriteSheet(nationalDexId: int, formName: string)

  predicate HasKey(d: SpawnData, dex: int, form: string)
  {
    d.nationalDexNumber == dex && d.formName == form
  }

  predicate IsLoaded(data: seq<SpawnData>, dex: int, form: string)
  {
    exists j :: 0 <= j < |data| && HasKey(data[j], dex, form)
  }

  /** No two records share a (dex id, form name) key. */
  predicate KeysDistinct(data: seq<SpawnData>)
  {
    forall i, j :: 0 <= i < j < |data| ==>
      !HasKey(data[j], data[i].nationalDexNumber, data[i].formName)
  }

  function NewSpawnData(dex: int, minLevel: int, maxLevel: int, chance: int, form: string, species: SpeciesData): (r: SpawnData)
    ensures HasKey(r, dex, form)
  {
    SpawnData(dex, form, minLevel, maxLevel, chance,
              species.genderRatio, species.isStatsGenderBased, species.isSpriteGenderBased)
  }

  /** The sprite sheets a first load asks for: the form's, and the female one of a gender-based base form. */
  function SpriteSheetsFor(dex: int, form: string, species: SpeciesData): (r: seq<SpriteSheet>)
    ensures |r| >= 1 && r[0] == SpriteSheet(dex, form)
    ensures |r| == 2 <==> species.isSpriteGenderBased && form == ""
    ensures |r| == 2 ==> r[1] == SpriteSheet(dex, "f")
  {
    [SpriteSheet(dex, form)] + (if species.isSpriteGenderBased && form == "" then [SpriteSheet(dex, "f")] else [])
  }

  /** LoadSpawnData on values: a record whose key is already loaded is ignored, any other is appended. */
  function WithSpawnData(data: seq<SpawnData>, d: SpawnData): (r: seq<SpawnData>)
    ensures IsLoaded(r, d.nationalDexNumber, d.formName)
    ensures IsLoaded(data, d.nationalDexNumber, d.formName) ==> r == data
    ensures !IsLoaded(data, d.nationalDexNumber, d.formName) ==> r == data + [d]
  {
    if IsLoaded(data, d.nationalDexNumber, d.formName) then data
    else
      assert HasKey((data + [d])[|data|], d.nationalDexNumber, d.formName);
      data + [d]
  }

  /** Loading the same key twice leaves what loading it once left, whatever the second call's other fields. */
  lemma WithSpawnDataIdempotent(data: seq<SpawnData>, d: SpawnData, d': SpawnData)
    requires HasKey(d', d.nationalDexNumber, d.formName)
    ensures WithSpawnData(WithSpawnData(data, d), d') == WithSpawnData(data, d)
  {
  }

  /** The table never holds two records for one key. */
  lemma {:induction false} WithSpawnDataKeepsKeysDistinct(data: seq<SpawnData>, d: SpawnData)
    requires KeysDistinct(data)
    ensures KeysDistinct(WithSpawnData(data, d))
  {
    if !IsLoaded(data, d.nationalDexNumber, d.formName) {
      var r := data + [d];
      forall i, j | 0 <= i < j < |r|
        ensures !HasKey(r[j], r[i].nationalDexNumber, r[i].formName)
      {
        if j == |data| {
          assert r[i] == data[i];
        }
      }
    }
  }

  /** Earlier records are never changed or reordered, and a record is only ever added at the end. */
  lemma WithSpawnDataExtends(data: seq<SpawnData>, d: SpawnData)
    ensures var r := WithSpawnData(data, d);
      && |data| <= |r| <= |data| + 1
      && r[..|data|] == data
  {
  }

  /** No two of the spawners are one object, and no two share a buffer. */
  ghost predicate Separate(ss: seq<ParticleSpawner>)
  {
    forall i, j :: 0 <= i < j < |ss| ==> ss[i] != ss[j] && ss[i].buffer != ss[j].buffer
  }

  /** x is none of the spawners and shares a buffer with none of them. */
  ghost predicate Apart(x: ParticleSpawner, ss: seq<ParticleSpawner>)
  {
    forall j :: 0 <= j < |ss| ==> ss[j] != x && ss[j].buffer != x.buffer
  }

  lemma SeparateAt(ss: seq<ParticleSpawner>, i: int)
    requires Separate(ss) && 0 <= i < |ss|
    ensures forall j :: 0 <= j < |ss| && j != i ==> ss[j] != ss[i] && ss[j].buffer != ss[i].buffer
  {
    forall j | 0 <= j < |ss| && j != i
      ensures ss[j] != ss[i] && ss[j].buffer != ss[i].buffer
    {
      if j < i {
        assert ss[j] != ss[i] && ss[j].buffer != ss[i].buffer;
      } else {
        assert ss[i] != ss[j] && ss[i].buffer != ss[j].buffer;
      }
    }
  }

  /**
    s has made one update from pool before with tuning config and render
    model look, which it keeps; its buffer mirrors the new pool, and the
    slots past the survivors still hold what slots held before.
  */
  ghost predicate Stepped(s: ParticleSpawner, before: Pool, config: Config, look: RenderModel, slots: seq<Slot>,
                          dt: real, d: Draw, player: Vec3)
    reads s, s.buffer
  {
    s.Valid() && s.Settings() == config && s.model == look && s.Contents() == Tick(config, before, dt, d, player) &&
    s.Mirrored() && |slots| == s.buffer.Length &&
    forall j :: |s.particles| <= j < s.buffer.Length ==> s.buffer[j] == slots[j]
  }

  /** s has not updated yet: its pool, tuning, render model and buffer are as they were. */
  ghost predicate Waiting(s: ParticleSpawner, before: Pool, config: Config, look: RenderModel, slots: seq<Slot>)
    reads s, s.buffer
  {
    s.Valid() && s.Settings() == config && s.model == look && s.Contents() == before && s.buffer[..] == slots
  }

  /** The spawners and their buffers. */
  ghost function Owned(ss: seq<ParticleSpawner>): set<object>
  {
    (set j | 0 <= j < |ss| :: ss[j] as object) + (set j | 0 <= j < |ss| :: ss[j].buffer as object)
  }

  lemma ApartOwned(x: ParticleSpawner, ss: seq<ParticleSpawner>)
    requires Apart(x, ss)
    ensures x !in Owned(ss) && x.buffer !in Owned(ss)
  {
  }

  /**
    The loop of Process over the scene's own spawners: spawner j updates
    with draws[j], in order, and since no two share an object or a buffer,
    each one ends exactly one update further on.
  */
  method UpdateEach(ss: seq<ParticleSpawner>, deltaTime: real, draws: seq<Draw>, player: Vec3)
    requires |draws| == |ss| && Separate(ss)
    requires forall j :: 0 <= j < |ss| ==> ss[j].Valid()
    modifies Owned(ss)
    ensures forall j :: 0 <= j < |ss| ==>
      Stepped(ss[j], old(ss[j].Contents()), old(ss[j].Settings()), old(ss[j].model), old(ss[j].buffer[..]),
              deltaTime, draws[j], player)
  {
    ghost var pools := seq(|ss|, j requires 0 <= j < |ss| reads ss => ss[j].Contents());
    ghost var configs := seq(|ss|, j requires 0 <= j < |ss| reads ss => ss[j].Settings());
    ghost var looks := seq(|ss|, j requires 0 <= j < |ss| reads ss => ss[j].model);
    ghost var slots := seq(|ss|, j requires 0 <= j < |ss| reads Owned(ss) => ss[j].buffer[..]);
    var i := 0;
    while i < |ss|
      invariant 0 <= i <= |ss|
      invariant forall j :: 0 <= j < i ==> Stepped(ss[j], pools[j], configs[j], looks[j], slots[j], deltaTime, draws[j], player)
      invariant forall j :: i <= j < |ss| ==> Waiting(ss[j], pools[j], configs[j], looks[j], slots[j])
    {
      SeparateAt(ss, i);
      ss[i].Update(deltaTime, draws[i], player);
      // Update touched only ss[i] and its buffer, which no other spawner owns.
      forall j | 0 <= j < i
        ensures Stepped(ss[j], pools[j], configs[j], looks[j], slots[j], deltaTime, draws[j], player)
      {
        assert ss[j] != ss[i] && ss[j].buffer != ss[i].buffer;
      }
      forall j | i < j < |ss|
        ensures Waiting(ss[j], pools[j], configs[j], looks[j], slots[j])
      {
        assert ss[j] != ss[i] && ss[j].buffer != ss[i].buffer;
      }
      i := i + 1;
    }
  }

  /** The snowfall spawner SetWeather builds: capacity 500, then tuned field by field. */
  method NewSnowSpawner() returns (snow: ParticleSpawner)
    ensures fresh(snow) && fresh(snow.buffer) && snow.Valid()
    ensures snow.Settings() == SnowConfig && snow.model == SnowModel && snow.Contents() == Pool([], 0.0)
  {
    snow := new ParticleSpawner(Vec3(0.0, 13.0, 0.0), SnowModel, 500);
    snow.minPositionOffset := Vec3(-20.0, 0.0, -20.0);
    snow.maxPositionOffset := Vec3(20.0, 0.0, 20.0);
    snow.isPositionPlayerRelative := true;
    snow.spawnSpeed := Vec3(0.0, -3.0, 0.0);
    snow.spawnRate := 0.05;
    snow.particleLifeTime := 10.0;
  }

  class SceneManager {
    var currWeather: Weather
    var fogDensity: real
    var fogGradient: real
    var fogColor: Vec3
    var windSpeed: real
    var weatherParticleSpawner: ParticleSpawner?
    var particleSpawners: seq<ParticleSpawner>
    var loadedSpawnData: seq<SpawnData>

    /**
      The spawners are valid, no two are one object or share a buffer, the
      weather spawner is none of the others, and no two spawn records share
      a key.
    */
    ghost predicate Valid()
      reads this, weatherParticleSpawner, particleSpawners
    {
      && (weatherParticleSpawner != null ==> weatherParticleSpawner.Valid() && Apart(weatherParticleSpawner, particleSpawners))
      && (forall i :: 0 <= i < |particleSpawners| ==> particleSpawners[i].Valid())
      && Separate(particleSpawners)
      && this !in Footprint()
      && KeysDistinct(loadedSpawnData)
    }

    /** Every spawner the scene updates, and its buffer. */
    ghost function Footprint(): set<object>
      reads this
    {
      (if weatherParticleSpawner == null then {} else {weatherParticleSpawner as object, weatherParticleSpawner.buffer})
      + Owned(particleSpawners)
    }

    function Env(): Environment
      reads this, weatherParticleSpawner
    {
      Environment(currWeather, Fog(fogDensity, fogGradient, fogColor),
        if weatherParticleSpawner == null then NoSpawner
        else Spawner(weatherParticleSpawner.Settings(), weatherParticleSpawner.model, weatherParticleSpawner.Contents()))
    }

    constructor ()
      ensures Valid()
      ensures currWeather == None && fogDensity == 0.0 && fogGradient == 0.1 && windSpeed == 0.25
      ensures weatherParticleSpawner == null && particleSpawners == [] && loadedSpawnData == []
    {
      currWeather := None;
      fogDensity := 0.0;
      fogGradient := 0.1;
      windSpeed := 0.25;
      weatherParticleSpawner := null;
      particleSpawners := [];
      loadedSpawnData := [];
    }

    method SetWeather(newWeather: Weather)
      requires Valid()
      modifies this`currWeather, this`fogDensity, this`fogGradient, this`fogColor, this`weatherParticleSpawner
      ensures Valid()
      ensures Env() == Transition(old(Env()), newWeather)
      ensures weatherParticleSpawner != null ==>
        weatherParticleSpawner == old(weatherParticleSpawner) ||
        (fresh(weatherParticleSpawner) && fresh(weatherParticleSpawner.buffer))
    {
      ghost var before := Env();
      if newWeather == currWeather {
        return;
      }
      if SameFamily(currWeather, newWeather) {
        // Blending between the weathers of one family is left open.
      } else {
        weatherParticleSpawner := null;
        if newWeather == None {
          fogDensity := 0.0;
          fogGradient := 0.1;
        } else if newWeather == Snow {
          fogDensity := 0.057;
          fogGradient := 0.57;
          fogColor := SnowGrey;
          var snow := NewSnowSpawner();
          weatherParticleSpawner := snow;
        } else if newWeather == Hail {
          fogDensity := 0.022;
          fogGradient := 0.48;
          fogColor := SnowGrey;
        }
      }
      currWeather := newWeather;
      assert Env() == Transition(before, newWeather);
    }

    /**
      Adds the wild-spawn record for (nationalDexId, formName) unless one is
      loaded already, and returns the sprite sheets that had to be loaded
      for it (none when the record was there).
    */
    method LoadSpawnData(nationalDexId: int, minLevel: int, maxLevel: int, spawnChance: int, formName: string,
                         species: SpeciesData)
        returns (sheets: seq<SpriteSheet>)
      requires Valid()
      modifies this`loadedSpawnData
      ensures Valid()
      ensures loadedSpawnData ==
        WithSpawnData(old(loadedSpawnData), NewSpawnData(nationalDexId, minLevel, maxLevel, spawnChance, formName, species))
      ensures sheets == if IsLoaded(old(loadedSpawnData), nationalDexId, formName) then []
                        else SpriteSheetsFor(nationalDexId, formName, species)
    {
      var i := 0;
      while i < |loadedSpawnData|
        invariant 0 <= i <= |loadedSpawnData|
        invariant forall j :: 0 <= j < i ==> !HasKey(loadedSpawnData[j], nationalDexId, formName)
      {
        if loadedSpawnData[i].nationalDexNumber == nationalDexId && loadedSpawnData[i].formName == formName {
          return [];
        }
        i := i + 1;
      }
      WithSpawnDataKeepsKeysDistinct(loadedSpawnData,
        NewSpawnData(nationalDexId, minLevel, maxLevel, spawnChance, formName, species));
      sheets := [SpriteSheet(nationalDexId, formName)];
      if species.isSpriteGenderBased && formName == "" {
        sheets := sheets + [SpriteSheet(nationalDexId, "f")];
      }
      loadedSpawnData := loadedSpawnData + [SpawnData(nationalDexId, formName, minLevel, maxLevel, spawnChance,
                                                       species.genderRatio, species.isStatsGenderBased,
                                                       species.isSpriteGenderBased)];
    }

    /**
      One frame of every spawner: the weather spawner, if any, updates with
      weatherDraw and spawner i of the others with draws[i].
    */
    method Process(deltaTime: real, weatherDraw: Draw, draws: seq<Draw>, player: Vec3)
      requires Valid()
      requires |draws| == |particleSpawners|
      modifies Footprint()
      ensures Valid()
      ensures weatherParticleSpawner != null ==>
        && weatherParticleSpawner.Contents() ==
             Tick(weatherParticleSpawner.Settings(), old(weatherParticleSpawner.Contents()), deltaTime, weatherDraw, player)
        && weatherParticleSpawner.Settings() == old(weatherParticleSpawner.Settings())
        && weatherParticleSpawner.model == old(weatherParticleSpawner.model)
        && weatherParticleSpawner.Mirrored()
        && forall k :: |weatherParticleSpawner.particles| <= k < weatherParticleSpawner.buffer.Length ==>
             weatherParticleSpawner.buffer[k] == old(weatherParticleSpawner.buffer[k])
      ensures forall j :: 0 <= j < |particleSpawners| ==>
        && particleSpawners[j].Contents() ==
             Tick(particleSpawners[j].Settings(), old(particleSpawners[j].Contents()), deltaTime, draws[j], player)
        && particleSpawners[j].Settings() == old(particleSpawners[j].Settings())
        && particleSpawners[j].model == old(particleSpawners[j].model)
        && particleSpawners[j].Mirrored()
        && forall k :: |particleSpawners[j].particles| <= k < particleSpawners[j].buffer.Length ==>
             particleSpawners[j].buffer[k] == old(particleSpawners[j].buffer[k])
    {
      if weatherParticleSpawner != null {
        weatherParticleSpawner.Update(deltaTime, weatherDraw, player);
        ApartOwned(weatherParticleSpawner, particleSpawners);
      }
      UpdateEach(particleSpawners, deltaTime, draws, player);
    }
  }
}
