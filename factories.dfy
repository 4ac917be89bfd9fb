/**
 * The model factory (src/ModelFactories.h, src/ModelFactories.cpp): one
 * buffered template per model name, copied out with a pose applied, and
 * the random spawn arithmetic, with each `rand()` draw passed in as a
 * non-negative integer.
 */
module Factories {
  import opened Geometry
  import opened Wrappers
  import opened Objects
  import opened Models

  /** `enum ModelName`, in declaration order. */
  datatype ModelName = E45Aircraft | Rocket | Repvenator | Fighter | DeathRow | MystAsteroid | Asteroid1

  /** The enumerator's integer value. */
  function Ordinal(n: ModelName): (k: nat)
    ensures k < 7
  {
    match n
    case E45Aircraft => 0
    case Rocket => 1
    case Repvenator => 2
    case Fighter => 3
    case DeathRow => 4
    case MystAsteroid => 5
    case Asteroid1 => 6
  }

  /** `static_cast<ModelName>(k)`, defined for the seven enumerator values. */
  function FromOrdinal(k: nat): (n: ModelName)
    requires k < 7
    ensures Ordinal(n) == k
  {
    if k == 0 then E45Aircraft
    else if k == 1 then Rocket
    else if k == 2 then Repvenator
    else if k == 3 then Fighter
    else if k == 4 then DeathRow
    else if k == 5 then MystAsteroid
    else Asteroid1
  }

  /** The enumerators are the consecutive values 0..6: the cast back recovers each name. */
  lemma OrdinalRoundTrip(n: ModelName)
    ensures FromOrdinal(Ordinal(n)) == n
  {
  }

  /** The file each model is loaded from. */
  function ModelPath(n: ModelName): string {
    match n
    case E45Aircraft => "models/E-45-Aircraft/E 45 Aircraft_obj.obj"
    case Rocket => "models/rocket/Rocket.obj"
    case Repvenator => "models/Venator/export.obj"
    case Fighter => "models/fighter/sci-fi_fighter.obj"
    case DeathRow => "models/deathrow/DeathRow.obj"
    case MystAsteroid => "models/mysterious_asteroid/A2.obj"
    case Asteroid1 => "models/asteroid1/asteroid1.obj"
  }

  /** `model_path`: the same seven entries as a map. */
  const ModelPaths: map<ModelName, string> := map[
    E45Aircraft := ModelPath(E45Aircraft),
    Rocket := ModelPath(Rocket),
    Repvenator := ModelPath(Repvenator),
    Fighter := ModelPath(Fighter),
    DeathRow := ModelPath(DeathRow),
    MystAsteroid := ModelPath(MystAsteroid),
    Asteroid1 := ModelPath(Asteroid1)
  ]

  /** Every name has an entry in `model_path`. */
  lemma ModelPathsComplete(n: ModelName)
    ensures n in ModelPaths && ModelPaths[n] == ModelPath(n)
  {
  }

  /** `rand() % 100 - 50`, `rand() % 50 - 25`, -500: where an enemy appears, relative to `position`. */
  function EnemyOffset(r1: nat, r2: nat): (v: Vec3)
    ensures -50.0 <= v.x <= 49.0 && -25.0 <= v.y <= 24.0 && v.z == -500.0
    ensures v.x.Floor as real == v.x && v.y.Floor as real == v.y
  {
    Vec3((r1 % 100 - 50) as real, (r2 % 50 - 25) as real, -500.0)
  }

  /** Every whole-number offset in the enemy range is drawn by some pair of draws. */
  lemma EnemyOffsetReachable(x: int, y: int)
    requires -50 <= x <= 49 && -25 <= y <= 24
    ensures exists r1: nat, r2: nat :: EnemyOffset(r1, r2) == Vec3(x as real, y as real, -500.0)
  {
    assert EnemyOffset(x + 50, y + 25) == Vec3(x as real, y as real, -500.0);
  }

  /** `REPVENATOR + rand() % 3`. */
  function EnemyChoice(r: nat): (n: ModelName)
    ensures n == Repvenator || n == Fighter || n == DeathRow
  {
    FromOrdinal(Ordinal(Repvenator) + r % 3)
  }

  /** Each of the three enemy models is drawn by some draw. */
  lemma EnemyChoiceReachable(n: ModelName)
    requires n == Repvenator || n == Fighter || n == DeathRow
    ensures exists r: nat :: EnemyChoice(r) == n
  {
    assert EnemyChoice(Ordinal(n) - 2) == n;
  }

  /** `rand() % 200 - 100`, `rand() % 100 - 25`, -500: where an asteroid appears, relative to `position`. */
  function AsteroidOffset(r1: nat, r2: nat): (v: Vec3)
    ensures -100.0 <= v.x <= 99.0 && -25.0 <= v.y <= 74.0 && v.z == -500.0
    ensures v.x.Floor as real == v.x && v.y.Floor as real == v.y
  {
    Vec3((r1 % 200 - 100) as real, (r2 % 100 - 25) as real, -500.0)
  }

  lemma AsteroidOffsetReachable(x: int, y: int)
    requires -100 <= x <= 99 && -25 <= y <= 74
    ensures exists r1: nat, r2: nat :: AsteroidOffset(r1, r2) == Vec3(x as real, y as real, -500.0)
  {
    assert AsteroidOffset(x + 100, y + 25) == Vec3(x as real, y as real, -500.0);
  }

  /** `(rand() % 50) / 50.0f + 0.5f`: one of the fifty steps 0.5, 0.52, ..., 1.48. */
  function AsteroidScale(r: nat): (s: real)
    ensures 0.5 <= s <= 1.48
    ensures var k := ((s - 0.5) * 50.0).Floor; 0 <= k < 50 && k as real == (s - 0.5) * 50.0
  {
    (r % 50) as real / 50.0 + 0.5
  }

  lemma AsteroidScaleReachable(k: int)
    requires 0 <= k < 50
    ensures exists r: nat :: AsteroidScale(r) == 0.5 + k as real / 50.0
  {
    assert AsteroidScale(k) == 0.5 + k as real / 50.0;
  }

  /** `MYST_ASTEROID + rand() % 2`. */
  function AsteroidChoice(r: nat): (n: ModelName)
    ensures n == MystAsteroid || n == Asteroid1
  {
    FromOrdinal(Ordinal(MystAsteroid) + r % 2)
  }

  lemma AsteroidChoiceReachable(n: ModelName)
    requires n == MystAsteroid || n == Asteroid1
    ensures exists r: nat :: AsteroidChoice(r) == n
  {
    assert AsteroidChoice(Ordinal(n) - 5) == n;
  }

  /**
   * The pose `get_model` gives a copy of a template with pose `p`: scaled,
   * moved, and rotated by the rotation vector when it is not zero.
   */
  function PoseAfterGetModel(p: Pose, position: Vec3, rotation: Vec3, scale: real): Pose {
    Pose(Add(p.worldPos, position),
         if rotation != Zero then p.rot + [RotationVector(rotation)] else p.rot,
         p.scaleCoef * scale)
  }

  /** With its default arguments, `get_model` returns the template's pose unchanged. */
  lemma DefaultArgumentsKeepPose(p: Pose)
    ensures PoseAfterGetModel(p, Zero, Zero, 1.0) == p
  {
    assert Add(p.worldPos, Zero) == p.worldPos;
  }

  /** Every buffered model is what `Model(path)` builds from its own path. */
  ghost predicate AllLoaded(buffer: map<ModelName, Model>, importFile: string -> Option<Scene>, readTexture: string -> GlName)
    reads set n | n in buffer :: buffer[n]
  {
    forall n {:trigger buffer[n]} | n in buffer :: buffer[n].LoadedFrom(ModelPath(n), importFile(ModelPath(n)), readTexture)
  }

  lemma AllLoadedInsert(buffer: map<ModelName, Model>, name: ModelName, m: Model,
                        importFile: string -> Option<Scene>, readTexture: string -> GlName)
    requires AllLoaded(buffer, importFile, readTexture)
    requires m.LoadedFrom(ModelPath(name), importFile(ModelPath(name)), readTexture)
    ensures AllLoaded(buffer[name := m], importFile, readTexture)
  {
  }

  /** The buffering loop of `ModelFactory()`, in key order. */
  method BufferAll(importFile: string -> Option<Scene>, readTexture: string -> GlName)
    returns (buffer: map<ModelName, Model>)
    requires forall n :: SceneReadable(importFile(ModelPath(n)))
    ensures forall n :: n in buffer
    ensures AllLoaded(buffer, importFile, readTexture)
  {
    buffer := map[];
    var k := 0;
    while k < 7
      invariant 0 <= k <= 7
      invariant forall n :: n in buffer <==> Ordinal(n) < k
      invariant AllLoaded(buffer, importFile, readTexture)
    {
      KeysStep(buffer.Keys, k);
      buffer := BufferOne(buffer, FromOrdinal(k), importFile, readTexture);
      k := k + 1;
    }
  }

  /** The keys after one more pass: the names numbered below k + 1. */
  lemma KeysStep(keys: set<ModelName>, k: nat)
    requires k < 7 && forall n :: n in keys <==> Ordinal(n) < k
    ensures forall n :: n in keys + {FromOrdinal(k)} <==> Ordinal(n) < k + 1
  {
    forall n | Ordinal(n) == k
      ensures n == FromOrdinal(k)
    {
      OrdinalRoundTrip(n);
    }
  }

  /** One pass of the buffering loop: `model_buffer[name] = Model(path)`. */
  method BufferOne(buffer: map<ModelName, Model>, name: ModelName,
                   importFile: string -> Option<Scene>, readTexture: string -> GlName)
    returns (r: map<ModelName, Model>)
    requires SceneReadable(importFile(ModelPath(name)))
    requires AllLoaded(buffer, importFile, readTexture)
    ensures r.Keys == buffer.Keys + {name}
    ensures AllLoaded(r, importFile, readTexture)
  {
    ModelPathsComplete(name);
    var path := ModelPaths[name];
    var model := new Model.Load(path, importFile(path), readTexture);
    AllLoadedInsert(buffer, name, model, importFile, readTexture);
    r := buffer[name := model];
  }

  class ModelFactory {
    var modelPath: map<ModelName, string>
    var modelBuffer: map<ModelName, Model>

    /** After construction: the seven paths, and one buffered model per name. */
    ghost predicate Valid()
      reads this
    {
      modelPath == ModelPaths && forall n :: n in modelBuffer
    }

    /**
     * `ModelFactory()`: loads every model once, in the map's key order;
     * `importFile` is the importer's result for a path.
     */
    constructor (importFile: string -> Option<Scene>, readTexture: string -> GlName)
      requires forall n :: SceneReadable(importFile(ModelPath(n)))
      ensures Valid()
      ensures AllLoaded(modelBuffer, importFile, readTexture)
    {
      var buffer := BufferAll(importFile, readTexture);
      modelPath := ModelPaths;
      modelBuffer := buffer;
    }

    /**
     * `get_model`: a copy of the buffered template with the pose applied.
     * `at` fails (None) exactly when the name is not buffered; the
     * template itself is not changed.
     */
    method GetModel(modelName: ModelName, position: Vec3 := Zero, rotation: Vec3 := Zero, scale: real := 1.0)
      returns (r: Option<Model>)
      ensures r.None? <==> modelName !in modelBuffer
      ensures r.Some? ==>
                && fresh(r.value)
                && SameAsset(r.value, modelBuffer[modelName]) && SamePoses(r.value.objects, modelBuffer[modelName].objects)
                && r.value.CurrentPose() == PoseAfterGetModel(modelBuffer[modelName].CurrentPose(), position, rotation, scale)
    {
      if modelName !in modelBuffer {
        return None;
      }
      var model := new Model.Copy(modelBuffer[modelName]);
      model.Scale(scale);
      model.Move(position);
      if rotation != Zero {
        // rotate(l2Norm(rotation), rotation / l2Norm(rotation)), kept as the rotation vector
        model.rot := model.rot + [RotationVector(rotation)];
      }
      r := Some(model);
    }

    /** `get_random_enemy`: an enemy template placed at a random offset from `position`. */
    method GetRandomEnemy(position: Vec3, r1: nat, r2: nat, r3: nat) returns (r: Option<Model>)
      ensures Valid() ==> r.Some?
      ensures r.None? <==> EnemyChoice(r3) !in modelBuffer
      ensures r.Some? ==>
                var template := modelBuffer[EnemyChoice(r3)];
                && fresh(r.value) && SameAsset(r.value, template) && SamePoses(r.value.objects, template.objects)
                && r.value.CurrentPose() == Pose(Add(template.worldPos, Add(EnemyOffset(r1, r2), position)), template.rot, template.scaleCoef)
    {
      var src := Add(EnemyOffset(r1, r2), position);
      var choice := EnemyChoice(r3);
      ModelPathsComplete(choice);
      r := GetModel(choice, src);
    }

    /**
     * `get_random_asteroid`: an asteroid template at a random offset and
     * scale, flying towards `target`; `normalize` stands for `glm::normalize`.
     */
    method GetRandomAsteroid(position: Vec3, target: Vec3, r1: nat, r2: nat, r3: nat, r4: nat, normalize: Vec3 -> Vec3)
      returns (r: Option<Asteroid>)
      ensures Valid() ==> r.Some?
      ensures r.None? <==> AsteroidChoice(r4) !in modelBuffer
      ensures r.Some? ==>
                var template := modelBuffer[AsteroidChoice(r4)];
                var src := Add(AsteroidOffset(r1, r2), position);
                var velocity := normalize(Sub(target, src));
                && fresh(r.value.body) && SameAsset(r.value.body, template) && SamePoses(r.value.body.objects, template.objects)
                && r.value.velocity == velocity
                && r.value.body.CurrentPose()
                   == Pose(Add(template.worldPos, src), [AlignZTo(velocity)] + template.rot, template.scaleCoef * AsteroidScale(r3))
    {
      var src := Add(AsteroidOffset(r1, r2), position);
      var velocity := normalize(Sub(target, src));
      var choice := AsteroidChoice(r4);
      ModelPathsComplete(choice);
      var model := GetModel(choice, src, Zero, AsteroidScale(r3));
      if model.None? {
        return None;
      }
      var asteroid := new Asteroid(model.value, velocity);
      r := Some(asteroid);
    }
  }
}
