/**
 * The custom track registry of bkcore/hexgl/CustomTracks.js: a dictionary
 * `list` from track id to a normalised track record, filled in place by
 * `register` with per-field defaults under JavaScript `||` semantics, and
 * read by `get` and `getList`.
 *
 * A supplied configuration field that is absent is `None`. Strings are falsy
 * when empty, numbers when zero; objects are always truthy, so for them only
 * absence triggers the default.
 */
module CustomTracks {
  import opened Wrappers

  datatype Point3 = Point3(x: real, y: real, z: real)

  datatype Checkpoints = Checkpoints(list: seq<int>, start: int, last: int)

  /** The object passed to `register`; every property may be missing. */
  datatype TrackConfig = TrackConfig(
    id: Option<string>,
    name: Option<string>,
    modelPath: Option<string>,
    diffuseMap: Option<string>,
    collisionMap: Option<string>,
    heightMap: Option<string>,
    mapImage: Option<string>,
    spawnPoint: Option<Point3>,
    spawnRotation: Option<Point3>,
    checkpoints: Option<Checkpoints>,
    pixelRatio: Option<real>,
    scale: Option<real>,
    collisionMeshName: Option<string>)

  /** The record `register` stores; `None` is `null` or `undefined`. */
  datatype Track = Track(
    id: string,
    name: string,
    modelPath: Option<string>,
    diffuseMap: Option<string>,
    collisionMap: Option<string>,
    heightMap: Option<string>,
    mapImage: Option<string>,
    spawnPoint: Point3,
    spawnRotation: Point3,
    checkpoints: Checkpoints,
    pixelRatio: real,
    scale: real,
    collisionMeshName: Option<string>)

  predicate TruthyString(s: Option<string>) {
    s.Some? && s.value != ""
  }

  predicate TruthyNumber(n: Option<real>) {
    n.Some? && n.value != 0.0
  }

  /** `s || fallback` for a string property. */
  function OrString(s: Option<string>, fallback: string): string {
    if TruthyString(s) then s.value else fallback
  }

  /** `s || null` for a string property. */
  function OrNull(s: Option<string>): Option<string> {
    if TruthyString(s) then s else None
  }

  /** `n || fallback` for a number property. */
  function OrNumber(n: Option<real>, fallback: real): real {
    if TruthyNumber(n) then n.value else fallback
  }

  /** `p || fallback` for an object property: any supplied object is kept. */
  function OrObject<T>(p: Option<T>, fallback: T): T {
    if p.Some? then p.value else fallback
  }

  const DefaultSpawnPoint := Point3(0.0, 5.0, 0.0)
  const DefaultSpawnRotation := Point3(0.0, 0.0, 0.0)
  const DefaultCheckpoints := Checkpoints([0, 1, 2], 0, 2)
  const DefaultPixelRatio: real := 2048.0 / 6000.0
  const DefaultScale: real := 1.0

  /** What every stored record satisfies: no field a default would still replace. */
  predicate Normalized(t: Track) {
    && t.id != ""
    && t.name != ""
    && (t.diffuseMap.Some? ==> t.diffuseMap.value != "")
    && (t.mapImage.Some? ==> t.mapImage.value != "")
    && (t.collisionMeshName.Some? ==> t.collisionMeshName.value != "")
    && t.pixelRatio != 0.0
    && t.scale != 0.0
  }

  /** The record `register(c)` stores for a truthy `c.id` (bkcore/hexgl/CustomTracks.js:23-38). */
  function Normalize(c: TrackConfig): (t: Track)
    requires TruthyString(c.id)
    ensures Normalized(t)
    ensures t.id == c.id.value
    // name falls back to the id
    ensures t.name == (if TruthyString(c.name) then c.name.value else c.id.value)
    // copied verbatim, no default
    ensures t.modelPath == c.modelPath && t.collisionMap == c.collisionMap && t.heightMap == c.heightMap
    // falsy optional images and mesh name become null
    ensures t.diffuseMap == (if TruthyString(c.diffuseMap) then c.diffuseMap else None)
    ensures t.mapImage == (if TruthyString(c.mapImage) then c.mapImage else None)
    ensures t.collisionMeshName == (if TruthyString(c.collisionMeshName) then c.collisionMeshName else None)
    // supplied objects are kept, missing ones get the defaults
    ensures c.spawnPoint.None? ==> t.spawnPoint == Point3(0.0, 5.0, 0.0)
    ensures c.spawnPoint.Some? ==> t.spawnPoint == c.spawnPoint.value
    ensures c.spawnRotation.None? ==> t.spawnRotation == Point3(0.0, 0.0, 0.0)
    ensures c.spawnRotation.Some? ==> t.spawnRotation == c.spawnRotation.value
    ensures c.checkpoints.None? ==> t.checkpoints == Checkpoints([0, 1, 2], 0, 2)
    ensures c.checkpoints.Some? ==> t.checkpoints == c.checkpoints.value
    // zero or missing numbers get the defaults
    ensures t.pixelRatio == (if TruthyNumber(c.pixelRatio) then c.pixelRatio.value else 2048.0 / 6000.0)
    ensures t.scale == (if TruthyNumber(c.scale) then c.scale.value else 1.0)
  {
    Track(
      c.id.value,
      OrString(c.name, c.id.value),
      c.modelPath,
      OrNull(c.diffuseMap),
      c.collisionMap,
      c.heightMap,
      OrNull(c.mapImage),
      OrObject(c.spawnPoint, DefaultSpawnPoint),
      OrObject(c.spawnRotation, DefaultSpawnRotation),
      OrObject(c.checkpoints, DefaultCheckpoints),
      OrNumber(c.pixelRatio, DefaultPixelRatio),
      OrNumber(c.scale, DefaultScale),
      OrNull(c.collisionMeshName))
  }

  /** A stored record, passed back to `register` as a configuration. */
  function ConfigOf(t: Track): (c: TrackConfig)
    ensures c.id == Some(t.id) && c.name == Some(t.name)
  {
    TrackConfig(Some(t.id), Some(t.name), t.modelPath, t.diffuseMap, t.collisionMap, t.heightMap,
                t.mapImage, Some(t.spawnPoint), Some(t.spawnRotation), Some(t.checkpoints),
                Some(t.pixelRatio), Some(t.scale), t.collisionMeshName)
  }

  /** Normalising a stored record changes nothing: the defaults are exactly the normal form. */
  lemma NormalizeFixesNormalized(t: Track)
    requires Normalized(t)
    ensures Normalize(ConfigOf(t)) == t
  {
  }

  /** So re-registering a stored record is a no-op on that record. */
  lemma NormalizeIdempotent(c: TrackConfig)
    requires TruthyString(c.id)
    ensures Normalize(ConfigOf(Normalize(c))) == Normalize(c)
  {
    NormalizeFixesNormalized(Normalize(c));
  }

  /** The value a property read on a plain JavaScript object yields. */
  datatype Lookup = Own(track: Track) | Inherited(name: string) | Null

  /** The property names every plain object inherits from `Object.prototype`. */
  const PrototypeNames: set<string> := {
    "constructor", "hasOwnProperty", "isPrototypeOf", "propertyIsEnumerable",
    "toLocaleString", "toString", "valueOf", "__proto__",
    "__defineGetter__", "__defineSetter__", "__lookupGetter__", "__lookupSetter__"
  }

  /**
   * `this.list[id] || null` as written (bkcore/hexgl/CustomTracks.js:47-49):
   * `list` is an object literal, so a name it does not own is looked up on
   * `Object.prototype`, and what is found there (a function, or the
   * prototype itself) is truthy.
   */
  function GetAsWritten(list: map<string, Track>, id: string): (r: Lookup)
    ensures id in list ==> r == Own(list[id])
    ensures r.Null? <==> id !in list && id !in PrototypeNames
  {
    if id in list then Own(list[id])
    else if id in PrototypeNames then Inherited(id)
    else Null
  }

  /** An empty registry answers `get("toString")` with something other than null. */
  lemma GetAsWrittenInheritsToString()
    ensures GetAsWritten(map[], "toString") == Inherited("toString")
  {
  }

  class TrackRegistry {
    /** Track id to stored record: the `list` dictionary. */
    var list: map<string, Track>

    /** Every record is stored under its own id and is normalised. */
    ghost predicate Valid()
      reads this
    {
      forall id :: id in list ==> list[id].id == id && Normalized(list[id])
    }

    /** `list: {}` (bkcore/hexgl/CustomTracks.js:12). */
    constructor ()
      ensures Valid() && list == map[]
    {
      list := map[];
    }

    /**
     * `register(config)` (bkcore/hexgl/CustomTracks.js:18-40): a falsy id
     * changes nothing; otherwise the normalised record replaces any earlier
     * one under that id and every other entry stays.
     */
    method Register(c: TrackConfig)
      requires Valid()
      modifies this
      ensures Valid()
      ensures !TruthyString(c.id) ==> list == old(list)
      ensures TruthyString(c.id) ==> list == old(list)[c.id.value := Normalize(c)]
    {
      if !TruthyString(c.id) {
        return;
      }
      list := list[c.id.value := Normalize(c)];
    }

    /**
     * `get(id)`, with the registry's own entries only: the stored record for
     * a registered id and null for any other.
     */
    method Get(id: string) returns (r: Option<Track>)
      requires Valid()
      ensures r.Some? <==> id in list
      ensures r.Some? ==> r.value == list[id] && r.value.id == id && Normalized(r.value)
      ensures r.Some? <==> GetAsWritten(list, id).Own?
    {
      if id in list {
        r := Some(list[id]);
      } else {
        r := None;
      }
    }

    /**
     * `getList()` (bkcore/hexgl/CustomTracks.js:55-57): the keys of `list`,
     * each once.
     */
    method GetList() returns (ids: seq<string>)
      ensures forall id :: id in ids <==> id in list
      ensures forall i, j :: 0 <= i < j < |ids| ==> ids[i] != ids[j]
      ensures |ids| == |list|
    {
      ids := [];
      var rest := list.Keys;
      while rest != {}
        invariant rest <= list.Keys
        invariant forall id :: id in ids <==> id in list && id !in rest
        invariant forall i, j :: 0 <= i < j < |ids| ==> ids[i] != ids[j]
        invariant |ids| + |rest| == |list|
        decreases |rest|
      {
        var id :| id in rest;
        ids := ids + [id];
        rest := rest - {id};
      }
    }
  }
}
