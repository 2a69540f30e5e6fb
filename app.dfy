/**
 * The control plane of app.py: the settings list (one dict per configured
 * instance), the `instance_objects` map of running worker handles and the
 * `instances_status` map, and the request handlers that keep the three in
 * step. Reading and writing settings.json is modelled as reading and
 * reassigning the `settings` field; starting a worker thread is modelled by
 * constructing its `Instance` object.
 */
module App {
  import opened Json
  import opened Text
  import opened InstanceWorker

  // ---------------------------------------------------------------------
  // Records

  /** Every record has a `name` key: each handler reads `inst['name']` and raises otherwise. */
  predicate Named(records: seq<Dict>) {
    forall k :: 0 <= k < |records| ==> "name" in records[k]
  }

  /** `[instance['name'] for instance in settings['instances']]`. */
  function Names(records: seq<Dict>): seq<Value>
    requires Named(records)
  {
    seq(|records|, k requires 0 <= k < |records| => records[k]["name"])
  }

  /** The record's `status` key, read with `.get`. */
  predicate IsRunning(rec: Dict) {
    Get(rec, "status", Null) == Str("running")
  }

  /** `next(inst for inst in records if inst['name'] == name)`: the first record with that name. */
  function FirstIndex(records: seq<Dict>, name: string): (r: Option<nat>)
    requires Named(records)
    ensures r.Some? ==> r.value < |records| && records[r.value]["name"] == Str(name)
    ensures r.Some? ==> forall k :: 0 <= k < r.value ==> records[k]["name"] != Str(name)
    ensures r.None? <==> forall k :: 0 <= k < |records| ==> records[k]["name"] != Str(name)
    decreases |records|
  {
    if records == [] then None
    else if records[0]["name"] == Str(name) then Some(0)
    else
      match FirstIndex(records[1..], name)
      case None => None
      case Some(j) => Some(j + 1)
  }

  /** The loop `for instance in settings['instances']: if instance['name'] == name: ... break`. */
  method FindConfig(records: seq<Dict>, name: string) returns (r: Option<nat>)
    requires Named(records)
    ensures r == FirstIndex(records, name)
  {
    var i := 0;
    while i < |records|
      invariant 0 <= i <= |records|
      invariant forall k :: 0 <= k < i ==> records[k]["name"] != Str(name)
    {
      if records[i]["name"] == Str(name) {
        return Some(i);
      }
      i := i + 1;
    }
    return None;
  }

  /** The record with its status overwritten. */
  function WithStatus(rec: Dict, status: string): Dict {
    rec["status" := Str(status)]
  }

  /** `[inst for inst in records if inst['name'] != name]`. */
  function Without(records: seq<Dict>, name: string): (r: seq<Dict>)
    requires Named(records)
    ensures Named(r) && |r| <= |records|
    ensures forall k :: 0 <= k < |r| ==> r[k]["name"] != Str(name) && r[k] in records
    ensures forall k :: 0 <= k < |records| && records[k]["name"] != Str(name) ==> records[k] in r
    decreases |records|
  {
    if records == [] then []
    else if records[0]["name"] == Str(name) then Without(records[1..], name)
    else [records[0]] + Without(records[1..], name)
  }

  /** Filtering keeps the relative order of the remaining records. */
  lemma {:induction false} WithoutAppend(a: seq<Dict>, b: seq<Dict>, name: string)
    requires Named(a) && Named(b)
    ensures Named(a + b)
    ensures Without(a + b, name) == Without(a, name) + Without(b, name)
    decreases |a|
  {
    if a == [] {
      assert a + b == b;
    } else {
      assert (a + b)[0] == a[0];
      assert (a + b)[1..] == a[1..] + b;
      WithoutAppend(a[1..], b, name);
    }
  }

  /** A list without the name is left as it is; in particular, deleting twice is deleting once. */
  lemma {:induction false} WithoutAbsent(records: seq<Dict>, name: string)
    requires Named(records)
    requires forall k :: 0 <= k < |records| ==> records[k]["name"] != Str(name)
    ensures Without(records, name) == records
    decreases |records|
  {
    if records != [] {
      WithoutAbsent(records[1..], name);
    }
  }

  /** `if instance_config.get('status') == 'running': instance_config['status'] = 'stopped'`. */
  function Halted(rec: Dict): (r: Dict)
    ensures !IsRunning(r)
    ensures r.Keys == rec.Keys
    ensures forall f :: f in rec && f != "status" ==> r[f] == rec[f]
    ensures !IsRunning(rec) ==> r == rec
  {
    if IsRunning(rec) then WithStatus(rec, "stopped") else rec
  }

  /** The settings after the shutdown loop of `cleanup_instances`. */
  function StoppedAll(records: seq<Dict>): (r: seq<Dict>)
    ensures |r| == |records|
    ensures forall k :: 0 <= k < |r| ==> !IsRunning(r[k])
    ensures forall k :: 0 <= k < |r| ==> r[k].Keys == records[k].Keys
    ensures forall k, f :: 0 <= k < |r| && f in records[k] && f != "status" ==> r[k][f] == records[k][f]
    ensures forall k :: 0 <= k < |r| && !IsRunning(records[k]) ==> r[k] == records[k]
  {
    seq(|records|, k requires 0 <= k < |records| => Halted(records[k]))
  }

  /** Shutting down twice is shutting down once. */
  lemma StoppedAllIdempotent(records: seq<Dict>)
    ensures StoppedAll(StoppedAll(records)) == StoppedAll(records)
  {
    var once := StoppedAll(records);
    assert forall k :: 0 <= k < |once| ==> StoppedAll(once)[k] == once[k];
  }

  // ---------------------------------------------------------------------
  // add_instance

  /** The fields `add_instance` copies from the request, with the value used when the request lacks them. */
  const AddDefaults: map<string, Value> := map[
    "instance_type" := Str("youtube"),
    "youtube_url" := Str(""),
    "camera_url" := Str(""),
    "camera_username" := Str(""),
    "camera_password" := Str(""),
    "folder_path" := Str("./images"),
    "frequency" := Int(60),
    "lookout_endpoint" := Str(""),
    "latitude" := Real(0.0),
    "longitude" := Real(0.0)]

  /** The record `add_instance` appends. */
  function NewRecord(name: string, request: Dict): (r: Dict)
    ensures r.Keys == AddDefaults.Keys + {"name", "status"}
    ensures r["name"] == Str(name) && r["status"] == Str("stopped")
    ensures forall f :: f in AddDefaults ==> r[f] == Get(request, f, AddDefaults[f])
  {
    (map f | f in AddDefaults :: Get(request, f, AddDefaults[f]))["name" := Str(name)]["status" := Str("stopped")]
  }

  /** `data.get('name', f"Instance-{n + 1}")` for a request whose name, if any, is a string. */
  function RequestedName(request: Dict, count: nat): (r: string)
    requires "name" in request ==> request["name"].Str?
    ensures "name" in request ==> Str(r) == request["name"]
    ensures "name" !in request ==> |r| > 9 && r[..9] == "Instance-" && forall i :: 9 <= i < |r| ==> IsDigit(r[i])
  {
    if "name" in request then request["name"].s else "Instance-" + NatToString(count + 1)
  }

  /** Without a requested name, different list lengths give different default names. */
  lemma DefaultNamesDiffer(request: Dict, a: nat, b: nat)
    requires "name" !in request
    ensures RequestedName(request, a) == RequestedName(request, b) <==> a == b
  {
    if RequestedName(request, a) == RequestedName(request, b) {
      assert RequestedName(request, a)[9..] == NatToString(a + 1);
      assert RequestedName(request, b)[9..] == NatToString(b + 1);
      NatToStringInjective(a + 1, b + 1);
    }
  }

  /**
   * The name the de-duplication loop settles on: one that is not taken,
   * the original itself when that is free, and otherwise `original-k` for
   * the least `k >= 1` that is free.
   */
  ghost predicate FirstFreeName(original: string, existing: seq<Value>, name: string) {
    Str(name) !in existing &&
    (Str(original) !in existing ==> name == original) &&
    (Str(original) in existing ==>
      exists k: nat :: k >= 1 && name == Suffixed(original, k) &&
        forall j: nat :: 1 <= j < k ==> Str(Suffixed(original, j)) in existing)
  }

  /** At most one name satisfies that description. */
  lemma FirstFreeNameUnique(original: string, existing: seq<Value>, a: string, b: string)
    requires FirstFreeName(original, existing, a) && FirstFreeName(original, existing, b)
    ensures a == b
  {
    if Str(original) in existing {
      var ka: nat :| ka >= 1 && a == Suffixed(original, ka) &&
        forall j: nat :: 1 <= j < ka ==> Str(Suffixed(original, j)) in existing;
      var kb: nat :| kb >= 1 && b == Suffixed(original, kb) &&
        forall j: nat :: 1 <= j < kb ==> Str(Suffixed(original, j)) in existing;
      if ka < kb {
        assert false;
      } else if kb < ka {
        assert false;
      }
    }
  }

  /** "Tower" with "Tower" taken becomes "Tower-1"; with "Tower-1" taken too it becomes "Tower-2". */
  lemma TowerExamples(first: string, second: string)
    requires FirstFreeName("Tower", [Str("Tower")], first)
    requires FirstFreeName("Tower", [Str("Tower"), Str("Tower-1")], second)
    ensures first == "Tower-1" && second == "Tower-2"
  {
    assert NatToString(1) == "1" && NatToString(2) == "2";
    assert Suffixed("Tower", 1) == "Tower-1";
    assert Suffixed("Tower", 2) == "Tower-2";
    assert FirstFreeName("Tower", [Str("Tower")], "Tower-1");
    FirstFreeNameUnique("Tower", [Str("Tower")], first, "Tower-1");
    forall j: nat | 1 <= j < 2 ensures Str(Suffixed("Tower", j)) in [Str("Tower"), Str("Tower-1")] {
      assert j == 1;
    }
    assert FirstFreeName("Tower", [Str("Tower"), Str("Tower-1")], "Tower-2");
    FirstFreeNameUnique("Tower", [Str("Tower"), Str("Tower-1")], second, "Tower-2");
  }

  /** The candidates `original-1` ... `original-n`. */
  ghost function SuffixSet(original: string, n: nat): set<Value> {
    set j: nat | 1 <= j <= n :: Str(Suffixed(original, j))
  }

  lemma {:induction false} SuffixSetSize(original: string, n: nat)
    ensures |SuffixSet(original, n)| == n
  {
    if n == 0 {
      assert SuffixSet(original, 0) == {};
    } else {
      SuffixSetSize(original, n - 1);
      var last := Str(Suffixed(original, n));
      assert SuffixSet(original, n) == SuffixSet(original, n - 1) + {last};
      if last in SuffixSet(original, n - 1) {
        var j: nat :| 1 <= j <= n - 1 && Str(Suffixed(original, j)) == last;
        SuffixedInjective(original, j, n);
      }
    }
  }

  lemma {:induction false} ElementsSize<T>(s: seq<T>)
    ensures |set x | x in s| <= |s|
    decreases |s|
  {
    if s != [] {
      ElementsSize(s[1..]);
      assert (set x | x in s) == (set x | x in s[1..]) + {s[0]};
    }
  }

  lemma SubsetSize<T>(a: set<T>, b: set<T>)
    requires a <= b
    ensures |a| <= |b|
  {
    assert b == a + (b - a);
  }

  /** Pigeonhole: the loop cannot find more taken suffixes than there are names. */
  lemma SuffixBound(original: string, existing: seq<Value>, n: nat)
    requires forall j: nat :: 1 <= j <= n ==> Str(Suffixed(original, j)) in existing
    ensures n <= |existing|
  {
    SuffixSetSize(original, n);
    assert SuffixSet(original, n) <= set x | x in existing;
    SubsetSize(SuffixSet(original, n), set x | x in existing);
    ElementsSize(existing);
  }

  /** The `while new_name in existing_names` loop of `add_instance`. */
  method UniqueName(original: string, existing: seq<Value>) returns (name: string)
    ensures FirstFreeName(original, existing, name)
  {
    var counter: nat := 1;
    name := original;
    while Str(name) in existing
      invariant counter >= 1
      invariant counter == 1 ==> name == original
      invariant counter > 1 ==> Str(original) in existing && name == Suffixed(original, counter - 1)
      invariant forall j: nat :: 1 <= j < counter - 1 ==> Str(Suffixed(original, j)) in existing
      decreases |existing| + 1 - counter
    {
      SuffixBound(original, existing, counter - 1);
      name := Suffixed(original, counter);
      counter := counter + 1;
    }
    if counter > 1 {
      ghost var k: nat := counter - 1;
      assert k >= 1 && name == Suffixed(original, k);
    }
  }

  // ---------------------------------------------------------------------
  // update_instance

  /** The keys `instance.update` always writes. */
  const CommonUpdated: set<string> := {"instance_type", "frequency", "lookout_endpoint", "latitude", "longitude"}

  /** The keys only a camera record carries. */
  const CameraFields: set<string> := {"camera_url", "camera_username", "camera_password", "folder_path"}

  /** The keys written for a record whose (new) type is `t`. */
  function UpdatedKeys(t: Value): set<string> {
    CommonUpdated +
    (if t == Str("youtube") then {"youtube_url"}
     else if t == Str("camera") then CameraFields
     else {})
  }

  /** The fallbacks `update_instance` uses when neither the request nor the record has a key. */
  const UpdateDefaults: map<string, Value> := map[
    "instance_type" := Str("youtube"),
    "latitude" := Real(0.0),
    "longitude" := Real(0.0),
    "youtube_url" := Str(""),
    "camera_url" := Str(""),
    "camera_username" := Str(""),
    "camera_password" := Str(""),
    "folder_path" := Str("./images")]

  /** The request's value, else the record's, else the fallback. */
  function Pick(data: Dict, rec: Dict, f: string): Value {
    if f in data then data[f] else if f in rec then rec[f] else Get(UpdateDefaults, f, Null)
  }

  /** The type the record has after the update. */
  function NewType(rec: Dict, data: Dict): Value {
    Pick(data, rec, "instance_type")
  }

  /** The record with each of `keys` set by `Pick`. */
  function Overlay(rec: Dict, data: Dict, keys: set<string>): Dict {
    map f | f in rec.Keys + keys :: if f in keys then Pick(data, rec, f) else rec[f]
  }

  /**
   * The body of the matching branch of `update_instance`: `instance.update`
   * writes the common keys, and the kind-specific keys follow the type just
   * written. The defaults `instance['frequency']` and
   * `instance['lookout_endpoint']` are evaluated even when the request
   * carries those keys, so a record lacking either makes the handler raise
   * (`None`).
   */
  function Merge(rec: Dict, data: Dict): (r: Option<Dict>)
    ensures r.None? <==> "frequency" !in rec || "lookout_endpoint" !in rec
    ensures r.Some? ==> r.value.Keys == rec.Keys + UpdatedKeys(NewType(rec, data))
    ensures r.Some? ==> forall f :: f in rec && f !in UpdatedKeys(NewType(rec, data)) ==> r.value[f] == rec[f]
    ensures r.Some? ==> forall f :: f in UpdatedKeys(NewType(rec, data)) && f in data ==> r.value[f] == data[f]
    ensures r.Some? ==> forall f :: f in UpdatedKeys(NewType(rec, data)) && f !in data && f in rec ==> r.value[f] == rec[f]
    ensures r.Some? ==> forall f :: f in UpdatedKeys(NewType(rec, data)) && f !in data && f !in rec ==>
      f in UpdateDefaults && r.value[f] == UpdateDefaults[f]
  {
    if "frequency" !in rec || "lookout_endpoint" !in rec then None
    else Some(Overlay(rec, data, UpdatedKeys(NewType(rec, data))))
  }

  /** A key outside the written set is kept as it was, present or absent. */
  lemma OverlayKeeps(rec: Dict, data: Dict, keys: set<string>, f: string)
    requires f !in keys
    ensures f in Overlay(rec, data, keys) <==> f in rec
    ensures f in rec ==> Overlay(rec, data, keys)[f] == rec[f]
  {
  }

  /** Which keys an update can write: never the name or the status, and only the keys of the record's own kind. */
  lemma UpdatedKeysOf(t: Value)
    ensures "name" !in UpdatedKeys(t) && "status" !in UpdatedKeys(t)
    ensures t == Str("youtube") ==> forall f :: f in CameraFields ==> f !in UpdatedKeys(t)
    ensures t == Str("camera") ==> "youtube_url" !in UpdatedKeys(t)
  {
  }

  /** An update never renames a record or changes its status. */
  lemma MergeKeepsNameAndStatus(rec: Dict, data: Dict)
    requires Merge(rec, data).Some?
    ensures var m := Merge(rec, data).value;
      ("name" in m <==> "name" in rec) && ("name" in rec ==> m["name"] == rec["name"]) &&
      ("status" in m <==> "status" in rec) && ("status" in rec ==> m["status"] == rec["status"])
  {
    var keys := UpdatedKeys(NewType(rec, data));
    UpdatedKeysOf(NewType(rec, data));
    OverlayKeeps(rec, data, keys, "name");
    OverlayKeeps(rec, data, keys, "status");
  }

  /** A youtube record gets no camera keys written, and a camera record no youtube key. */
  lemma MergeTouchesOwnKind(rec: Dict, data: Dict)
    requires Merge(rec, data).Some?
    ensures NewType(rec, data) == Str("youtube") ==>
      forall f :: f in CameraFields ==>
        (f in Merge(rec, data).value <==> f in rec) && (f in rec ==> Merge(rec, data).value[f] == rec[f])
    ensures NewType(rec, data) == Str("camera") ==>
      ("youtube_url" in Merge(rec, data).value <==> "youtube_url" in rec) &&
      ("youtube_url" in rec ==> Merge(rec, data).value["youtube_url"] == rec["youtube_url"])
  {
    var keys := UpdatedKeys(NewType(rec, data));
    UpdatedKeysOf(NewType(rec, data));
    if NewType(rec, data) == Str("youtube") {
      forall f | f in CameraFields
        ensures (f in Merge(rec, data).value <==> f in rec) && (f in rec ==> Merge(rec, data).value[f] == rec[f])
      {
        OverlayKeeps(rec, data, keys, f);
      }
    } else if NewType(rec, data) == Str("camera") {
      OverlayKeeps(rec, data, keys, "youtube_url");
    }
  }

  // ---------------------------------------------------------------------
  // Building a worker from a record (start_instance, restore_running_instances)

  /** The keys read with `instance_config[...]` for each kind. */
  const StreamKeys: set<string> := {"youtube_url", "lookout_endpoint", "frequency"}
  const CameraKeys: set<string> := {"camera_url", "lookout_endpoint", "camera_username", "camera_password", "folder_path", "frequency"}

  /** What the `try` block does with a record: build a worker, meet an unknown type, or raise. */
  datatype Spawn = Spawned(params: Params) | UnknownKind(kind: Value) | Raises

  /** The record's type, `instance_config.get('instance_type', 'youtube')`. */
  function ConfigType(cfg: Dict): Value {
    Get(cfg, "instance_type", Str("youtube"))
  }

  /**
   * The constructor call of `start_instance` and `restore_running_instances`:
   * a missing key raises KeyError, and a name that is not a string makes the
   * constructor's `.lower()` raise.
   */
  function SpawnFrom(cfg: Dict): (r: Spawn)
    requires "name" in cfg
    ensures r.UnknownKind? <==> ConfigType(cfg) != Str("youtube") && ConfigType(cfg) != Str("camera")
    ensures r.UnknownKind? ==> r.kind == ConfigType(cfg)
    ensures ConfigType(cfg) == Str("youtube") ==> (r.Raises? <==> !(StreamKeys <= cfg.Keys) || !cfg["name"].Str?)
    ensures ConfigType(cfg) == Str("camera") ==> (r.Raises? <==> !(CameraKeys <= cfg.Keys) || !cfg["name"].Str?)
    ensures r.Spawned? ==> cfg["name"] == Str(r.params.name) && r.params.id == cfg["name"]
    ensures r.Spawned? ==> r.params.frequency == cfg["frequency"] && r.params.lookoutEndpoint == cfg["lookout_endpoint"]
    ensures r.Spawned? ==> r.params.latitude == Get(cfg, "latitude", Real(0.0)) && r.params.longitude == Get(cfg, "longitude", Real(0.0))
    ensures r.Spawned? ==> (r.params.source.StreamSource? <==> ConfigType(cfg) == Str("youtube"))
    ensures r.Spawned? && r.params.source.StreamSource? ==> r.params.source.youtubeUrl == cfg["youtube_url"]
    ensures r.Spawned? && r.params.source.CameraSource? ==>
      r.params.source == CameraSource(cfg["camera_url"], cfg["camera_username"], cfg["camera_password"], cfg["folder_path"])
  {
    var t := ConfigType(cfg);
    if t != Str("youtube") && t != Str("camera") then UnknownKind(t)
    else if !cfg["name"].Str? then Raises
    else if t == Str("youtube") then
      if !(StreamKeys <= cfg.Keys) then Raises
      else Spawned(Params(cfg["name"], cfg["name"].s, StreamSource(cfg["youtube_url"]), cfg["lookout_endpoint"],
                          cfg["frequency"], Get(cfg, "latitude", Real(0.0)), Get(cfg, "longitude", Real(0.0))))
    else
      if !(CameraKeys <= cfg.Keys) then Raises
      else Spawned(Params(cfg["name"], cfg["name"].s,
                          CameraSource(cfg["camera_url"], cfg["camera_username"], cfg["camera_password"], cfg["folder_path"]),
                          cfg["lookout_endpoint"], cfg["frequency"],
                          Get(cfg, "latitude", Real(0.0)), Get(cfg, "longitude", Real(0.0))))
  }

  /** A record written by `add_instance` always builds: it has every key either kind reads. */
  lemma NewRecordSpawns(name: string, request: Dict)
    requires ConfigType(NewRecord(name, request)) in {Str("youtube"), Str("camera")}
    ensures SpawnFrom(NewRecord(name, request)).Spawned?
    ensures SpawnFrom(NewRecord(name, request)).params.name == name
  {
    var rec := NewRecord(name, request);
    assert StreamKeys <= rec.Keys && CameraKeys <= rec.Keys;
  }

  // ---------------------------------------------------------------------
  // extract_youtube_id

  /** The alternatives of the first pattern, in the order the alternation tries them. */
  const IdPrefixes: seq<string> := ["youtube.com/watch?v=", "youtu.be/", "youtube.com/embed/"]

  /** The literal the second pattern starts with, before its `.*v=`. */
  const WatchPrefix: string := "youtube.com/watch?"

  /**
   * `extract_youtube_id`: the first pattern's capture if it matches anywhere,
   * else the second's, else `None`. The id is never empty and never holds
   * one of `& \n ? #`.
   */
  function ExtractYoutubeId(url: string): (r: Option<string>)
    ensures r.Some? ==> |r.value| > 0 && forall c :: c in r.value ==> !Excluded(c)
    ensures r.Some? ==>
      (exists p, a :: 0 <= p <= |url| && a in IdPrefixes && AltMatch(url, p, a) && r.value == IdAt(url, p + |a|)) ||
      (exists p: nat, q: nat :: VAfter(url, p, WatchPrefix, q) && r.value == IdAt(url, q + 2))
    ensures (exists p :: 0 <= p <= |url| && MatchesAt(url, p, IdPrefixes)) ==> r == SearchId(url, IdPrefixes)
    ensures (forall p :: 0 <= p <= |url| ==> !MatchesAt(url, p, IdPrefixes)) ==> r == SearchVId(url, WatchPrefix)
    ensures r.None? <==>
      forall p :: 0 <= p <= |url| ==> !MatchesAt(url, p, IdPrefixes) && !VMatchesAt(url, p, WatchPrefix)
  {
    match SearchId(url, IdPrefixes)
    case Some(id) => Some(id)
    case None => SearchVId(url, WatchPrefix)
  }

  // ---------------------------------------------------------------------
  // restore_running_instances

  /** The boot-time handling of one record: a running record that fails to build is marked stopped. */
  function Demoted(rec: Dict): (r: Dict)
    requires "name" in rec
    ensures r.Keys == rec.Keys
    ensures forall f :: f in rec && f != "status" ==> r[f] == rec[f]
    ensures IsRunning(r) ==> IsRunning(rec) && !SpawnFrom(rec).Raises?
    ensures IsRunning(rec) && SpawnFrom(rec).Raises? ==> r["status"] == Str("stopped")
    ensures !IsRunning(rec) ==> r == rec
  {
    if IsRunning(rec) && SpawnFrom(rec).Raises? then WithStatus(rec, "stopped") else rec
  }

  /** The settings after `restore_running_instances`. */
  function RestoredSettings(records: seq<Dict>): (r: seq<Dict>)
    requires Named(records)
    ensures |r| == |records| && Named(r)
  {
    seq(|records|, k requires 0 <= k < |records| => Demoted(records[k]))
  }

  /**
   * Record by record: a running record that fails to build is saved as
   * stopped, every other record is kept as it was, so no record left
   * running is one that fails to build.
   */
  lemma RestoredSettingsAt(records: seq<Dict>, k: nat)
    requires Named(records) && k < |records|
    ensures IsRunning(records[k]) && SpawnFrom(records[k]).Raises? ==>
      RestoredSettings(records)[k] == WithStatus(records[k], "stopped")
    ensures !(IsRunning(records[k]) && SpawnFrom(records[k]).Raises?) ==> RestoredSettings(records)[k] == records[k]
    ensures IsRunning(RestoredSettings(records)[k]) ==> !SpawnFrom(records[k]).Raises?
  {
  }

  /**
   * The workers `restore_running_instances` registers, by name: one per
   * running record that builds, a later record of the same name replacing
   * an earlier one.
   */
  function Restored(records: seq<Dict>): (r: map<string, Params>)
    requires Named(records)
    ensures forall n :: n in r ==> r[n].name == n
    decreases |records|
  {
    if records == [] then map[]
    else
      var n := |records| - 1;
      var before := Restored(records[..n]);
      var rec := records[n];
      if IsRunning(rec) && SpawnFrom(rec).Spawned? then
        before[SpawnFrom(rec).params.name := SpawnFrom(rec).params]
      else
        before
  }

  /** The record is running and builds a worker named `n`. */
  predicate BuildsAs(rec: Dict, n: string)
    requires "name" in rec
  {
    IsRunning(rec) && SpawnFrom(rec).Spawned? && SpawnFrom(rec).params.name == n
  }

  /** One more record: its worker, if it builds one, replaces any earlier one of that name. */
  lemma RestoredStep(records: seq<Dict>, i: nat)
    requires Named(records) && i < |records|
    ensures Named(records[..i]) && Named(records[..i + 1])
    ensures var rec := records[i];
      Restored(records[..i + 1]) ==
        if IsRunning(rec) && SpawnFrom(rec).Spawned? then Restored(records[..i])[SpawnFrom(rec).params.name := SpawnFrom(rec).params]
        else Restored(records[..i])
  {
    assert records[..i + 1][..i] == records[..i];
    assert records[..i + 1][i] == records[i];
  }

  /** Restoring one more record extends the restored prefix by that record's outcome. */
  lemma RestoredSettingsStep(records: seq<Dict>, i: nat)
    requires Named(records) && i < |records|
    ensures Named(records[..i]) && Named(records[..i + 1])
    ensures (RestoredSettings(records[..i]) + records[i..])[i := Demoted(records[i])] ==
      RestoredSettings(records[..i + 1]) + records[i + 1..]
  {
    var a := RestoredSettings(records[..i]) + records[i..];
    var b := RestoredSettings(records[..i + 1]) + records[i + 1..];
    assert |a| == |b|;
    forall k | 0 <= k < |a| ensures a[i := Demoted(records[i])][k] == b[k] {
      if k < i {
        assert records[..i][k] == records[..i + 1][k];
      }
    }
  }

  /** Every running record that builds has a worker of its name afterwards; nothing else does. */
  lemma {:induction false} RestoredNames(records: seq<Dict>, n: string)
    requires Named(records)
    ensures n in Restored(records) <==> exists k :: 0 <= k < |records| && BuildsAs(records[k], n)
    decreases |records|
  {
    if records != [] {
      var last := |records| - 1;
      var front := records[..last];
      RestoredNames(front, n);
      assert forall k :: 0 <= k < last ==> front[k] == records[k];
      RestoredStep(records, last);
      assert records[..last + 1] == records;
    }
  }

  // ---------------------------------------------------------------------
  // The control plane

  /** An `instances_status` entry (the thread object is not modelled). */
  datatype StatusEntry = StatusEntry(status: string, startTime: int)

  /** The outcomes of `start_instance`. */
  datatype StartResult = Started | AlreadyRunning | NotFound | UnknownType(kind: Value) | StartFailed {
    /** The HTTP status code of the response. */
    function Code(): int {
      match this
      case Started => 200
      case AlreadyRunning => 400
      case NotFound => 404
      case UnknownType(_) => 400
      case StartFailed => 500
    }
  }

  /** The outcomes of `stop_instance`: success names the frame file it removes, if present. */
  datatype StopResult = StopOk(frameFile: string) | StopFailed {
    function Code(): int {
      if StopOk? then 200 else 500
    }
  }

  /**
   * The invariant the handlers keep: every record is named, a name has a
   * handle exactly when it has a status entry, every entry says running,
   * and each handle was built for the name it is stored under.
   */
  predicate Consistent(settings: seq<Dict>, handles: map<string, Instance>, statuses: map<string, StatusEntry>) {
    Named(settings) &&
    handles.Keys == statuses.Keys &&
    (forall n :: n in statuses ==> statuses[n].status == "running") &&
    (forall n :: n in handles ==> handles[n].name == n)
  }

  /** Every name in `built` has its worker (an object of `created`) and a running status stamped `now`. */
  ghost predicate Registered(built: map<string, Params>, created: set<Instance>, now: int,
                             handles: map<string, Instance>, statuses: map<string, StatusEntry>)
  {
    forall n :: n in built ==>
      n in handles && n in statuses && handles[n] in created && handles[n].Has(built[n]) &&
      statuses[n] == StatusEntry("running", now)
  }

  /** Every name outside `built` keeps the handle and status it had in `h0`, `s0`; no other name has a handle. */
  ghost predicate Untouched(h0: map<string, Instance>, s0: map<string, StatusEntry>, built: map<string, Params>,
                            handles: map<string, Instance>, statuses: map<string, StatusEntry>)
  {
    (forall n :: n in handles <==> n in h0 || n in built) &&
    (forall n :: n in h0 && n in s0 && n !in built ==>
      n in handles && n in statuses && handles[n] == h0[n] && statuses[n] == s0[n])
  }

  /** Registering one more worker under its own name keeps the tables consistent and the other names as they were. */
  lemma RegisterWorker(h0: map<string, Instance>, s0: map<string, StatusEntry>, built: map<string, Params>, created: set<Instance>,
                       now: int, settings: seq<Dict>, handles: map<string, Instance>, statuses: map<string, StatusEntry>,
                       p: Params, worker: Instance)
    requires Consistent(settings, handles, statuses)
    requires Registered(built, created, now, handles, statuses) && Untouched(h0, s0, built, handles, statuses)
    requires worker.Has(p)
    ensures var handles', statuses' := handles[p.name := worker], statuses[p.name := StatusEntry("running", now)];
      Consistent(settings, handles', statuses') &&
      Registered(built[p.name := p], created + {worker}, now, handles', statuses') &&
      Untouched(h0, s0, built[p.name := p], handles', statuses')
  {
  }

  /**
   * The tables of `restore_running_instances` after the first `i` of the
   * boot-time `records`: those records are restored, the workers `built`
   * for them are registered as running, and every other handle and status
   * is as it was (`h0`, `s0`).
   */
  ghost predicate Restoring(records: seq<Dict>, i: nat, now: int, h0: map<string, Instance>, s0: map<string, StatusEntry>,
                            built: map<string, Params>, created: set<Instance>,
                            settings: seq<Dict>, handles: map<string, Instance>, statuses: map<string, StatusEntry>)
  {
    Consistent(settings, handles, statuses) && Named(records) && i <= |records| &&
    settings == RestoredSettings(records[..i]) + records[i..] &&
    built == Restored(records[..i]) &&
    Registered(built, created, now, handles, statuses) && Untouched(h0, s0, built, handles, statuses)
  }

  /** The record at `i` is still as it was at boot when its turn comes. */
  lemma RestoringAt(records: seq<Dict>, i: nat, now: int, h0: map<string, Instance>, s0: map<string, StatusEntry>,
                    built: map<string, Params>, created: set<Instance>,
                    settings: seq<Dict>, handles: map<string, Instance>, statuses: map<string, StatusEntry>)
    requires Restoring(records, i, now, h0, s0, built, created, settings, handles, statuses) && i < |records|
    ensures i < |settings| && settings[i] == records[i]
  {
  }

  /** A record that is not running, or names an unknown type, changes nothing. */
  lemma RestoringSkip(records: seq<Dict>, i: nat, now: int, h0: map<string, Instance>, s0: map<string, StatusEntry>,
                      built: map<string, Params>, created: set<Instance>,
                      settings: seq<Dict>, handles: map<string, Instance>, statuses: map<string, StatusEntry>)
    requires Restoring(records, i, now, h0, s0, built, created, settings, handles, statuses) && i < |records|
    requires !IsRunning(records[i]) || SpawnFrom(records[i]).UnknownKind?
    ensures Restoring(records, i + 1, now, h0, s0, built, created, settings, handles, statuses)
  {
    RestoredStep(records, i);
    RestoredSettingsStep(records, i);
  }

  /** A running record that fails to build is marked stopped. */
  lemma RestoringDemote(records: seq<Dict>, i: nat, now: int, h0: map<string, Instance>, s0: map<string, StatusEntry>,
                        built: map<string, Params>, created: set<Instance>,
                        settings: seq<Dict>, handles: map<string, Instance>, statuses: map<string, StatusEntry>)
    requires Restoring(records, i, now, h0, s0, built, created, settings, handles, statuses) && i < |records|
    requires IsRunning(records[i]) && SpawnFrom(records[i]).Raises?
    ensures Restoring(records, i + 1, now, h0, s0, built, created,
                      settings[i := WithStatus(records[i], "stopped")], handles, statuses)
  {
    RestoredStep(records, i);
    RestoredSettingsStep(records, i);
  }

  /** A running record that builds registers its worker as running under the worker's name. */
  lemma RestoringSpawn(records: seq<Dict>, i: nat, now: int, h0: map<string, Instance>, s0: map<string, StatusEntry>,
                       built: map<string, Params>, created: set<Instance>,
                       settings: seq<Dict>, handles: map<string, Instance>, statuses: map<string, StatusEntry>, worker: Instance)
    requires Restoring(records, i, now, h0, s0, built, created, settings, handles, statuses) && i < |records|
    requires IsRunning(records[i]) && SpawnFrom(records[i]).Spawned? && worker.Has(SpawnFrom(records[i]).params)
    ensures var p := SpawnFrom(records[i]).params;
      Restoring(records, i + 1, now, h0, s0, built[p.name := p], created + {worker},
                settings, handles[p.name := worker], statuses[p.name := StatusEntry("running", now)])
  {
    RestoredStep(records, i);
    RestoredSettingsStep(records, i);
    RegisterWorker(h0, s0, built, created, now, settings, handles, statuses, SpawnFrom(records[i]).params, worker);
  }

  /** Once every record is restored, the tables are as `restore_running_instances` leaves them. */
  lemma RestoringComplete(records: seq<Dict>, now: int, h0: map<string, Instance>, s0: map<string, StatusEntry>,
                          built: map<string, Params>, created: set<Instance>,
                          settings: seq<Dict>, handles: map<string, Instance>, statuses: map<string, StatusEntry>)
    requires Restoring(records, |records|, now, h0, s0, built, created, settings, handles, statuses) && h0.Keys == s0.Keys
    ensures Consistent(settings, handles, statuses) && settings == RestoredSettings(records)
    ensures forall n :: n in handles <==> n in h0 || n in Restored(records)
    ensures forall n :: n in Restored(records) ==>
      n in handles && handles[n] in created && handles[n].Has(Restored(records)[n]) &&
      n in statuses && statuses[n] == StatusEntry("running", now)
    ensures forall n :: n in h0 && n !in Restored(records) ==>
      n in handles && n in statuses && handles[n] == h0[n] && statuses[n] == s0[n]
  {
    assert records[..|records|] == records;
  }

  class ControlPlane {
    /** `settings['instances']` as last saved. */
    var settings: seq<Dict>
    /** `instance_objects`. */
    var handles: map<string, Instance>
    /** `instances_status`. */
    var statuses: map<string, StatusEntry>

    /** The invariant the handlers keep, on the three tables. */
    predicate Valid()
      reads this
    {
      Consistent(settings, handles, statuses)
    }

    /** The worker registered under `name`, as a frame. */
    function HandleOf(name: string): set<Instance>
      reads this
    {
      if name in handles then {handles[name]} else {}
    }

    /** Module load: settings read from the file, no workers yet. */
    constructor (records: seq<Dict>)
      requires Named(records)
      ensures Valid()
      ensures settings == records && handles == map[] && statuses == map[]
    {
      settings := records;
      handles := map[];
      statuses := map[];
    }

    /** `add_instance`: appends one record under a fresh name. */
    method Add(request: Dict) returns (record: Dict)
      requires Valid()
      requires "name" in request ==> request["name"].Str?
      modifies this`settings
      ensures Valid()
      ensures settings == old(settings) + [record]
      ensures "name" in record && record["name"].Str? && record == NewRecord(record["name"].s, request)
      ensures FirstFreeName(RequestedName(request, |old(settings)|), Names(old(settings)), record["name"].s)
    {
      var existing := Names(settings);
      var name := UniqueName(RequestedName(request, |existing|), existing);
      record := NewRecord(name, request);
      settings := settings + [record];
    }

    /** `update_instance`: merges the request into the first record of that name. */
    method Update(target: string, request: Dict) returns (ok: bool)
      requires Valid()
      modifies this`settings
      ensures Valid()
      ensures FirstIndex(old(settings), target).None? ==> ok && settings == old(settings)
      ensures FirstIndex(old(settings), target).Some? ==>
        var i := FirstIndex(old(settings), target).value;
        match Merge(old(settings)[i], request)
        case None => !ok && settings == old(settings)
        case Some(merged) => ok && settings == old(settings)[i := merged]
    {
      var found := FindConfig(settings, target);
      if found.None? {
        return true;
      }
      var i := found.value;
      var merged := Merge(settings[i], request);
      if merged.None? {
        return false;
      }
      MergeKeepsNameAndStatus(settings[i], request);
      settings := settings[i := merged.value];
      ok := true;
    }

    /** `delete_instance`: stops and forgets the worker and removes every record of that name. */
    method Delete(target: string)
      requires Valid()
      modifies this, HandleOf(target)`run
      ensures Valid()
      ensures settings == Without(old(settings), target)
      ensures handles == old(handles) - {target} && statuses == old(statuses) - {target}
      ensures target in old(handles) ==> !old(handles)[target].run
    {
      if target in handles {
        handles[target].Stop();
        handles := handles - {target};
      }
      if target in statuses {
        statuses := statuses - {target};
      }
      settings := Without(settings, target);
    }

    /** `start_instance`. */
    method Start(target: string, now: int) returns (r: StartResult)
      requires Valid()
      modifies this
      ensures Valid()
      ensures r == AlreadyRunning <==> target in old(statuses) && old(statuses)[target].status == "running"
      ensures r == NotFound <==> target !in old(statuses) && FirstIndex(old(settings), target).None?
      ensures r != Started ==> settings == old(settings) && handles == old(handles) && statuses == old(statuses)
      ensures r.UnknownType? || r == StartFailed || r == Started ==>
        target !in old(statuses) && FirstIndex(old(settings), target).Some?
      ensures r.UnknownType? ==> SpawnFrom(old(settings)[FirstIndex(old(settings), target).value]) == UnknownKind(r.kind)
      ensures r == StartFailed ==> SpawnFrom(old(settings)[FirstIndex(old(settings), target).value]).Raises?
      ensures r == Started ==>
        var i := FirstIndex(old(settings), target).value;
        SpawnFrom(old(settings)[i]).Spawned? &&
        settings == old(settings)[i := WithStatus(old(settings)[i], "running")] &&
        target in handles && fresh(handles[target]) && handles[target].run &&
        handles[target].Has(SpawnFrom(old(settings)[i]).params) &&
        handles == old(handles)[target := handles[target]] &&
        statuses == old(statuses)[target := StatusEntry("running", now)]
    {
      if target in statuses && statuses[target].status == "running" {
        return AlreadyRunning;
      }
      var found := FindConfig(settings, target);
      if found.None? {
        return NotFound;
      }
      var i := found.value;
      var cfg := settings[i];
      match SpawnFrom(cfg)
      case UnknownKind(t) =>
        r := UnknownType(t);
      case Raises =>
        r := StartFailed;
      case Spawned(p) =>
        var worker := new Instance(p);
        handles := handles[target := worker];
        statuses := statuses[target := StatusEntry("running", now)];
        settings := settings[i := WithStatus(cfg, "running")];
        r := Started;
    }

    /**
     * `stop_instance`. The frame path is built from the handle's type; with
     * no handle that variable is unbound, so the handler fails, but only
     * after the status has been cleared and the record marked stopped.
     */
    method Stop(target: string) returns (r: StopResult)
      requires Valid()
      modifies this, HandleOf(target)`run
      ensures Valid()
      ensures handles == old(handles) - {target} && statuses == old(statuses) - {target}
      ensures FirstIndex(old(settings), target).None? ==> settings == old(settings)
      ensures FirstIndex(old(settings), target).Some? ==>
        var i := FirstIndex(old(settings), target).value;
        settings == old(settings)[i := WithStatus(old(settings)[i], "stopped")]
      ensures r.StopOk? <==> target in old(handles)
      ensures target in old(handles) ==> !old(handles)[target].run
      ensures r.StopOk? ==> r.frameFile == old(handles)[target].imageFile
      ensures r.StopOk? ==> r.frameFile == FrameFile(old(handles)[target].instanceType, target)
    {
      var kind: Option<Kind> := None;
      if target in handles {
        var worker := handles[target];
        kind := Some(worker.instanceType);
        worker.Stop();
        handles := handles - {target};
      }
      if target in statuses {
        statuses := statuses - {target};
      }
      var found := FindConfig(settings, target);
      if found.Some? {
        settings := settings[found.value := WithStatus(settings[found.value], "stopped")];
      }
      if kind.None? {
        return StopFailed;
      }
      r := StopOk(FrameFile(kind.value, target));
    }

    /** `cleanup_instances`: stops every worker and marks every running record stopped; the maps are kept. */
    method Cleanup()
      requires Valid()
      modifies this, handles.Values`run
      ensures Valid()
      ensures handles == old(handles) && statuses == old(statuses)
      ensures forall n :: n in handles ==> !handles[n].run
      ensures settings == StoppedAll(old(settings))
    {
      var pending := handles.Keys;
      while pending != {}
        invariant pending <= handles.Keys
        invariant handles == old(handles) && statuses == old(statuses) && settings == old(settings)
        invariant forall n :: n in handles && n !in pending ==> !handles[n].run
        decreases |pending|
      {
        var n :| n in pending;
        handles[n].Stop();
        pending := pending - {n};
      }
      var i := 0;
      while i < |settings|
        invariant 0 <= i <= |settings| == |old(settings)|
        invariant handles == old(handles) && statuses == old(statuses)
        invariant forall n :: n in handles ==> !handles[n].run
        invariant forall k :: 0 <= k < i ==> settings[k] == Halted(old(settings)[k])
        invariant forall k :: i <= k < |settings| ==> settings[k] == old(settings)[k]
      {
        if IsRunning(settings[i]) {
          settings := settings[i := WithStatus(settings[i], "stopped")];
        }
        i := i + 1;
      }
      assert settings == StoppedAll(old(settings));
    }

    /**
     * One iteration of `restore_running_instances`: the record at `i`, if
     * saved as running, is rebuilt or marked stopped, and the restored
     * prefix grows by that record.
     */
    method RestoreRecord(ghost records: seq<Dict>, i: nat, now: int, ghost h0: map<string, Instance>, ghost s0: map<string, StatusEntry>,
                         ghost built: map<string, Params>, ghost created: set<Instance>)
      returns (ghost built': map<string, Params>, ghost created': set<Instance>)
      requires Restoring(records, i, now, h0, s0, built, created, settings, handles, statuses) && i < |records|
      modifies this
      ensures Restoring(records, i + 1, now, h0, s0, built', created', settings, handles, statuses)
      ensures forall w :: w in created' ==> w in created || (fresh(w) && w.run)
    {
      RestoringAt(records, i, now, h0, s0, built, created, settings, handles, statuses);
      var cfg := settings[i];
      built', created' := built, created;
      if !IsRunning(cfg) {
        RestoringSkip(records, i, now, h0, s0, built, created, settings, handles, statuses);
      } else {
        var spawn := SpawnFrom(cfg);
        if spawn.Raises? {
          RestoringDemote(records, i, now, h0, s0, built, created, settings, handles, statuses);
          settings := settings[i := WithStatus(cfg, "stopped")];
        } else if spawn.Spawned? {
          var p := spawn.params;
          var worker := new Instance(p);
          RestoringSpawn(records, i, now, h0, s0, built, created, settings, handles, statuses, worker);
          handles := handles[p.name := worker];
          statuses := statuses[p.name := StatusEntry("running", now)];
          built', created' := built[p.name := p], created + {worker};
        } else {
          RestoringSkip(records, i, now, h0, s0, built, created, settings, handles, statuses);
        }
      }
    }

    /** `restore_running_instances`: rebuilds a worker for each record saved as running. */
    method RestoreRunningInstances(now: int)
      requires Valid()
      modifies this
      ensures Valid()
      ensures settings == RestoredSettings(old(settings))
      ensures forall n :: n in handles <==> n in old(handles) || n in Restored(old(settings))
      ensures forall n :: n in Restored(old(settings)) ==>
        fresh(handles[n]) && handles[n].run && handles[n].Has(Restored(old(settings))[n]) &&
        statuses[n] == StatusEntry("running", now)
      ensures forall n :: n in old(handles) && n !in Restored(old(settings)) ==>
        handles[n] == old(handles)[n] && statuses[n] == old(statuses)[n]
    {
      ghost var records := settings;
      ghost var built: map<string, Params> := map[];
      ghost var created: set<Instance> := {};
      assert records[..0] == [];
      var i := 0;
      while i < |settings|
        invariant |settings| == |records|
        invariant Restoring(records, i, now, old(handles), old(statuses), built, created, settings, handles, statuses)
        invariant forall w :: w in created ==> fresh(w) && w.run
      {
        built, created := RestoreRecord(records, i, now, old(handles), old(statuses), built, created);
        i := i + 1;
      }
      RestoringComplete(records, now, old(handles), old(statuses), built, created, settings, handles, statuses);
    }
  }
}
