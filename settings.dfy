/**
 * src/settings.py: reading the settings document and turning its
 * `instances` list into worker objects, dispatching on each item's `type`.
 * The file itself is outside the model: `LoadSettings` takes what reading
 * and parsing it gave.
 */
module Settings {
  import opened Json
  import opened InstanceWorker

  /** The outcome of opening and parsing the settings file. */
  datatype SettingsFile = FileMissing | InvalidJson | Document(doc: Value)

  /** `{"instances": []}`, the fallback document. */
  function EmptySettings(): Value {
    Obj(map["instances" := Arr([])])
  }

  /** `load_settings`: the parsed document, or the empty fallback when the file is missing or not JSON. */
  function LoadSettings(file: SettingsFile): (r: Value)
    ensures file.Document? ==> r == file.doc
    ensures !file.Document? ==> r == EmptySettings()
  {
    match file
    case Document(doc) => doc
    case _ => EmptySettings()
  }

  /**
   * What `for item in settings.get("instances", [])` iterates over: a list's
   * elements, a string's characters; an empty object has no keys. `None`
   * means the first step raises: the document is not a dict, the value is
   * not iterable, or it is a non-empty object whose first key (a string)
   * has no `.get`.
   */
  function Items(settings: Value): (r: Option<seq<Value>>)
    ensures !settings.Obj? ==> r.None?
    ensures settings.Obj? && "instances" !in settings.fields ==> r == Some([])
    ensures settings.Obj? && "instances" in settings.fields && settings.fields["instances"].Arr? ==>
      r == Some(settings.fields["instances"].items)
    ensures settings.Obj? && "instances" in settings.fields && settings.fields["instances"].Str? ==>
      var s := settings.fields["instances"].s;
      r.Some? && |r.value| == |s| && forall i :: 0 <= i < |s| ==> r.value[i] == Str([s[i]])
    ensures settings.Obj? && "instances" in settings.fields && settings.fields["instances"].Obj? ==>
      (r == Some([]) <==> settings.fields["instances"].fields == map[]) && (r.None? <==> settings.fields["instances"].fields != map[])
    ensures settings.Obj? && "instances" in settings.fields ==>
      var v := settings.fields["instances"];
      !(v.Arr? || v.Str? || v.Obj?) ==> r.None?
  {
    if !settings.Obj? then None
    else
      match Get(settings.fields, "instances", Arr([]))
      case Arr(items) => Some(items)
      case Str(s) => Some(seq(|s|, i requires 0 <= i < |s| => Str([s[i]])))
      case Obj(m) => if m == map[] then Some([]) else None
      case _ => None
  }

  /** What one item of the list produces. `Fails` is an exception that escapes `create_instances`. */
  datatype ItemPlan = Make(params: Params) | Skip | Fails

  /** The item is a dict whose `type` is one of the two known kinds. */
  predicate Recognised(item: Value) {
    item.Obj? && Get(item.fields, "type", Null) in {Str("youtube"), Str("camera")}
  }

  /**
   * One iteration of the loop: the constructor arguments read with
   * `item.get`, or a skip for another type. A non-dict item has no `.get`,
   * and a name that is not a string makes the constructor's `.lower()` raise.
   */
  function PlanItem(item: Value): (r: ItemPlan)
    ensures r.Skip? <==> item.Obj? && !Recognised(item)
    ensures r.Make? ==> Recognised(item) && Get(item.fields, "name", Null) == Str(r.params.name)
    ensures r.Fails? ==> !item.Obj? || !Get(item.fields, "name", Null).Str?
    ensures r.Make? ==> (r.params.source.StreamSource? <==> Get(item.fields, "type", Null) == Str("youtube"))
    ensures r.Make? ==> r.params.id == Get(item.fields, "id", Null)
    ensures r.Make? ==> r.params.lookoutEndpoint == Get(item.fields, "output_url", Null)
    ensures r.Make? && "frequency" !in item.fields ==> r.params.frequency == Int(60)
    ensures r.Make? && "frequency" in item.fields ==> r.params.frequency == item.fields["frequency"]
    ensures r.Make? && "latitude" !in item.fields ==> r.params.latitude == Real(0.0)
    ensures r.Make? && "latitude" in item.fields ==> r.params.latitude == item.fields["latitude"]
    ensures r.Make? && "longitude" !in item.fields ==> r.params.longitude == Real(0.0)
    ensures r.Make? && "longitude" in item.fields ==> r.params.longitude == item.fields["longitude"]
    ensures r.Make? && r.params.source.StreamSource? ==> r.params.source.youtubeUrl == Get(item.fields, "youtube_url", Null)
    ensures r.Make? && r.params.source.CameraSource? ==>
      r.params.source.cameraUrl == Get(item.fields, "camera_url", Null) &&
      r.params.source.cameraUsername == Get(item.fields, "camera_username", Null) &&
      r.params.source.cameraPassword == Get(item.fields, "camera_password", Null) &&
      ("folder_path" !in item.fields ==> r.params.source.folderPath == Str("./camera_images")) &&
      ("folder_path" in item.fields ==> r.params.source.folderPath == item.fields["folder_path"])
  {
    if !item.Obj? then Fails
    else
      var d := item.fields;
      var kind := Get(d, "type", Null);
      if kind != Str("youtube") && kind != Str("camera") then Skip
      else
        match Get(d, "name", Null)
        case Str(name) =>
          var source :=
            if kind == Str("youtube") then StreamSource(Get(d, "youtube_url", Null))
            else CameraSource(Get(d, "camera_url", Null), Get(d, "camera_username", Null),
                              Get(d, "camera_password", Null), Get(d, "folder_path", Str("./camera_images")));
          Make(Params(Get(d, "id", Null), name, source, Get(d, "output_url", Null),
                      Get(d, "frequency", Int(60)), Get(d, "latitude", Real(0.0)), Get(d, "longitude", Real(0.0))))
        case _ => Fails
  }

  /** Some item raises. */
  predicate AnyFails(items: seq<Value>) {
    exists k :: 0 <= k < |items| && PlanItem(items[k]).Fails?
  }

  /** The constructor arguments of the instances built, in item order. */
  function Made(items: seq<Value>): (r: seq<Params>)
    ensures |r| <= |items|
  {
    if items == [] then []
    else
      match PlanItem(items[0])
      case Make(p) => [p] + Made(items[1..])
      case _ => Made(items[1..])
  }

  /** Building is item by item: the instances of a concatenation are the concatenation of the instances. */
  lemma {:induction false} MadeAppend(a: seq<Value>, b: seq<Value>)
    ensures Made(a + b) == Made(a) + Made(b)
    decreases |a|
  {
    if a != [] {
      assert (a + b)[0] == a[0];
      assert (a + b)[1..] == a[1..] + b;
      MadeAppend(a[1..], b);
      match PlanItem(a[0])
      case Make(p) =>
        calc {
          Made(a + b);
          [p] + Made(a[1..] + b);
          [p] + (Made(a[1..]) + Made(b));
          ([p] + Made(a[1..])) + Made(b);
        }
      case _ =>
    } else {
      assert a + b == b;
    }
  }

  /** The number of items whose type is one of the two known kinds. */
  function CountRecognised(items: seq<Value>): nat {
    if items == [] then 0
    else (if Recognised(items[0]) then 1 else 0) + CountRecognised(items[1..])
  }

  /** One instance per recognised item: the output is never longer than the list. */
  lemma {:induction false} MadeCount(items: seq<Value>)
    requires !AnyFails(items)
    ensures |Made(items)| == CountRecognised(items) <= |items|
    decreases |items|
  {
    if items != [] {
      var rest := items[1..];
      assert !AnyFails(rest) by {
        forall k | 0 <= k < |rest| ensures !PlanItem(rest[k]).Fails? {
          assert rest[k] == items[k + 1];
        }
      }
      assert !PlanItem(items[0]).Fails?;
      MadeCount(rest);
    }
  }

  /** The whole of `create_instances`: `None` when it raises. */
  function Created(settings: Value): (r: Option<seq<Params>>)
    ensures !settings.Obj? ==> r.None?
    ensures r.Some? ==> Items(settings).Some? && |r.value| <= |Items(settings).value|
    ensures r.Some? ==> forall k :: 0 <= k < |Items(settings).value| ==> !PlanItem(Items(settings).value[k]).Fails?
    ensures Items(settings).Some? && !AnyFails(Items(settings).value) ==> r.Some?
  {
    match Items(settings)
    case None => None
    case Some(items) => if AnyFails(items) then None else Some(Made(items))
  }

  /** The fallback document and a document without an `instances` key produce no instances. */
  lemma FallbackCreatesNothing(file: SettingsFile, settings: map<string, Value>)
    requires !file.Document? && "instances" !in settings
    ensures Created(LoadSettings(file)) == Some([])
    ensures Created(Obj(settings)) == Some([])
  {
    assert !AnyFails([]);
  }

  /** The objects match the planned constructor arguments one for one and are in their initial state. */
  predicate Built(instances: seq<Instance>, params: seq<Params>)
    reads instances
  {
    |instances| == |params| &&
    forall k :: 0 <= k < |instances| ==>
      instances[k].Has(params[k]) && instances[k].instanceType == params[k].source.Kind() &&
      instances[k].run && instances[k].latestFrame.None? && instances[k].latestDetections == Null
  }

  /** One more item: what its prefix builds grows by what the item builds, and it fails only if the item does. */
  lemma PrefixStep(items: seq<Value>, i: nat)
    requires i < |items|
    ensures Made(items[..i + 1]) == Made(items[..i]) + (if PlanItem(items[i]).Make? then [PlanItem(items[i]).params] else [])
    ensures !AnyFails(items[..i]) && !PlanItem(items[i]).Fails? ==> !AnyFails(items[..i + 1])
  {
    assert items[..i + 1] == items[..i] + [items[i]];
    MadeAppend(items[..i], [items[i]]);
    var pre := items[..i + 1];
    if !AnyFails(items[..i]) && !PlanItem(items[i]).Fails? {
      forall k | 0 <= k < i + 1 ensures !PlanItem(pre[k]).Fails? {
        if k < i {
          assert pre[k] == items[..i][k];
        }
      }
    }
  }

  /** No object appears twice. */
  predicate Distinct(instances: seq<Instance>) {
    forall j, k :: 0 <= j < k < |instances| ==> instances[j] != instances[k]
  }

  /** Appending an object not yet listed keeps the list free of repeats. */
  lemma DistinctAppend(instances: seq<Instance>, instance: Instance)
    requires Distinct(instances) && instance !in instances
    ensures Distinct(instances + [instance])
  {
  }

  /** One more object built for one more planned argument list. */
  lemma BuiltAppend(instances: seq<Instance>, params: seq<Params>, instance: Instance, p: Params)
    requires Built(instances, params)
    requires instance.Has(p) && instance.instanceType == p.source.Kind()
    requires instance.run && instance.latestFrame.None? && instance.latestDetections == Null
    ensures Built(instances + [instance], params + [p])
  {
  }

  /** The `for` loop of `create_instances` over the iterated items: `raised` when an item raises. */
  method BuildAll(items: seq<Value>) returns (instances: seq<Instance>, raised: bool)
    ensures raised <==> AnyFails(items)
    ensures raised ==> instances == []
    ensures !raised ==> Built(instances, Made(items))
    ensures forall o :: o in instances ==> fresh(o)
    ensures Distinct(instances)
  {
    instances := [];
    var i := 0;
    while i < |items|
      invariant 0 <= i <= |items|
      invariant !AnyFails(items[..i])
      invariant Built(instances, Made(items[..i]))
      invariant forall o :: o in instances ==> fresh(o)
      invariant Distinct(instances)
    {
      var item := items[i];
      PrefixStep(items, i);
      var plan := PlanItem(item);
      if plan.Fails? {
        return [], true;
      } else if plan.Make? {
        var instance := new Instance(plan.params);
        BuiltAppend(instances, Made(items[..i]), instance, plan.params);
        DistinctAppend(instances, instance);
        instances := instances + [instance];
      }
      i := i + 1;
    }
    assert items[..i] == items;
    raised := false;
  }

  /** `create_instances`: `raised` reports the exception that would escape. */
  method CreateInstances(settings: Value) returns (instances: seq<Instance>, raised: bool)
    ensures raised <==> Created(settings).None?
    ensures raised ==> instances == []
    ensures !raised ==> Built(instances, Created(settings).value)
    ensures forall o :: o in instances ==> fresh(o)
    ensures Distinct(instances)
  {
    var listed := Items(settings);
    if listed.None? {
      return [], true;
    }
    instances, raised := BuildAll(listed.value);
  }
}
