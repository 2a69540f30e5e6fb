/**
 * src/components/InstanceMap.js: the markers the map shows. Each time the
 * instance list changes, every marker the component remembers is taken off
 * the map, and one marker is added per instance with both coordinates
 * truthy, remembered under the instance's name. Leaflet markers are objects
 * (`Marker`); the map's layers are the set of markers on it.
 */
module InstanceMap {
  import opened Json
  import opened Text
  import opened InstancesTable

  // ---------------------------------------------------------------------
  // extractYouTubeId

  /** The alternatives of the regular expression, in the order they are tried. */
  const VideoPrefixes: seq<string> := ["youtube.com/watch?v=", "youtu.be/"]

  /** The longest id `substring(0, 11)` keeps. */
  const VideoIdLength: nat := 11

  /**
   * `extractYouTubeId`: `'Unknown'` for a falsy URL or no match, otherwise
   * the leftmost captured id cut to eleven characters. A truthy URL must be
   * a string (`match` on another value raises).
   */
  function ExtractVideoId(url: Value): (r: string)
    requires TextOrFalsy(url)
    ensures !Truthy(url) ==> r == "Unknown"
    ensures Truthy(url) && SearchId(url.s, VideoPrefixes).None? ==> r == "Unknown"
    ensures Truthy(url) && SearchId(url.s, VideoPrefixes).Some? ==>
      var id := SearchId(url.s, VideoPrefixes).value;
      0 < |r| <= VideoIdLength && r <= id && (|id| <= VideoIdLength ==> r == id) &&
      (|id| > VideoIdLength ==> r == id[..VideoIdLength]) &&
      forall c :: c in r ==> !Excluded(c)
  {
    if !Truthy(url) then "Unknown"
    else
      match SearchId(url.s, VideoPrefixes)
      case None => "Unknown"
      case Some(id) => if |id| <= VideoIdLength then id else id[..VideoIdLength]
  }

  /** After `youtu.be/` the id run reaches the end of a link whose id has no excluded character. */
  lemma ShortLinkIdRun(id: string)
    requires forall c :: c in id ==> !Excluded(c)
    ensures IdRun("youtu.be/" + id, 9) == |id|
  {
    var s := "youtu.be/" + id;
    forall i | 9 <= i < |s| ensures !Excluded(s[i]) {
      assert s[i] == id[i - 9];
    }
    IdRunToEnd(s, 9);
  }

  /** A literal differing from the text at one position does not occur there. */
  lemma MismatchAt(s: string, p: nat, a: string, k: nat)
    requires k < |a| && p + k < |s| && s[p + k] != a[k]
    ensures !AltMatch(s, p, a)
  {
    if p + |a| <= |s| {
      assert s[p..p + |a|][k] == s[p + k];
    }
  }

  /** When the first alternative fails and the second matches, the id starts after the second. */
  lemma SecondAlternative(s: string, p: nat, alts: seq<string>)
    requires p <= |s| && |alts| >= 2 && !AltMatch(s, p, alts[0]) && AltMatch(s, p, alts[1])
    ensures AltAt(s, p, alts) == Some(p + |alts[1]|)
  {
    assert alts[1..][0] == alts[1];
    assert AltAt(s, p, alts[1..]) == Some(p + |alts[1]|);
  }

  /** A short link does not start with the watch alternative: they differ at the sixth character. */
  lemma ShortLinkNotWatch(id: string)
    ensures !AltMatch("youtu.be/" + id, 0, VideoPrefixes[0])
  {
    var s := "youtu.be/" + id;
    var watch := VideoPrefixes[0];
    assert watch[5] == 'b';
    assert s[5] == '.';
    MismatchAt(s, 0, watch, 5);
  }

  /** A short link starts with the short alternative, followed by its id. */
  lemma ShortLinkIsShort(id: string)
    requires 0 < |id| && forall c :: c in id ==> !Excluded(c)
    ensures AltMatch("youtu.be/" + id, 0, VideoPrefixes[1])
  {
    var s := "youtu.be/" + id;
    var short := VideoPrefixes[1];
    assert s[0..|short|] == short;
    ShortLinkIdRun(id);
  }

  /** At the start of a short link the first alternative fails and the second matches. */
  lemma ShortLinkAlt(id: string)
    requires 0 < |id| && forall c :: c in id ==> !Excluded(c)
    ensures AltAt("youtu.be/" + id, 0, VideoPrefixes) == Some(9)
  {
    ShortLinkNotWatch(id);
    ShortLinkIsShort(id);
    SecondAlternative("youtu.be/" + id, 0, VideoPrefixes);
  }

  /** In a short link `youtu.be/<id>`, the match is at the start and captures the whole id. */
  lemma ShortLinkSearch(id: string)
    requires 0 < |id| && forall c :: c in id ==> !Excluded(c)
    ensures SearchId("youtu.be/" + id, VideoPrefixes) == Some(id)
  {
    var s := "youtu.be/" + id;
    ShortLinkAlt(id);
    ShortLinkIdRun(id);
    assert Leftmost(s, 0, VideoPrefixes) == Some(0);
    assert s[9..9 + |id|] == id;
  }

  /** A short link `youtu.be/<id>` gives its id back when the id fits and has no `&`, `?`, `#` or newline. */
  lemma ShortLinkRoundTrip(id: string)
    requires 0 < |id| <= VideoIdLength && forall c :: c in id ==> !Excluded(c)
    ensures ExtractVideoId(Str("youtu.be/" + id)) == id
  {
    ShortLinkSearch(id);
    assert Truthy(Str("youtu.be/" + id));
  }

  /** A run of allowed characters to the end of the text is counted in full. */
  lemma {:induction false} IdRunToEnd(s: string, p: nat)
    requires p <= |s| && forall i :: p <= i < |s| ==> !Excluded(s[i])
    ensures IdRun(s, p) == |s| - p
    decreases |s| - p
  {
    if p < |s| {
      IdRunToEnd(s, p + 1);
    }
  }

  // ---------------------------------------------------------------------
  // Markers

  /** A marker is drawn only when both coordinates are truthy, so a 0 coordinate is skipped. */
  predicate Shown(instance: Dict) {
    Truthy(Get(instance, "latitude", Null)) && Truthy(Get(instance, "longitude", Null))
  }

  const Running: string := "#16825d"
  const NotRunning: string := "#a31515"

  /** The icon colour: green exactly for status `'running'` (strict equality), red otherwise. */
  function MarkerColour(instance: Dict): (c: string)
    ensures c == Running <==> Get(instance, "status", Null) == Str("running")
    ensures c == Running || c == NotRunning
  {
    if Get(instance, "status", Null) == Str("running") then Running else NotRunning
  }

  /** What a marker shows: its position, its colour and the type in its popup. */
  datatype Pin = Pin(latitude: Value, longitude: Value, colour: string, kind: TypeLabel)

  function PinOf(instance: Dict): (p: Pin)
    ensures p.latitude == Get(instance, "latitude", Null) && p.longitude == Get(instance, "longitude", Null)
    ensures p.colour == MarkerColour(instance) && p.kind == InstanceType(instance)
  {
    Pin(Get(instance, "latitude", Null), Get(instance, "longitude", Null), MarkerColour(instance), InstanceType(instance))
  }

  /** The key a marker is remembered under. */
  function NameOf(instance: Dict): Value {
    Get(instance, "name", Null)
  }

  /** The remembered pins after the list is walked in order: a later instance of the same name replaces an earlier one. */
  function Pins(instances: seq<Dict>): (r: map<Value, Pin>)
    ensures forall n :: n in r <==> exists i :: 0 <= i < |instances| && Shown(instances[i]) && NameOf(instances[i]) == n
  {
    if instances == [] then map[]
    else
      var rest := Pins(instances[..|instances| - 1]);
      var last := instances[|instances| - 1];
      assert forall i :: 0 <= i < |instances| - 1 ==> instances[..|instances| - 1][i] == instances[i];
      if Shown(last) then rest[NameOf(last) := PinOf(last)] else rest
  }

  /** The number of instances with a marker drawn. */
  function ShownCount(instances: seq<Dict>): nat {
    if instances == [] then 0
    else ShownCount(instances[..|instances| - 1]) + (if Shown(instances[|instances| - 1]) then 1 else 0)
  }

  /** One more instance of the list: its pin is remembered and counted when it is shown. */
  lemma PinsStep(instances: seq<Dict>, i: nat)
    requires i < |instances|
    ensures Pins(instances[..i + 1]) ==
      if Shown(instances[i]) then Pins(instances[..i])[NameOf(instances[i]) := PinOf(instances[i])] else Pins(instances[..i])
    ensures ShownCount(instances[..i + 1]) == ShownCount(instances[..i]) + if Shown(instances[i]) then 1 else 0
  {
    assert instances[..i + 1][..i] == instances[..i];
  }

  /** The shown instances have pairwise different names. */
  predicate DistinctNames(instances: seq<Dict>) {
    forall i, j :: 0 <= i < j < |instances| && Shown(instances[i]) && Shown(instances[j]) ==>
      NameOf(instances[i]) != NameOf(instances[j])
  }

  /** Dropping the last instance keeps the names distinct. */
  lemma DistinctInit(instances: seq<Dict>)
    requires DistinctNames(instances) && instances != []
    ensures DistinctNames(instances[..|instances| - 1])
  {
    var init := instances[..|instances| - 1];
    forall i, j | 0 <= i < j < |init| && Shown(init[i]) && Shown(init[j]) ensures NameOf(init[i]) != NameOf(init[j]) {
      assert init[i] == instances[i] && init[j] == instances[j];
    }
  }

  /** With distinct names, a shown last instance has no pin yet in the rest of the list. */
  lemma LastNameNew(instances: seq<Dict>)
    requires DistinctNames(instances) && instances != [] && Shown(instances[|instances| - 1])
    ensures NameOf(instances[|instances| - 1]) !in Pins(instances[..|instances| - 1])
  {
    var init := instances[..|instances| - 1];
    forall i | 0 <= i < |init| && Shown(init[i]) ensures NameOf(init[i]) != NameOf(instances[|instances| - 1]) {
      assert init[i] == instances[i];
    }
  }

  /** With distinct names, a shown instance's pin is remembered under its name. */
  lemma {:induction false} PinOfShown(instances: seq<Dict>, i: nat)
    requires DistinctNames(instances) && i < |instances| && Shown(instances[i])
    ensures NameOf(instances[i]) in Pins(instances) && Pins(instances)[NameOf(instances[i])] == PinOf(instances[i])
    decreases |instances|
  {
    var n := |instances| - 1;
    var init, last := instances[..n], instances[n];
    assert instances[..n + 1] == instances;
    PinsStep(instances, n);
    if i < n {
      assert init[i] == instances[i];
      DistinctInit(instances);
      PinOfShown(init, i);
      if Shown(last) {
        assert NameOf(instances[i]) != NameOf(last);
      }
    }
  }

  /** With distinct names there is one pin per shown instance. */
  lemma {:induction false} PinsCountDistinct(instances: seq<Dict>)
    requires DistinctNames(instances)
    ensures |Pins(instances)| == ShownCount(instances)
    decreases |instances|
  {
    if instances != [] {
      var init := instances[..|instances| - 1];
      DistinctInit(instances);
      PinsCountDistinct(init);
      if Shown(instances[|instances| - 1]) {
        LastNameNew(instances);
      }
    }
  }

  /** With distinct names, every shown instance has its own pin, and there is one pin per shown instance. */
  lemma PinsOfDistinct(instances: seq<Dict>)
    requires DistinctNames(instances)
    ensures forall i :: 0 <= i < |instances| && Shown(instances[i]) ==>
      NameOf(instances[i]) in Pins(instances) && Pins(instances)[NameOf(instances[i])] == PinOf(instances[i])
    ensures |Pins(instances)| == ShownCount(instances)
  {
    forall i | 0 <= i < |instances| && Shown(instances[i])
      ensures NameOf(instances[i]) in Pins(instances) && Pins(instances)[NameOf(instances[i])] == PinOf(instances[i])
    {
      PinOfShown(instances, i);
    }
    PinsCountDistinct(instances);
  }

  /** Never more pins than instances drawn. */
  lemma {:induction false} PinsBound(instances: seq<Dict>)
    ensures |Pins(instances)| <= ShownCount(instances) <= |instances|
    decreases |instances|
  {
    if instances != [] {
      PinsBound(instances[..|instances| - 1]);
    }
  }

  /** A Leaflet marker. */
  class Marker {
    const pin: Pin

    constructor (pin: Pin)
      ensures this.pin == pin
    {
      this.pin := pin;
    }
  }

  /**
   * The state after the first `i` instances of the list: the map holds the
   * cleared layers plus the markers added, one per shown instance, and the
   * remembered markers carry the pins of that prefix.
   */
  predicate Rebuilding(instances: seq<Dict>, i: nat, cleared: set<Marker>, added: set<Marker>,
                       layers: set<Marker>, markers: map<Value, Marker>) {
    i <= |instances| && layers == cleared + added && |added| == ShownCount(instances[..i]) &&
    markers.Values <= added && markers.Keys == Pins(instances[..i]).Keys &&
    forall n :: n in markers ==> markers[n].pin == Pins(instances[..i])[n]
  }

  /** A shown instance adds its new marker to the map and remembers it under its name. */
  lemma RebuildingShown(instances: seq<Dict>, i: nat, cleared: set<Marker>, added: set<Marker>,
                        layers: set<Marker>, markers: map<Value, Marker>, marker: Marker)
    requires Rebuilding(instances, i, cleared, added, layers, markers) && i < |instances| && Shown(instances[i])
    requires marker !in added && marker.pin == PinOf(instances[i])
    ensures Rebuilding(instances, i + 1, cleared, added + {marker}, layers + {marker},
                       markers[NameOf(instances[i]) := marker])
  {
    PinsStep(instances, i);
  }

  /** An instance that is not shown changes nothing. */
  lemma RebuildingHidden(instances: seq<Dict>, i: nat, cleared: set<Marker>, added: set<Marker>,
                         layers: set<Marker>, markers: map<Value, Marker>)
    requires Rebuilding(instances, i, cleared, added, layers, markers) && i < |instances| && !Shown(instances[i])
    ensures Rebuilding(instances, i + 1, cleared, added, layers, markers)
  {
    PinsStep(instances, i);
  }

  /** The map and `markersRef.current`. */
  class Map {
    /** Whether the component holds a Leaflet map (`mapInstanceRef.current` is set). */
    var live: bool
    /** The markers on the map the component holds; none when it holds no map. */
    var layers: set<Marker>
    /** The markers the component remembers, by instance name. */
    var markers: map<Value, Marker>

    /** Without a map there are no markers on it. */
    predicate Valid()
      reads this
    {
      !live ==> layers == {}
    }

    /** A freshly mounted component: no map yet, nothing remembered. */
    constructor ()
      ensures Valid()
      ensures !live && layers == {} && markers == map[]
    {
      live, layers, markers := false, {}, map[];
    }

    /** The cleanup the effect returns: the map is destroyed with all its markers; the remembered markers are kept. */
    method Cleanup()
      requires Valid()
      modifies this
      ensures Valid()
      ensures !live && layers == {} && markers == old(markers)
    {
      if live {
        live, layers := false, {};
      }
    }

    /** The first loop of the effect: every remembered marker is taken off the map, then none is remembered. */
    method ClearMarkers()
      modifies this
      ensures live == old(live) && layers == old(layers) - old(markers.Values) && markers == map[]
    {
      ghost var remembered := markers.Values;
      var rest := markers.Values;
      while rest != {}
        invariant live == old(live)
        invariant rest <= remembered
        invariant layers == old(layers) - (remembered - rest)
        decreases rest
      {
        var m :| m in rest;
        layers := layers - {m};
        rest := rest - {m};
      }
      markers := map[];
    }

    /** The second loop of the effect: a new marker for each shown instance, in list order. */
    method AddMarkers(instances: seq<Dict>) returns (ghost added: set<Marker>)
      requires markers == map[]
      modifies this
      ensures live == old(live)
      ensures Rebuilding(instances, |instances|, old(layers), added, layers, markers)
      ensures forall m :: m in added ==> fresh(m)
    {
      ghost var cleared := layers;
      var onMap: set<Marker>, remembered: map<Value, Marker> := layers, markers;
      added := {};
      var i := 0;
      assert instances[..0] == [];
      while i < |instances|
        invariant live == old(live)
        invariant Rebuilding(instances, i, cleared, added, onMap, remembered)
        invariant forall m :: m in added ==> fresh(m)
      {
        var instance := instances[i];
        if Shown(instance) {
          var marker := new Marker(PinOf(instance));
          RebuildingShown(instances, i, cleared, added, onMap, remembered, marker);
          onMap := onMap + {marker};
          remembered := remembered[NameOf(instance) := marker];
          added := added + {marker};
        } else {
          RebuildingHidden(instances, i, cleared, added, onMap, remembered);
        }
        i := i + 1;
      }
      layers, markers := onMap, remembered;
    }

    /**
     * One run of the effect for an instance list. Without a mounted
     * container nothing happens. Otherwise a map is created when none is
     * held, the remembered markers are removed from it and forgotten, and
     * one new marker per shown instance is added; the remembered ones are
     * exactly the pins of the list. A marker replaced under a repeated name
     * stays on the map.
     */
    method Rebuild(instances: seq<Dict>, mounted: bool) returns (ghost added: set<Marker>)
      requires Valid()
      modifies this
      ensures Valid()
      ensures !mounted ==> live == old(live) && layers == old(layers) && markers == old(markers) && added == {}
      ensures mounted ==> live
      ensures mounted ==> layers == (if old(live) then old(layers) - old(markers.Values) else {}) + added
      ensures forall m :: m in added ==> fresh(m)
      ensures mounted ==> |added| == ShownCount(instances)
      ensures mounted ==> markers.Values <= added
      ensures mounted ==> markers.Keys == Pins(instances).Keys
      ensures mounted ==> forall n :: n in markers ==> markers[n].pin == Pins(instances)[n]
    {
      if !mounted {
        return {};
      }
      if !live {
        live, layers := true, {};
      }
      ClearMarkers();
      added := AddMarkers(instances);
      assert instances[..|instances|] == instances;
    }

    /**
     * A change of the instance list once the container is mounted: the
     * previous run's cleanup destroys the old map, and the new run builds a
     * map that carries exactly the markers of the new list.
     */
    method Rerun(instances: seq<Dict>) returns (ghost added: set<Marker>)
      requires Valid()
      modifies this
      ensures Valid()
      ensures live && layers == added
      ensures forall m :: m in added ==> fresh(m)
      ensures |layers| == ShownCount(instances)
      ensures markers.Values <= layers
      ensures markers.Keys == Pins(instances).Keys
      ensures forall n :: n in markers ==> markers[n].pin == Pins(instances)[n]
    {
      Cleanup();
      added := Rebuild(instances, true);
    }
  }
}
